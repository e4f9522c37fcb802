/**
 * Runs of any number of clients over the ledger. Each transaction is one step, the
 * provider call is a step of its own, and a client that crashes just takes no more steps.
 */
module LedgerRun {
  import opened JsText
  import opened AiLedger

  /** Where the holder of a reservation is. A reservation is called or released, and settled, at most once. */
  datatype Phase = Reserved | Called | Settled | GivenUp

  /** `epoch` counts the resets before the reservation was made. */
  datatype Client = Client(reservation: Reservation, epoch: nat, phase: Phase)

  /** `calls` lists the clients that called the provider; `tokens` are all ids made, `stale` those made before the last reset. */
  datatype World = World(
    ledger: Ledger, epoch: nat, clients: seq<Client>, calls: seq<nat>, tokens: set<Id>, stale: set<Id>)

  /** `ChangeEvents` stands for everything else that logs events or deletes them. */
  datatype Step =
    | Begin(p: Params, now: int, owner: Id, id: Id)
    | CallProvider(client: nat)
    | GiveUp(client: nat, now: int)
    | SettleCompleted(client: nat, runId: Option<Text>, now: int)
    | SettleUnknown(client: nat, now: int)
    | RecordRequest(letter: bool, now: int)
    | ChangeEvents(events: seq<Event>)
    | Reset

  /** Tokens are fresh, and a reservation is used in order. */
  predicate Enabled(w: World, s: Step) {
    match s
    case Begin(_, _, owner, id) => owner !in w.tokens && id !in w.tokens && owner != id
    case CallProvider(c) => c < |w.clients| && w.clients[c].phase == Reserved
    case GiveUp(c, _) => c < |w.clients| && w.clients[c].phase == Reserved
    case SettleCompleted(c, _, _) => c < |w.clients| && w.clients[c].phase == Called
    case SettleUnknown(c, _) => c < |w.clients| && w.clients[c].phase == Called
    case _ => true
  }

  function SetPhase(w: World, c: nat, phase: Phase): World
    requires c < |w.clients|
  {
    w.(clients := w.clients[c := w.clients[c].(phase := phase)])
  }

  function Next(w: World, s: Step): World
    requires Enabled(w, s)
  {
    match s
    case Begin(p, now, owner, id) =>
      var (l, r) := Reserve(w.ledger, p, now, owner, id);
      if r.Err? then w
      else w.(ledger := l, clients := w.clients + [Client(r.value, w.epoch, Reserved)], tokens := w.tokens + {owner, id})
    case CallProvider(c) => SetPhase(w, c, Called).(calls := w.calls + [c])
    case GiveUp(c, now) => SetPhase(w, c, GivenUp).(ledger := Release(w.ledger, w.clients[c].reservation, now).0)
    case SettleCompleted(c, runId, now) =>
      SetPhase(w, c, Settled).(ledger := Complete(w.ledger, w.clients[c].reservation, runId, now).0)
    case SettleUnknown(c, now) =>
      SetPhase(w, c, Settled).(ledger := MarkUnknown(w.ledger, w.clients[c].reservation, now).0)
    case RecordRequest(letter, now) => w.(ledger := Record(w.ledger, letter, now))
    case ChangeEvents(events) => w.(ledger := w.ledger.(events := events))
    case Reset => w.(ledger := Ledger(map[], map[], []), epoch := w.epoch + 1, stale := w.tokens)
  }

  const INITIAL := World(Ledger(map[], map[], []), 0, [], [], {}, {})

  /** The world after a run from the empty store, if each of its steps was possible. */
  function After(run: seq<Step>): Option<World> {
    if |run| == 0 then Some(INITIAL)
    else
      var w :- After(run[..|run| - 1]);
      if Enabled(w, run[|run| - 1]) then Some(Next(w, run[|run| - 1])) else None
  }

  // ----- The invariant -----

  predicate Active(s: ExecutionState) {
    s == Dispatching || s == Completed || s == OutcomeUnknown
  }

  /** A reservation that owns its operation and its consumed row. */
  predicate Holds(l: Ledger, r: Reservation, settled: bool) {
    Owns(l, r) && Active(l.executions[r.key].state) &&
    (!settled ==> l.executions[r.key].state == Dispatching) &&
    l.rows[r.id].state == Consumed && l.rows[r.id].operationKey == r.key && l.rows[r.id].day == r.day
  }

  predicate Live(w: World, client: Client) {
    client.epoch == w.epoch
  }

  /** Since the last reset, whoever has not given up holds its reservation. */
  predicate HoldersHold(w: World) {
    forall c :: 0 <= c < |w.clients| && Live(w, w.clients[c]) && w.clients[c].phase != GivenUp ==>
      Holds(w.ledger, w.clients[c].reservation, w.clients[c].phase == Settled)
  }

  predicate TokenOf(w: World, client: Client) {
    client.reservation.owner in w.tokens && client.reservation.id in w.tokens && client.epoch <= w.epoch &&
    (!Live(w, client) ==> client.reservation.id in w.stale)
  }

  /** Tokens are told apart, and no row outlives a reset. */
  predicate TokensKnown(w: World) {
    w.stale <= w.tokens &&
    (forall c :: 0 <= c < |w.clients| ==> TokenOf(w, w.clients[c])) &&
    (forall c, d :: 0 <= c < d < |w.clients| ==>
      w.clients[c].reservation.owner != w.clients[d].reservation.owner &&
      w.clients[c].reservation.id != w.clients[d].reservation.id) &&
    (forall id :: id in w.ledger.rows ==> id in w.tokens && id !in w.stale)
  }

  predicate CallsMatch(w: World) {
    (forall j :: 0 <= j < |w.calls| ==>
      w.calls[j] < |w.clients| && (w.clients[w.calls[j]].phase == Called || w.clients[w.calls[j]].phase == Settled)) &&
    (forall i, j :: 0 <= i < j < |w.calls| ==> w.calls[i] != w.calls[j])
  }

  /** Of two reservations of one key between two resets, one was given up before any call. */
  predicate OneHolder(w: World) {
    forall c, d :: 0 <= c < d < |w.clients| ==> !Rivals(w.clients[c], w.clients[d])
  }

  predicate Rivals(a: Client, b: Client) {
    a.reservation.key == b.reservation.key && a.epoch == b.epoch && a.phase != GivenUp && b.phase != GivenUp
  }

  predicate Invariant(w: World) {
    HoldersHold(w) && TokensKnown(w) && CallsMatch(w) && OneHolder(w)
  }

  // ----- The invariant is kept -----

  lemma ReserveHolds(l: Ledger, p: Params, now: int, owner: Id, id: Id, r: Reservation, settled: bool)
    requires Reserve(l, p, now, owner, id).1.Ok? && Holds(l, r, settled) && r.id != id
    ensures Holds(Reserve(l, p, now, owner, id).0, r, settled) && r.key != p.key
  {
    hide Used;
    GrantedExactlyWhenFree(l, p, now, owner, id);
  }

  lemma NewHolds(l: Ledger, p: Params, now: int, owner: Id, id: Id)
    requires Reserve(l, p, now, owner, id).1.Ok?
    ensures var (l', r) := Reserve(l, p, now, owner, id);
      Holds(l', r.value, false) && l'.rows == l.rows[id := l'.rows[id]] &&
      r.value.id == id && r.value.owner == owner && r.value.key == p.key
  {
    hide Used;
  }

  lemma BeginKeeps(w: World, s: Step)
    requires Invariant(w) && Enabled(w, s) && s.Begin?
    ensures Invariant(Next(w, s))
  {
    hide Reserve, Holds;
    var w' := Next(w, s);
    var (l', r) := Reserve(w.ledger, s.p, s.now, s.owner, s.id);
    if r.Ok? {
      NewHolds(w.ledger, s.p, s.now, s.owner, s.id);
      forall c | 0 <= c < |w.clients| && Live(w, w.clients[c]) && w.clients[c].phase != GivenUp
        ensures Holds(l', w.clients[c].reservation, w.clients[c].phase == Settled)
        ensures w.clients[c].reservation.key != s.p.key
      {
        assert TokenOf(w, w.clients[c]);
        ReserveHolds(w.ledger, s.p, s.now, s.owner, s.id, w.clients[c].reservation, w.clients[c].phase == Settled);
      }
    }
  }

  /** A reservation from before a reset can change nothing any more. */
  lemma StaleReservation(w: World, c: nat)
    requires TokensKnown(w) && c < |w.clients| && !Live(w, w.clients[c])
    ensures !Owns(w.ledger, w.clients[c].reservation)
  {
    assert TokenOf(w, w.clients[c]);
  }

  /** What a client's transaction may do: change its own execution's state and its own row. */
  predicate TouchesOnly(l: Ledger, l': Ledger, r: Reservation) {
    Owns(l, r) && Owns(l', r) &&
    l'.executions == l.executions[r.key := l'.executions[r.key]] &&
    l'.executions[r.key].attemptCount == l.executions[r.key].attemptCount &&
    l'.rows == l.rows[r.id := l'.rows[r.id]] &&
    l'.rows[r.id].operationKey == l.rows[r.id].operationKey && l'.rows[r.id].day == l.rows[r.id].day &&
    l'.rows[r.id].attemptNumber == l.rows[r.id].attemptNumber
  }

  /** The ledger after a client's transaction, and the phase it leaves. */
  function Transaction(w: World, s: Step): (Ledger, Phase)
    requires Enabled(w, s) && (s.GiveUp? || s.SettleCompleted? || s.SettleUnknown?)
  {
    var r := w.clients[s.client].reservation;
    match s
    case GiveUp(_, now) => (Release(w.ledger, r, now).0, GivenUp)
    case SettleCompleted(_, runId, now) => (Complete(w.ledger, r, runId, now).0, Settled)
    case SettleUnknown(_, now) => (MarkUnknown(w.ledger, r, now).0, Settled)
  }

  lemma TransactionEffect(w: World, s: Step)
    requires Invariant(w) && Enabled(w, s) && (s.GiveUp? || s.SettleCompleted? || s.SettleUnknown?)
    ensures var (l', phase) := Transaction(w, s); var client := w.clients[s.client];
      Next(w, s) == SetPhase(w, s.client, phase).(ledger := l') &&
      if Live(w, client) then
        TouchesOnly(w.ledger, l', client.reservation) && Holds(w.ledger, client.reservation, false) &&
        if phase == GivenUp then
          l'.executions[client.reservation.key].state == FailedBeforeDispatch &&
          l'.rows[client.reservation.id].state == Released
        else Holds(l', client.reservation, true)
      else l' == w.ledger
    ensures var phase := Transaction(w, s).1;
      if w.clients[s.client].phase == Called then phase == Settled
      else w.clients[s.client].phase == Reserved && (phase == GivenUp || phase == Settled)
  {
    hide OneHolder;
    if !Live(w, w.clients[s.client]) {
      StaleReservation(w, s.client);
    }
  }

  lemma OthersHold(l: Ledger, l': Ledger, r: Reservation, other: Reservation, settled: bool)
    requires TouchesOnly(l, l', r) && Holds(l, other, settled) && other.owner != r.owner && other.id != r.id
    ensures Holds(l', other, settled)
  {
  }

  lemma TransactionKeepsHolders(w: World, s: Step)
    requires Invariant(w) && Enabled(w, s) && (s.GiveUp? || s.SettleCompleted? || s.SettleUnknown?)
    ensures HoldersHold(Next(w, s))
  {
    hide Next, Transaction, Holds, TouchesOnly, OneHolder;
    var (l', phase) := Transaction(w, s);
    TransactionEffect(w, s);
    var w' := Next(w, s);
    forall d | 0 <= d < |w'.clients| && Live(w', w'.clients[d]) && w'.clients[d].phase != GivenUp
      ensures Holds(l', w'.clients[d].reservation, w'.clients[d].phase == Settled)
    {
      if d != s.client && Live(w, w.clients[s.client]) {
        OthersHold(w.ledger, l', w.clients[s.client].reservation, w.clients[d].reservation, w.clients[d].phase == Settled);
      }
    }
  }

  lemma PhaseChangeKeeps(w: World, w': World, c: nat, phase: Phase)
    requires TokensKnown(w) && OneHolder(w) && CallsMatch(w) && c < |w.clients| && w.clients[c].phase != GivenUp
    requires w' == SetPhase(w, c, phase).(ledger := w'.ledger)
    requires w'.ledger.rows.Keys == w.ledger.rows.Keys
    requires w.clients[c].phase != Reserved ==> phase == Called || phase == Settled
    ensures TokensKnown(w') && OneHolder(w') && CallsMatch(w')
  {
    forall d | 0 <= d < |w'.clients| ensures TokenOf(w', w'.clients[d]) {
      assert TokenOf(w, w.clients[d]);
    }
    forall a, b | 0 <= a < b < |w'.clients| ensures !Rivals(w'.clients[a], w'.clients[b]) {
      assert !Rivals(w.clients[a], w.clients[b]);
    }
  }

  lemma TransactionKeeps(w: World, s: Step)
    requires Invariant(w) && Enabled(w, s) && (s.GiveUp? || s.SettleCompleted? || s.SettleUnknown?)
    ensures Invariant(Next(w, s))
  {
    hide Next, Transaction, Holds, HoldersHold, TokensKnown, OneHolder, CallsMatch;
    TransactionKeepsHolders(w, s);
    TransactionEffect(w, s);
    var (l', phase) := Transaction(w, s);
    assert l'.rows.Keys == w.ledger.rows.Keys;
    PhaseChangeKeeps(w, Next(w, s), s.client, phase);
  }

  lemma CallKeeps(w: World, c: nat)
    requires Invariant(w) && Enabled(w, CallProvider(c))
    ensures Invariant(Next(w, CallProvider(c)))
  {
    hide Holds;
    var w' := Next(w, CallProvider(c));
    forall d | 0 <= d < |w'.clients| ensures TokenOf(w', w'.clients[d]) {
      assert TokenOf(w, w.clients[d]);
    }
    forall a, b | 0 <= a < b < |w'.clients| ensures !Rivals(w'.clients[a], w'.clients[b]) {
      assert !Rivals(w.clients[a], w.clients[b]);
    }
  }

  lemma ResetKeeps(w: World)
    requires Invariant(w)
    ensures Invariant(Next(w, Reset))
  {
    hide Holds;
    var w' := Next(w, Reset);
    forall d | 0 <= d < |w'.clients| ensures TokenOf(w', w'.clients[d]) && !Live(w', w'.clients[d]) {
      assert TokenOf(w, w.clients[d]);
    }
  }

  lemma EventKeeps(w: World, s: Step)
    requires Invariant(w) && (s.RecordRequest? || s.ChangeEvents?)
    ensures Invariant(Next(w, s))
  {
    var w' := Next(w, s);
    forall d | 0 <= d < |w'.clients| ensures TokenOf(w', w'.clients[d]) {
      assert TokenOf(w, w.clients[d]);
    }
  }

  lemma StepKeeps(w: World, s: Step)
    requires Invariant(w) && Enabled(w, s)
    ensures Invariant(Next(w, s))
  {
    hide Next, Invariant;
    match s
    case Begin(_, _, _, _) => BeginKeeps(w, s);
    case CallProvider(c) => CallKeeps(w, c);
    case RecordRequest(_, _) => EventKeeps(w, s);
    case ChangeEvents(_) => EventKeeps(w, s);
    case Reset => ResetKeeps(w);
    case _ => TransactionKeeps(w, s);
  }

  lemma {:induction false} EveryRunKeeps(run: seq<Step>)
    requires After(run).Some?
    ensures Invariant(After(run).value)
  {
    hide Next, Invariant;
    if |run| > 0 {
      EveryRunKeeps(run[..|run| - 1]);
      StepKeeps(After(run[..|run| - 1]).value, run[|run| - 1]);
    } else {
      EmptyWorld();
    }
  }

  lemma EmptyWorld()
    ensures Invariant(INITIAL)
  {
  }

  // ----- At most one call per operation -----

  /**
   * However clients interleave and crash, two calls for one operation key carry
   * reservations from different sides of a reset.
   */
  lemma AtMostOneCallPerOperation(run: seq<Step>, i: nat, j: nat)
    requires After(run).Some? && i < j < |After(run).value.calls|
    ensures var w := After(run).value;
      w.calls[i] < |w.clients| && w.calls[j] < |w.clients| &&
      (w.clients[w.calls[i]].reservation.key == w.clients[w.calls[j]].reservation.key ==>
        w.clients[w.calls[i]].epoch != w.clients[w.calls[j]].epoch)
  {
    hide After;
    EveryRunKeeps(run);
    hide HoldersHold, TokensKnown;
    var w := After(run).value;
    assert w.calls[i] != w.calls[j];
    assert !Rivals(w.clients[w.calls[i]], w.clients[w.calls[j]]) || !Rivals(w.clients[w.calls[j]], w.clients[w.calls[i]]);
  }

  // ----- Resets that look first -----

  /** The states that block a Standalone reset. */
  predicate Unsafe(s: ExecutionState) {
    s == Claimed || s == Dispatching || s == Repairing || s == OutcomeUnknown
  }

  predicate SafeToReset(l: Ledger) {
    forall key :: key in l.executions ==> !Unsafe(l.executions[key].state)
  }

  /** Every reset of the run found no unsafe execution. */
  predicate Guarded(run: seq<Step>)
    requires After(run).Some?
  {
    |run| > 0 ==>
      Guarded(run[..|run| - 1]) && (run[|run| - 1].Reset? ==> SafeToReset(After(run[..|run| - 1]).value.ledger))
  }

  predicate Finished(w: World, client: Client) {
    !Live(w, client) ==> client.phase == Settled || client.phase == GivenUp
  }

  predicate AllFinished(w: World) {
    forall c :: 0 <= c < |w.clients| ==> Finished(w, w.clients[c])
  }

  lemma FinishedKept(w: World, s: Step)
    requires Invariant(w) && AllFinished(w) && Enabled(w, s) && (s.Reset? ==> SafeToReset(w.ledger))
    ensures AllFinished(Next(w, s))
  {
    hide Reserve, Release, Complete, MarkUnknown, TokensKnown, OneHolder, CallsMatch;
    var w' := Next(w, s);
    forall c | 0 <= c < |w'.clients| ensures Finished(w', w'.clients[c]) {
      if c < |w.clients| {
        assert Finished(w, w.clients[c]);
        if s.Reset? && Live(w, w.clients[c]) && w.clients[c].phase != GivenUp {
          assert Holds(w.ledger, w.clients[c].reservation, w.clients[c].phase == Settled);
        }
      }
    }
  }

  /** Guarded resets forget no request: whoever is from before one has settled or given up. */
  lemma {:induction false} GuardedResetsForgetNothing(run: seq<Step>)
    requires After(run).Some? && Guarded(run)
    ensures AllFinished(After(run).value)
  {
    hide Next, Invariant, SafeToReset, AllFinished;
    if |run| > 0 {
      GuardedResetsForgetNothing(run[..|run| - 1]);
      EveryRunKeeps(run[..|run| - 1]);
      FinishedKept(After(run[..|run| - 1]).value, run[|run| - 1]);
    } else {
      NoClients();
    }
  }

  lemma NoClients()
    ensures AllFinished(INITIAL)
  {
  }

  lemma {:induction false} GuardedPrefix(run: seq<Step>, k: nat)
    requires After(run).Some? && Guarded(run) && k <= |run|
    ensures After(run[..k]).Some? && Guarded(run[..k])
  {
    hide Next, Enabled;
    if k == |run| {
      assert run[..k] == run;
    } else {
      GuardedPrefix(run[..|run| - 1], k);
      assert run[..|run| - 1][..k] == run[..k];
    }
  }

  // ----- When a reset separates calls -----

  lemma {:induction false} Prefix(run: seq<Step>, k: nat)
    requires After(run).Some? && k <= |run|
    ensures After(run[..k]).Some?
  {
    hide Next, Enabled;
    if k == |run| {
      assert run[..k] == run;
    } else {
      Prefix(run[..|run| - 1], k);
      assert run[..|run| - 1][..k] == run[..k];
    }
  }

  /** The longer run goes on without a reset. */
  predicate GoesOn(run: seq<Step>, longer: seq<Step>) {
    run <= longer && forall i :: |run| <= i < |longer| ==> !longer[i].Reset?
  }

  /** The steps `m` and `n` call the provider for one operation key. */
  predicate TwoCallsAt(run: seq<Step>, m: nat, n: nat) {
    m < n < |run| && run[m].CallProvider? && run[n].CallProvider? && After(run[..n]).Some? &&
    var w := After(run[..n]).value; var c, d := run[m].client, run[n].client;
    c < |w.clients| && d < |w.clients| && w.clients[c].reservation.key == w.clients[d].reservation.key
  }

  /** The run goes on, without a reset, to two calls for one operation key. */
  predicate TwoCalls(run: seq<Step>, longer: seq<Step>) {
    GoesOn(run, longer) && After(longer).Some? && exists m, n :: |run| <= m < n < |longer| && TwoCallsAt(longer, m, n)
  }

  predicate NoneReserved(w: World) {
    forall c :: 0 <= c < |w.clients| ==> w.clients[c].phase != Reserved
  }

  /** The first `n` clients will not call, and the others are of this side of the last reset. */
  predicate OnlyLaterCall(w: World, n: nat) {
    n <= |w.clients| && (forall c :: 0 <= c < n ==> w.clients[c].phase != Reserved) &&
    forall c :: n <= c < |w.clients| ==> Live(w, w.clients[c])
  }

  lemma OnlyLaterCallKept(w: World, s: Step, n: nat)
    requires Enabled(w, s) && OnlyLaterCall(w, n) && !s.Reset?
    ensures OnlyLaterCall(Next(w, s), n)
  {
    hide Reserve, Release, Complete, MarkUnknown;
  }

  lemma {:induction false} LaterCallsOnly(run: seq<Step>, longer: seq<Step>)
    requires After(run).Some? && NoneReserved(After(run).value) && GoesOn(run, longer) && After(longer).Some?
    ensures OnlyLaterCall(After(longer).value, |After(run).value.clients|)
  {
    hide Next, Enabled;
    if |longer| == |run| {
      assert longer == run;
    } else {
      LaterCallsOnly(run, longer[..|longer| - 1]);
      OnlyLaterCallKept(After(longer[..|longer| - 1]).value, longer[|longer| - 1], |After(run).value.clients|);
    }
  }

  /** A client that called stays among the calls. */
  lemma {:induction false} CallRemembered(run: seq<Step>, m: nat)
    requires After(run).Some? && m < |run| && run[m].CallProvider?
    ensures run[m].client in After(run).value.calls
  {
    var w, s := After(run[..|run| - 1]).value, run[|run| - 1];
    if m < |run| - 1 {
      CallRemembered(run[..|run| - 1], m);
      CallsGrow(w, s);
    } else {
      assert Next(w, s).calls[|w.calls|] == s.client;
    }
  }

  lemma CallsGrow(w: World, s: Step)
    requires Enabled(w, s)
    ensures w.calls <= Next(w, s).calls
  {
  }

  lemma StepWasEnabled(run: seq<Step>, k: nat)
    requires After(run).Some? && k < |run|
    ensures After(run[..k]).Some? && Enabled(After(run[..k]).value, run[k])
  {
    hide Next, Enabled;
    Prefix(run, k);
    Prefix(run, k + 1);
    assert run[..k + 1][..k] == run[..k];
  }

  /** If nobody holds an uncalled reservation, calls for one key do not repeat before a reset. */
  lemma NoSecondCall(run: seq<Step>, longer: seq<Step>, m: nat, n: nat)
    requires After(run).Some? && NoneReserved(After(run).value) && GoesOn(run, longer) && After(longer).Some?
    requires |run| <= m < n < |longer|
    ensures !TwoCallsAt(longer, m, n)
  {
    hide Next, NoneReserved, After;
    StepWasEnabled(longer, m);
    StepWasEnabled(longer, n);
    if TwoCallsAt(longer, m, n) {
      LaterCallsOnly(run, longer[..n]);
      LaterCallsOnly(run, longer[..m]);
      CallRemembered(longer[..n], m);
      EveryRunKeeps(longer[..n]);
      hide Invariant;
      DifferentHolders(After(longer[..n]).value, longer[m].client, longer[n].client, |After(run).value.clients|);
    }
  }

  lemma DifferentHolders(w: World, c: nat, d: nat, n: nat)
    requires Invariant(w) && OnlyLaterCall(w, n) && c in w.calls && c >= n && Enabled(w, CallProvider(d))
    ensures c < |w.clients| && w.clients[c].reservation.key != w.clients[d].reservation.key
  {
    hide HoldersHold, TokensKnown;
    var j :| 0 <= j < |w.calls| && w.calls[j] == c;
    assert !Rivals(w.clients[c], w.clients[d]) || !Rivals(w.clients[d], w.clients[c]);
  }

  lemma Extend(run: seq<Step>, w: World, s: Step) returns (longer: seq<Step>, w': World)
    requires After(run) == Some(w) && Enabled(w, s)
    ensures longer == run + [s] && w' == Next(w, s) && After(longer) == Some(w')
  {
    longer, w' := run + [s], Next(w, s);
    assert longer[..|run|] == run;
  }

  /** A request that an empty ledger grants. */
  function AnyRequest(key: Key): Params {
    Params(key, CoverLetterOperation, [], [], [], 1.0)
  }

  lemma EmptyLedgerGrants(key: Key, owner: Id, id: Id)
    ensures Reserve(Ledger(map[], map[], []), AnyRequest(key), 0, owner, id).1.Ok?
  {
    assert ConsumedOn(map[], Day(0)) == {};
    GrantedExactlyWhenFree(Ledger(map[], map[], []), AnyRequest(key), 0, owner, id);
  }

  /**
   * A client that holds an uncalled reservation still calls after a reset, and so does
   * another one that reserves the same operation anew.
   */
  lemma CallsFollowAReset(run: seq<Step>, c: nat) returns (longer: seq<Step>)
    requires After(run).Some? && c < |After(run).value.clients| && After(run).value.clients[c].phase == Reserved
    ensures TwoCalls(run + [Reset], longer)
  {
    hide After, Limit, Used;
    var w := After(run).value;
    var key := w.clients[c].reservation.key;
    var owner := FreshText(w.tokens);
    var id := FreshText(w.tokens + {owner});
    EmptyLedgerGrants(key, owner, id);
    var d := |w.clients|;
    longer, w := Extend(run, w, Reset);
    longer, w := Extend(longer, w, Begin(AnyRequest(key), 0, owner, id));
    longer, w := Extend(longer, w, CallProvider(c));
    var before := longer;
    longer, w := Extend(longer, w, CallProvider(d));
    assert longer[..|run| + 3] == before;
    assert TwoCallsAt(longer, |run| + 2, |run| + 3);
  }

  /**
   * After a reset, calls for one operation key do not repeat, however the run goes on to
   * the next reset, exactly if the reset finds nobody with an uncalled reservation.
   */
  lemma ResetSeparatesCallsExactly(run: seq<Step>)
    requires After(run).Some?
    ensures NoneReserved(After(run).value) <==> forall longer: seq<Step> :: !TwoCalls(run + [Reset], longer)
  {
    var w := After(run).value;
    assert (run + [Reset])[..|run|] == run;
    hide TwoCalls, TwoCallsAt, GoesOn;
    if NoneReserved(w) {
      forall longer: seq<Step> ensures !TwoCalls(run + [Reset], longer) {
        CannotCallTwice(run + [Reset], longer);
      }
    } else {
      var c :| 0 <= c < |w.clients| && w.clients[c].phase == Reserved;
      var longer := CallsFollowAReset(run, c);
    }
  }

  lemma CannotCallTwice(run: seq<Step>, longer: seq<Step>)
    requires After(run).Some? && NoneReserved(After(run).value)
    ensures !TwoCalls(run, longer)
  {
    hide After, NoneReserved;
    if TwoCalls(run, longer) {
      var m, n :| |run| <= m < n < |longer| && TwoCallsAt(longer, m, n);
      NoSecondCall(run, longer, m, n);
    }
  }

  /** A reset that finds no unsafe execution, in a guarded run, finds nobody with an uncalled reservation. */
  lemma SafeMeansNoneReserved(w: World)
    requires Invariant(w) && AllFinished(w) && SafeToReset(w.ledger)
    ensures NoneReserved(w)
  {
    hide TokensKnown, OneHolder, CallsMatch;
    forall c | 0 <= c < |w.clients| ensures w.clients[c].phase != Reserved {
      assert Finished(w, w.clients[c]);
      if Live(w, w.clients[c]) && w.clients[c].phase != GivenUp {
        assert Holds(w.ledger, w.clients[c].reservation, w.clients[c].phase == Settled);
      }
    }
  }

  /** The steps up to the last reset before `m`. */
  function LastReset(run: seq<Step>, m: nat): (k: nat)
    requires m <= |run|
    ensures k <= m && (k > 0 ==> run[k - 1].Reset?) && forall r :: k <= r < m ==> !run[r].Reset?
  {
    if m == 0 || run[m - 1].Reset? then m else LastReset(run, m - 1)
  }

  /** In a guarded run, between two calls for one operation key there is a reset. */
  lemma ResetBetweenCalls(run: seq<Step>, m: nat, n: nat)
    requires After(run).Some? && Guarded(run) && TwoCallsAt(run, m, n)
    ensures exists r :: m < r < n && run[r].Reset?
  {
    hide TwoCallsAt, Invariant, SafeToReset, AllFinished, Next, Enabled;
    CallsAreNoResets(run, m, n);
    if forall r :: m < r < n ==> !run[r].Reset? {
      var k := LastReset(run, m);
      var longer := run[..n + 1];
      Prefix(run, n + 1);
      GuardedPrefix(run, k);
      assert longer[..n] == run[..n] && run[..k] <= longer;
      assert TwoCallsAt(longer, m, n) by { SameCalls(run, longer, m, n); }
      if k == 0 {
        NobodyYet(run[..0]);
      } else {
        GuardedPrefix(run, k - 1);
        assert run[..k][..k - 1] == run[..k - 1];
        EveryRunKeeps(run[..k - 1]);
        GuardedResetsForgetNothing(run[..k - 1]);
        AfterSafeReset(run[..k]);
      }
      NoSecondCall(run[..k], longer, m, n);
    }
  }

  lemma CallsAreNoResets(run: seq<Step>, m: nat, n: nat)
    requires TwoCallsAt(run, m, n)
    ensures m < n < |run| && !run[m].Reset? && !run[n].Reset?
  {
  }

  lemma SameCalls(run: seq<Step>, longer: seq<Step>, m: nat, n: nat)
    requires TwoCallsAt(run, m, n) && n < |longer| && longer <= run && longer[..n] == run[..n]
    ensures TwoCallsAt(longer, m, n)
  {
    hide After;
  }

  lemma NobodyYet(run: seq<Step>)
    requires run == []
    ensures After(run).Some? && NoneReserved(After(run).value)
  {
  }

  lemma AfterSafeReset(run: seq<Step>)
    requires After(run).Some? && Guarded(run) && |run| > 0 && run[|run| - 1].Reset?
    requires Invariant(After(run[..|run| - 1]).value) && AllFinished(After(run[..|run| - 1]).value)
    ensures NoneReserved(After(run).value)
  {
    hide Invariant, AllFinished, SafeToReset, Reserve, Release, Complete, MarkUnknown, Enabled;
    SafeMeansNoneReserved(After(run[..|run| - 1]).value);
  }
}
