/**
 * The steps of one generation in a ledger run: reserve, call, settle, record. A settled
 * operation is final until a reset, whatever other clients do.
 */
module ExecutionRun {
  import opened JsText
  import opened AiLedger
  import opened LedgerRun

  /** An execution that called the provider: where its reservation step stands, and what it came to. */
  datatype Made = Made(at: nat, client: nat, reservation: Reservation, state: ExecutionState)

  /** The operation is in this final state, under the plan of the reservation, and its row is charged. */
  predicate Closed(l: Ledger, r: Reservation, state: ExecutionState) {
    (state == Completed || state == OutcomeUnknown) &&
    r.key in l.executions && r.id in l.rows &&
    var e := l.executions[r.key];
    e.state == state && e.owner == r.owner &&
    e.planHash == r.planHash && e.provider == r.provider && e.model == r.model && e.kind == r.kind &&
    l.rows[r.id].state == Consumed && l.rows[r.id].operationKey == r.key && l.rows[r.id].day == r.day
  }

  // ----- A settled operation is final -----

  lemma ReserveLeavesClosed(l: Ledger, p: Params, now: int, owner: Id, id: Id, r: Reservation, state: ExecutionState)
    requires Closed(l, r, state) && r.id != id
    ensures Closed(Reserve(l, p, now, owner, id).0, r, state)
  {
    hide Used;
    GrantedExactlyWhenFree(l, p, now, owner, id);
  }

  lemma OthersLeaveClosed(l: Ledger, l': Ledger, other: Reservation, r: Reservation, state: ExecutionState)
    requires TouchesOnly(l, l', other) && Closed(l, r, state) && other.owner != r.owner && other.id != r.id
    ensures Closed(l', r, state)
  {
  }

  lemma TransactionLeavesClosed(w: World, s: Step, c: nat, state: ExecutionState)
    requires Invariant(w) && Enabled(w, s) && (s.GiveUp? || s.SettleCompleted? || s.SettleUnknown?)
    requires c < |w.clients| && w.clients[c].phase == Settled && Closed(w.ledger, w.clients[c].reservation, state)
    ensures Closed(Next(w, s).ledger, w.clients[c].reservation, state)
  {
    hide HoldersHold, OneHolder, CallsMatch, Closed, TouchesOnly, Holds;
    assert TokensKnown(w);
    TransactionEffect(w, s);
    hide Transaction, Next, Invariant;
    if Live(w, w.clients[s.client]) {
      OthersLeaveClosed(w.ledger, Next(w, s).ledger, w.clients[s.client].reservation, w.clients[c].reservation, state);
    }
  }

  lemma SettledStays(w: World, s: Step, c: nat, state: ExecutionState)
    requires Invariant(w) && Enabled(w, s) && !s.Reset?
    requires c < |w.clients| && w.clients[c].phase == Settled && Closed(w.ledger, w.clients[c].reservation, state)
    ensures Closed(Next(w, s).ledger, w.clients[c].reservation, state)
  {
    hide HoldersHold, OneHolder, CallsMatch, Closed, Reserve, Release, Complete, MarkUnknown;
    var r := w.clients[c].reservation;
    assert TokenOf(w, w.clients[c]);
    match s
    case Begin(p, now, owner, id) => ReserveLeavesClosed(w.ledger, p, now, owner, id, r, state);
    case CallProvider(_) =>
    case RecordRequest(_, _) => EventsLeaveClosed(w.ledger, Next(w, s).ledger, r, state);
    case ChangeEvents(_) => EventsLeaveClosed(w.ledger, Next(w, s).ledger, r, state);
    case GiveUp(_, _) => TransactionLeavesClosed(w, s, c, state);
    case SettleCompleted(_, _, _) => TransactionLeavesClosed(w, s, c, state);
    case SettleUnknown(_, _) => TransactionLeavesClosed(w, s, c, state);
  }

  lemma EventsLeaveClosed(l: Ledger, l': Ledger, r: Reservation, state: ExecutionState)
    requires Closed(l, r, state) && l'.executions == l.executions && l'.rows == l.rows
    ensures Closed(l', r, state)
  {
  }

  lemma ClientStays(w: World, s: Step, c: nat)
    requires Enabled(w, s) && c < |w.clients| && w.clients[c].phase == Settled
    ensures c < |Next(w, s).clients| && Next(w, s).clients[c] == w.clients[c]
    ensures w.calls <= Next(w, s).calls && w.epoch <= Next(w, s).epoch
    ensures Next(w, s).epoch == w.epoch + if s.Reset? then 1 else 0
  {
    hide Reserve, Release, Complete, MarkUnknown;
  }

  /** However a run goes on without a reset, a settled operation stays as it was settled. */
  lemma {:induction false} SettledForGood(run: seq<Step>, longer: seq<Step>, c: nat, state: ExecutionState)
    requires After(run).Some? && GoesOn(run, longer) && After(longer).Some? && c < |After(run).value.clients|
    requires After(run).value.clients[c].phase == Settled
    requires Closed(After(run).value.ledger, After(run).value.clients[c].reservation, state)
    ensures c < |After(longer).value.clients| && After(longer).value.clients[c] == After(run).value.clients[c]
    ensures Closed(After(longer).value.ledger, After(run).value.clients[c].reservation, state)
  {
    hide Next, Enabled, Closed, Invariant;
    if |longer| == |run| {
      assert longer == run;
    } else {
      var before := longer[..|longer| - 1];
      SettledForGood(run, before, c, state);
      EveryRunKeeps(before);
      ClientStays(After(before).value, longer[|longer| - 1], c);
      SettledStays(After(before).value, longer[|longer| - 1], c, state);
    }
  }

  // ----- Resets and epochs -----

  function Resets(run: seq<Step>): nat {
    if |run| == 0 then 0 else Resets(run[..|run| - 1]) + if run[|run| - 1].Reset? then 1 else 0
  }

  lemma {:induction false} EpochCountsResets(run: seq<Step>)
    requires After(run).Some?
    ensures After(run).value.epoch == Resets(run)
  {
    hide Reserve, Release, Complete, MarkUnknown, Enabled;
    if |run| > 0 {
      EpochCountsResets(run[..|run| - 1]);
    }
  }

  lemma {:induction false} ResetLiesBetween(run: seq<Step>, m: nat, n: nat)
    requires m <= n <= |run| && Resets(run[..m]) != Resets(run[..n])
    ensures exists r :: m <= r < n && run[r].Reset?
  {
    assert run[..n][..n - 1] == run[..n - 1];
    if !run[n - 1].Reset? {
      ResetLiesBetween(run, m, n - 1);
    }
  }

  // ----- The executions of a run -----

  /** The execution stands in the run, has settled, and since the last reset nobody has undone it. */
  predicate MadeIn(run: seq<Step>, m: Made)
    requires After(run).Some?
  {
    var w := After(run).value;
    m.at + 1 < |run| && run[m.at].Begin? && run[m.at + 1] == CallProvider(m.client) &&
    m.client < |w.clients| && w.clients[m.client] == Client(m.reservation, Resets(run[..m.at]), Settled) &&
    m.client in w.calls &&
    (Live(w, w.clients[m.client]) ==> Closed(w.ledger, m.reservation, m.state))
  }

  predicate Earlier(a: Made, b: Made) {
    a.at + 1 < b.at && a.client < b.client
  }

  predicate Records(run: seq<Step>, made: seq<Made>)
    requires After(run).Some?
  {
    (forall i :: 0 <= i < |made| ==> MadeIn(run, made[i])) &&
    (forall i, j :: 0 <= i < j < |made| ==> Earlier(made[i], made[j]))
  }

  lemma MadeStays(run: seq<Step>, s: Step, m: Made)
    requires After(run).Some? && MadeIn(run, m) && Enabled(After(run).value, s)
    ensures After(run + [s]).Some? && MadeIn(run + [s], m)
  {
    hide Next, Enabled, Closed, Invariant, Resets;
    var w := After(run).value;
    var longer, w' := Extend(run, w, s);
    EveryRunKeeps(run);
    ClientStays(w, s, m.client);
    assert longer[..m.at] == run[..m.at];
    if Live(w', w'.clients[m.client]) {
      EpochsRise(run, m);
      SettledStays(w, s, m.client, m.state);
    }
  }

  /** A client's reservation is not from a later epoch. */
  lemma EpochsRise(run: seq<Step>, m: Made)
    requires After(run).Some? && MadeIn(run, m)
    ensures After(run).value.clients[m.client].epoch <= After(run).value.epoch
  {
    hide After, Closed;
    EveryRunKeeps(run);
    var w := After(run).value;
    assert TokenOf(w, w.clients[m.client]);
  }

  /** Any further step of anybody leaves the executions as recorded. */
  lemma StepRecords(run: seq<Step>, made: seq<Made>, s: Step)
    requires After(run).Some? && Records(run, made) && Enabled(After(run).value, s)
    ensures After(run + [s]) == Some(Next(After(run).value, s)) && Records(run + [s], made)
  {
    hide Next, Enabled, MadeIn;
    var longer, w' := Extend(run, After(run).value, s);
    forall i | 0 <= i < |made| ensures MadeIn(longer, made[i]) {
      MadeStays(run, s, made[i]);
    }
  }

  /** Between two executions that called the provider for one operation key lies a reset. */
  lemma ResetBetweenExecutions(run: seq<Step>, made: seq<Made>, i: nat, j: nat)
    requires After(run).Some? && Records(run, made) && i < j < |made|
    requires made[i].reservation.key == made[j].reservation.key
    ensures exists r :: made[i].at + 1 < r < made[j].at && run[r].Reset?
  {
    hide After, Closed, Resets;
    var w := After(run).value;
    assert MadeIn(run, made[i]) && MadeIn(run, made[j]) && Earlier(made[i], made[j]);
    var x :| 0 <= x < |w.calls| && w.calls[x] == made[i].client;
    var y :| 0 <= y < |w.calls| && w.calls[y] == made[j].client;
    if x < y {
      AtMostOneCallPerOperation(run, x, y);
    } else {
      AtMostOneCallPerOperation(run, y, x);
    }
    ResetLiesBetween(run, made[i].at, made[j].at);
    var r :| made[i].at <= r < made[j].at && run[r].Reset?;
    assert r != made[i].at && r != made[i].at + 1;
  }

  // ----- One execution -----

  /** Reserve, call, settle as unknown; or reserve, call, complete and record. */
  function ExecutionSteps(p: Params, now: int, owner: Id, id: Id, c: nat, answered: bool): seq<Step> {
    [Begin(p, now, owner, id), CallProvider(c)] +
    if answered then [SettleCompleted(c, None, now), RecordRequest(true, now)] else [SettleUnknown(c, now)]
  }

  function Final(answered: bool): ExecutionState {
    if answered then Completed else OutcomeUnknown
  }

  /** The operation of a granted reservation, settled at once, is closed, and nothing else is written. */
  lemma SettledIsClosed(l: Ledger, p: Params, now: int, owner: Id, id: Id, answered: bool)
    requires Reserve(l, p, now, owner, id).1.Ok?
    ensures var (l', r) := Reserve(l, p, now, owner, id);
      var (l'', settled) := if answered then Complete(l', r.value, None, now) else MarkUnknown(l', r.value, now);
      settled.Ok? && Closed(l'', r.value, Final(answered)) && r.value.day == Day(now) &&
      l'' == Ledger(l.executions[p.key := l''.executions[p.key]], l.rows[id := l''.rows[id]], l.events)
    ensures var r := Reserve(l, p, now, owner, id).1.value;
      r.id == id && r.owner == owner && r.key == p.key && r.planHash == p.planHash && r.provider == p.provider &&
      r.model == p.model && r.kind == p.kind
  {
    hide Used;
  }

  lemma BeginGrants(w: World, p: Params, now: int, owner: Id, id: Id)
    requires owner !in w.tokens && id !in w.tokens && owner != id && Reserve(w.ledger, p, now, owner, id).1.Ok?
    ensures Enabled(w, Begin(p, now, owner, id))
    ensures var w' := Next(w, Begin(p, now, owner, id)); var (l, r) := Reserve(w.ledger, p, now, owner, id);
      w'.ledger == l && w'.clients == w.clients + [Client(r.value, w.epoch, Reserved)] && w'.calls == w.calls
  {
    hide Reserve;
  }

  lemma CallAndSettle(w: World, now: int, c: nat, answered: bool)
    requires c < |w.clients| && w.clients[c].phase == Reserved
    ensures var called := CallProvider(c);
      var settle := if answered then SettleCompleted(c, None, now) else SettleUnknown(c, now);
      Enabled(w, called) && Enabled(Next(w, called), settle) &&
      var w' := Next(Next(w, called), settle); var r := w.clients[c].reservation;
      w'.ledger == (if answered then Complete(w.ledger, r, None, now).0 else MarkUnknown(w.ledger, r, now).0) &&
      w'.clients == w.clients[c := w.clients[c].(phase := Settled)] && w'.calls == w.calls + [c] && w'.epoch == w.epoch
  {
    hide Complete, MarkUnknown;
    var settle := if answered then SettleCompleted(c, None, now) else SettleUnknown(c, now);
    var w' := Next(Next(w, CallProvider(c)), settle);
    assert w'.clients == w.clients[c := w.clients[c].(phase := Settled)];
  }

  lemma AppendRecords(run: seq<Step>, made: seq<Made>, m: Made)
    requires After(run).Some? && Records(run, made) && MadeIn(run, m)
    requires forall i :: 0 <= i < |made| ==> Earlier(made[i], m)
    ensures Records(run, made + [m])
  {
    hide MadeIn, Earlier;
  }

  /** What was made stands before what a run goes on with. */
  lemma EarlierThanNext(run: seq<Step>, made: seq<Made>, m: Made)
    requires After(run).Some? && Records(run, made) && m.at == |run| && m.client == |After(run).value.clients|
    ensures forall i :: 0 <= i < |made| ==> Earlier(made[i], m)
  {
    hide After, Closed, Resets;
    forall i | 0 <= i < |made| ensures Earlier(made[i], m) {
      assert MadeIn(run, made[i]);
    }
  }

  /** A granted execution is such steps of the run, and it is recorded as closed. */
  lemma ExecutionRecords(run: seq<Step>, made: seq<Made>, p: Params, now: int, owner: Id, id: Id, answered: bool)
    returns (longer: seq<Step>, m: Made)
    requires After(run).Some? && Records(run, made)
    requires var w := After(run).value;
      owner !in w.tokens && id !in w.tokens && owner != id && Reserve(w.ledger, p, now, owner, id).1.Ok?
    ensures longer == run + ExecutionSteps(p, now, owner, id, |After(run).value.clients|, answered)
    ensures After(longer).Some? && Records(longer, made + [m])
    ensures var (l, r) := Reserve(After(run).value.ledger, p, now, owner, id);
      m == Made(|run|, |After(run).value.clients|, r.value, Final(answered)) &&
      After(longer).value.ledger ==
        if answered then Record(Complete(l, r.value, None, now).0, true, now) else MarkUnknown(l, r.value, now).0
  {
    hide Next, Enabled, Reserve, Complete, MarkUnknown, Record, Records, MadeIn, After, Resets;
    var w := After(run).value;
    var c := |w.clients|;
    m := Made(|run|, c, Reserve(w.ledger, p, now, owner, id).1.value, Final(answered));
    BeginGrants(w, p, now, owner, id);
    EarlierThanNext(run, made, m);
    StepRecords(run, made, Begin(p, now, owner, id));
    var begun := run + [Begin(p, now, owner, id)];
    CallAndSettle(After(begun).value, now, c, answered);
    StepRecords(begun, made, CallProvider(c));
    var settle := if answered then SettleCompleted(c, None, now) else SettleUnknown(c, now);
    StepRecords(begun + [CallProvider(c)], made, settle);
    longer := begun + [CallProvider(c)] + [settle];
    assert MadeIn(longer, m) by {
      SettledIsClosed(w.ledger, p, now, owner, id, answered);
      EpochCountsResets(run);
      assert longer[..|run|] == run;
      IsMade(w, longer, m);
    }
    AppendRecords(longer, made, m);
    if answered {
      RecordIsEnabled(After(longer).value, now);
      StepRecords(longer, made + [m], RecordRequest(true, now));
      longer := longer + [RecordRequest(true, now)];
    }
  }

  lemma RecordIsEnabled(w: World, now: int)
    ensures Enabled(w, RecordRequest(true, now)) && Next(w, RecordRequest(true, now)).ledger == Record(w.ledger, true, now)
  {
  }

  lemma IsMade(w: World, run: seq<Step>, m: Made)
    requires After(run).Some? && m.at + 1 < |run| && run[m.at].Begin? && run[m.at + 1] == CallProvider(m.client)
    requires var w' := After(run).value;
      w'.clients == w.clients + [Client(m.reservation, Resets(run[..m.at]), Settled)] && m.client == |w.clients| &&
      w'.calls == w.calls + [m.client] && Closed(w'.ledger, m.reservation, m.state)
    ensures MadeIn(run, m)
  {
    hide After, Resets, Closed;
    assert (w.calls + [m.client])[|w.calls|] == m.client;
  }
}
