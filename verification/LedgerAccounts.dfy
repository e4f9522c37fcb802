/** What the ledger's rows account for: attempts per operation, and requests per day. */
module LedgerAccounts {
  import opened JsText
  import opened AiLedger
  import opened LedgerRun

  // ----- Attempts of an operation -----

  predicate HasAttempt(l: Ledger, key: Key, n: nat) {
    exists id :: id in RowsOf(l.rows, key) && l.rows[id].attemptNumber == n
  }

  /** The rows of an operation are its attempts 1 to `attemptCount`, once each. */
  predicate Numbered(l: Ledger, key: Key)
    requires key in l.executions
  {
    |RowsOf(l.rows, key)| == l.executions[key].attemptCount >= 1 &&
    (forall n :: 1 <= n <= l.executions[key].attemptCount ==> HasAttempt(l, key, n)) &&
    (forall id :: id in RowsOf(l.rows, key) ==> 1 <= l.rows[id].attemptNumber <= l.executions[key].attemptCount) &&
    (forall id, id' :: id in RowsOf(l.rows, key) && id' in RowsOf(l.rows, key) && id != id' ==>
      l.rows[id].attemptNumber != l.rows[id'].attemptNumber)
  }

  /** Only the last attempt can be consumed, and it is exactly while the operation is not released. */
  predicate Charged(l: Ledger, key: Key)
    requires key in l.executions
  {
    var e := l.executions[key];
    (Active(e.state) || e.state == FailedBeforeDispatch) &&
    (forall id :: id in RowsOf(l.rows, key) ==>
      (l.rows[id].state == Consumed <==> l.rows[id].attemptNumber == e.attemptCount && Active(e.state)))
  }

  predicate Accounted(l: Ledger) {
    (forall key :: key in l.executions ==> Numbered(l, key) && Charged(l, key)) &&
    (forall id :: id in l.rows ==> l.rows[id].operationKey in l.executions)
  }

  /** A set of rows with the same numbers as before is numbered as before. */
  lemma SameNumbers(l: Ledger, l': Ledger, key: Key)
    requires key in l.executions && key in l'.executions
    requires l.executions[key].attemptCount == l'.executions[key].attemptCount
    requires RowsOf(l.rows, key) == RowsOf(l'.rows, key)
    requires forall id :: id in RowsOf(l.rows, key) ==> l.rows[id].attemptNumber == l'.rows[id].attemptNumber
    requires Numbered(l, key)
    ensures Numbered(l', key)
  {
    forall n | 1 <= n <= l.executions[key].attemptCount ensures HasAttempt(l', key, n) {
      assert HasAttempt(l, key, n);
      var id :| id in RowsOf(l.rows, key) && l.rows[id].attemptNumber == n;
      assert id in RowsOf(l'.rows, key);
    }
  }

  lemma NewAttemptNumbered(l: Ledger, l': Ledger, key: Key, id: Id)
    requires key in l'.executions && id !in l.rows && id in l'.rows && l'.rows == l.rows[id := l'.rows[id]]
    requires l'.rows[id].operationKey == key && l'.rows[id].attemptNumber == l'.executions[key].attemptCount
    requires if key in l.executions
             then Numbered(l, key) && l'.executions[key].attemptCount == l.executions[key].attemptCount + 1
             else RowsOf(l.rows, key) == {} && l'.executions[key].attemptCount == 1
    ensures Numbered(l', key)
  {
    var n := l'.executions[key].attemptCount;
    assert RowsOf(l'.rows, key) == RowsOf(l.rows, key) + {id};
    assert id in RowsOf(l'.rows, key);
    assert HasAttempt(l', key, n);
    forall k | 1 <= k < n ensures HasAttempt(l', key, k) {
      assert HasAttempt(l, key, k);
      var before :| before in RowsOf(l.rows, key) && l.rows[before].attemptNumber == k;
      assert before in RowsOf(l'.rows, key);
    }
  }

  lemma NewAttemptCharged(l: Ledger, l': Ledger, key: Key, id: Id)
    requires key in l'.executions && id !in l.rows && id in l'.rows && l'.rows == l.rows[id := l'.rows[id]]
    requires l'.rows[id].operationKey == key && l'.rows[id].attemptNumber == l'.executions[key].attemptCount
    requires l'.rows[id].state == Consumed && l'.executions[key].state == Dispatching
    requires if key in l.executions
             then Numbered(l, key) && Charged(l, key) && l.executions[key].state == FailedBeforeDispatch &&
                  l'.executions[key].attemptCount == l.executions[key].attemptCount + 1
             else RowsOf(l.rows, key) == {}
    ensures Charged(l', key)
  {
    hide HasAttempt;
    forall other | other in RowsOf(l'.rows, key) && other != id
      ensures l'.rows[other].state != Consumed && l'.rows[other].attemptNumber < l'.executions[key].attemptCount
    {
      assert other in RowsOf(l.rows, key);
    }
  }

  lemma ReserveAccounts(l: Ledger, p: Params, now: int, owner: Id, id: Id)
    requires Accounted(l) && id !in l.rows
    ensures Accounted(Reserve(l, p, now, owner, id).0)
  {
    hide Used, Numbered, HasAttempt;
    var (l', r) := Reserve(l, p, now, owner, id);
    if r.Ok? {
      GrantedExactlyWhenFree(l, p, now, owner, id);
      if p.key !in l.executions {
        assert RowsOf(l.rows, p.key) == {};
      }
      NewAttemptNumbered(l, l', p.key, id);
      NewAttemptCharged(l, l', p.key, id);
      forall key | key in l'.executions && key != p.key ensures Numbered(l', key) && Charged(l', key) {
        assert RowsOf(l'.rows, key) == RowsOf(l.rows, key);
        SameNumbers(l, l', key);
        assert Charged(l, key);
      }
    }
  }

  lemma OthersNotLast(l: Ledger, key: Key, id: Id)
    requires key in l.executions && Numbered(l, key) && id in RowsOf(l.rows, key)
    ensures forall other :: other in RowsOf(l.rows, key) && other != id ==>
      l.rows[other].attemptNumber != l.rows[id].attemptNumber
  {
  }

  lemma TransactionCharged(l: Ledger, l': Ledger, r: Reservation)
    requires TouchesOnly(l, l', r) && Holds(l, r, false) && Numbered(l, r.key) && Charged(l, r.key)
    requires if Active(l'.executions[r.key].state) then l'.rows[r.id].state == Consumed
             else l'.executions[r.key].state == FailedBeforeDispatch && l'.rows[r.id].state == Released
    ensures Charged(l', r.key)
  {
    hide HasAttempt, Numbered;
    assert r.id in RowsOf(l.rows, r.key);
    OthersNotLast(l, r.key, r.id);
    forall id | id in RowsOf(l'.rows, r.key)
      ensures l'.rows[id].state == Consumed <==>
        l'.rows[id].attemptNumber == l'.executions[r.key].attemptCount && Active(l'.executions[r.key].state)
    {
      assert id in RowsOf(l.rows, r.key);
    }
  }

  /** A settled or released reservation keeps the account of its operation. */
  lemma TransactionAccounts(l: Ledger, l': Ledger, r: Reservation)
    requires Accounted(l) && TouchesOnly(l, l', r) && Holds(l, r, false)
    requires if Active(l'.executions[r.key].state) then l'.rows[r.id].state == Consumed
             else l'.executions[r.key].state == FailedBeforeDispatch && l'.rows[r.id].state == Released
    ensures Accounted(l')
  {
    hide HasAttempt, Numbered;
    TransactionCharged(l, l', r);
    forall key | key in l'.executions ensures Numbered(l', key) && Charged(l', key) {
      assert RowsOf(l'.rows, key) == RowsOf(l.rows, key);
      SameNumbers(l, l', key);
      assert Charged(l, key);
    }
  }

  lemma EventsAccount(l: Ledger, l': Ledger)
    requires Accounted(l) && l'.executions == l.executions && l'.rows == l.rows
    ensures Accounted(l')
  {
    hide HasAttempt, Numbered;
    forall key | key in l'.executions ensures Numbered(l', key) && Charged(l', key) {
      SameNumbers(l, l', key);
      assert Charged(l, key);
    }
  }

  lemma StepAccounts(w: World, s: Step)
    requires Invariant(w) && Accounted(w.ledger) && Enabled(w, s)
    ensures Accounted(Next(w, s).ledger)
  {
    hide Accounted, HoldersHold, OneHolder, CallsMatch;
    match s
    case Begin(p, now, owner, id) => ReserveAccounts(w.ledger, p, now, owner, id);
    case CallProvider(_) =>
    case RecordRequest(_, _) => EventsAccount(w.ledger, Next(w, s).ledger);
    case ChangeEvents(_) => EventsAccount(w.ledger, Next(w, s).ledger);
    case Reset => EmptyAccounts();
    case _ =>
      TransactionEffect(w, s);
      hide Transaction, Next;
      if Live(w, w.clients[s.client]) {
        TransactionAccounts(w.ledger, Next(w, s).ledger, w.clients[s.client].reservation);
      }
  }

  lemma EmptyAccounts()
    ensures Accounted(Ledger(map[], map[], []))
  {
  }

  lemma {:induction false} EveryRunAccounts(run: seq<Step>)
    requires After(run).Some?
    ensures Accounted(After(run).value.ledger)
  {
    hide Next, Invariant, Accounted;
    if |run| > 0 {
      EveryRunAccounts(run[..|run| - 1]);
      EveryRunKeeps(run[..|run| - 1]);
      StepAccounts(After(run[..|run| - 1]).value, run[|run| - 1]);
    } else {
      EmptyAccounts();
    }
  }

  /** One consumed attempt while an operation is in flight or settled, none once it is released. */
  lemma OneConsumedAttempt(run: seq<Step>, key: Key)
    requires After(run).Some? && key in After(run).value.ledger.executions
    ensures var l := After(run).value.ledger;
      (Active(l.executions[key].state) || l.executions[key].state == FailedBeforeDispatch) &&
      |ConsumedOf(l.rows, key)| == if Active(l.executions[key].state) then 1 else 0
  {
    hide After;
    EveryRunAccounts(run);
    ConsumedOnce(After(run).value.ledger, key);
  }

  lemma ConsumedOnce(l: Ledger, key: Key)
    requires key in l.executions && Numbered(l, key) && Charged(l, key)
    ensures |ConsumedOf(l.rows, key)| == if Active(l.executions[key].state) then 1 else 0
  {
    if Active(l.executions[key].state) {
      var n := l.executions[key].attemptCount;
      assert HasAttempt(l, key, n);
      var id :| id in RowsOf(l.rows, key) && l.rows[id].attemptNumber == n;
      forall other | other in ConsumedOf(l.rows, key) ensures other == id {
        assert other in RowsOf(l.rows, key);
      }
      assert ConsumedOf(l.rows, key) == {id};
    } else {
      assert ConsumedOf(l.rows, key) <= RowsOf(l.rows, key);
      assert ConsumedOf(l.rows, key) == {};
    }
  }

  // ----- Requests of a day -----

  /** No reservation of the run was made under a higher daily limit. */
  predicate LimitedBy(run: seq<Step>, dailyRequestLimit: real) {
    forall j :: 0 <= j < |run| && run[j].Begin? ==> run[j].p.dailyRequestLimit <= dailyRequestLimit
  }

  /** The calls since the last reset whose reservation is of this day. */
  function CallsOn(w: World, day: int): set<nat> {
    set j: nat | j < |w.calls| && w.calls[j] < |w.clients| && Live(w, w.clients[w.calls[j]]) &&
      w.clients[w.calls[j]].reservation.day == day
  }

  lemma LimitIsMonotone(a: real, b: real)
    requires a <= b
    ensures Limit(a) <= Limit(b)
  {
  }

  lemma ReserveStaysWithin(l: Ledger, p: Params, now: int, owner: Id, id: Id, day: int)
    requires id !in l.rows
    ensures var l' := Reserve(l, p, now, owner, id).0;
      |ConsumedOn(l'.rows, day)| <= |ConsumedOn(l.rows, day)| ||
      |ConsumedOn(l'.rows, day)| <= Limit(p.dailyRequestLimit)
  {
    hide Limit, Refusal, LegacyCount;
    var l' := Reserve(l, p, now, owner, id).0;
    if l' != l && day == Day(now) {
      assert ConsumedOn(l'.rows, day) == ConsumedOn(l.rows, day) + {id};
    } else {
      assert ConsumedOn(l'.rows, day) == ConsumedOn(l.rows, day);
    }
  }

  lemma NoMoreConsumed(l: Ledger, l': Ledger, r: Reservation, day: int)
    requires TouchesOnly(l, l', r) && Holds(l, r, false)
    ensures |ConsumedOn(l'.rows, day)| <= |ConsumedOn(l.rows, day)|
  {
    assert ConsumedOn(l'.rows, day) <= ConsumedOn(l.rows, day);
    SubsetSize(ConsumedOn(l'.rows, day), ConsumedOn(l.rows, day));
  }

  lemma {:induction false} SubsetSize<T>(a: set<T>, b: set<T>)
    requires a <= b
    ensures |a| <= |b|
  {
    if a != {} {
      var x :| x in a;
      SubsetSize(a - {x}, b - {x});
    }
  }

  /** A set that maps one to one into another is no larger. */
  lemma {:induction false} InjectionSize(a: set<nat>, b: set<Id>, f: seq<Id>)
    requires forall x :: x in a ==> x < |f| && f[x] in b
    requires forall x, y :: x in a && y in a && x != y ==> f[x] != f[y]
    ensures |a| <= |b|
  {
    if a != {} {
      var x :| x in a;
      InjectionSize(a - {x}, b - {f[x]}, f);
    }
  }

  lemma StepStaysWithin(w: World, s: Step, day: int, dailyRequestLimit: real)
    requires Invariant(w) && Enabled(w, s) && |ConsumedOn(w.ledger.rows, day)| <= Limit(dailyRequestLimit)
    requires s.Begin? ==> s.p.dailyRequestLimit <= dailyRequestLimit
    ensures |ConsumedOn(Next(w, s).ledger.rows, day)| <= Limit(dailyRequestLimit)
  {
    hide HoldersHold, OneHolder, CallsMatch;
    match s
    case Begin(p, now, owner, id) =>
      ReserveStaysWithin(w.ledger, p, now, owner, id, day);
      LimitIsMonotone(p.dailyRequestLimit, dailyRequestLimit);
    case CallProvider(_) =>
    case RecordRequest(_, _) =>
    case ChangeEvents(_) =>
    case Reset => assert ConsumedOn(map[], day) == {};
    case _ =>
      TransactionEffect(w, s);
      hide Transaction, Next;
      if Live(w, w.clients[s.client]) {
        NoMoreConsumed(w.ledger, Next(w, s).ledger, w.clients[s.client].reservation, day);
      }
  }

  lemma {:induction false} ConsumedWithinLimit(run: seq<Step>, day: int, dailyRequestLimit: real)
    requires After(run).Some? && LimitedBy(run, dailyRequestLimit)
    ensures |ConsumedOn(After(run).value.ledger.rows, day)| <= Limit(dailyRequestLimit)
  {
    hide Next, Invariant, Limit;
    if |run| > 0 {
      ConsumedWithinLimit(run[..|run| - 1], day, dailyRequestLimit);
      EveryRunKeeps(run[..|run| - 1]);
      StepStaysWithin(After(run[..|run| - 1]).value, run[|run| - 1], day, dailyRequestLimit);
    } else {
      assert ConsumedOn(map[], day) == {};
    }
  }

  /** Each call since the last reset holds its own consumed row. */
  lemma CallsAreConsumed(w: World, day: int)
    requires Invariant(w)
    ensures |CallsOn(w, day)| <= |ConsumedOn(w.ledger.rows, day)|
  {
    hide OneHolder;
    var ids := seq(|w.calls|, j requires 0 <= j < |w.calls| => w.clients[w.calls[j]].reservation.id);
    forall j | j in CallsOn(w, day) ensures ids[j] in ConsumedOn(w.ledger.rows, day) {
      assert Holds(w.ledger, w.clients[w.calls[j]].reservation, w.clients[w.calls[j]].phase == Settled);
    }
    forall i, j | i in CallsOn(w, day) && j in CallsOn(w, day) && i != j ensures ids[i] != ids[j] {
      assert w.calls[i] != w.calls[j];
    }
    InjectionSize(CallsOn(w, day), ConsumedOn(w.ledger.rows, day), ids);
  }

  /**
   * The hard daily bound: whatever is released and reserved again, neither the rows
   * charged to a day nor the provider calls of that day exceed the limit.
   */
  lemma DailyBound(run: seq<Step>, day: int, dailyRequestLimit: real)
    requires After(run).Some? && LimitedBy(run, dailyRequestLimit)
    ensures var w := After(run).value;
      |CallsOn(w, day)| <= |ConsumedOn(w.ledger.rows, day)| <= Limit(dailyRequestLimit)
  {
    hide After, CallsOn;
    EveryRunKeeps(run);
    CallsAreConsumed(After(run).value, day);
    ConsumedWithinLimit(run, day, dailyRequestLimit);
  }

  /**
   * Settling checks the owner but not the state. The account survives a completion, and
   * a mark that the outcome is unknown, exactly when the operation was not released before.
   */
  lemma SettlementIsChargedExactlyWhenActive(l: Ledger, r: Reservation, runId: Option<Text>, now: int)
    requires Accounted(l) && Owns(l, r)
    ensures Charged(Complete(l, r, runId, now).0, r.key) <==> Active(l.executions[r.key].state)
    ensures Charged(MarkUnknown(l, r, now).0, r.key) <==> Active(l.executions[r.key].state)
  {
    hide Numbered, HasAttempt, Charged;
    assert Numbered(l, r.key) && Charged(l, r.key);
    LastAttempt(l, r.key);
    ChargedAfter(l, Complete(l, r, runId, now).0, r.key);
    ChargedAfter(l, MarkUnknown(l, r, now).0, r.key);
  }

  /** A settled operation is charged exactly if its rows were charged to an active one before. */
  lemma ChargedAfter(l: Ledger, l': Ledger, key: Key)
    requires key in l.executions && key in l'.executions && l'.rows == l.rows && Charged(l, key)
    requires Active(l'.executions[key].state) && l'.executions[key].attemptCount == l.executions[key].attemptCount
    requires exists id :: id in RowsOf(l.rows, key) && l.rows[id].attemptNumber == l.executions[key].attemptCount
    ensures Charged(l', key) <==> Active(l.executions[key].state)
  {
    var id :| id in RowsOf(l.rows, key) && l.rows[id].attemptNumber == l.executions[key].attemptCount;
    assert id in RowsOf(l'.rows, key);
  }

  lemma LastAttempt(l: Ledger, key: Key)
    requires key in l.executions && Numbered(l, key)
    ensures exists id :: id in RowsOf(l.rows, key) && l.rows[id].attemptNumber == l.executions[key].attemptCount
  {
    assert HasAttempt(l, key, l.executions[key].attemptCount);
  }

  /** Such a run exists: released and then completed, an operation is completed without a charged row. */
  lemma ReleasedThenCompletedIsNotCharged(p: Params, now: int, owner: Id, id: Id)
    requires Limit(p.dailyRequestLimit) > 0
    ensures var (l1, r) := Reserve(Ledger(map[], map[], []), p, now, owner, id);
      r.Ok? &&
      var l2 := Release(l1, r.value, now).0;
      var (l3, done) := Complete(l2, r.value, None, now);
      done.Ok? && l3.executions[p.key].state == Completed && ConsumedOf(l3.rows, p.key) == {}
  {
    assert ConsumedOn(map[], Day(now)) == {};
  }
}
