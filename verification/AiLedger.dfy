/**
 * The coordination ledger of AI provider calls: one execution row per operation
 * key, one budget row per attempt, and the transactions that write them.
 */
module AiLedger {
  import opened JsText

  type Key = Text
  type Id = Text

  datatype ExecutionState =
    | Claimed | Dispatching | Repairing | Completed | FailedBeforeDispatch | Failed | OutcomeUnknown

  datatype OperationKind = AnalysisOperation | CoverLetterOperation

  datatype Execution = Execution(
    kind: OperationKind, provider: Text, model: Text, planHash: Text,
    state: ExecutionState, owner: Id, attemptCount: nat,
    runId: Option<Text>, createdAt: int, updatedAt: int)

  datatype BudgetState = Consumed | Released

  datatype BudgetRow = BudgetRow(
    operationKey: Key, day: int, attemptNumber: nat, state: BudgetState,
    planHash: Text, createdAt: int, releasedAt: Option<int>)

  datatype EventType = AnalysisRequested | LetterGenerated | OtherEvent

  /** `coordinated` marks the events whose request the ledger already counts. */
  datatype Event = Event(eventType: EventType, coordinated: bool, createdAt: int)

  datatype Ledger = Ledger(executions: map<Key, Execution>, rows: map<Id, BudgetRow>, events: seq<Event>)

  datatype Params = Params(
    key: Key, kind: OperationKind, provider: Text, model: Text, planHash: Text, dailyRequestLimit: real)

  datatype Reservation = Reservation(
    id: Id, key: Key, kind: OperationKind, provider: Text, model: Text, planHash: Text,
    owner: Id, attemptNumber: nat, day: int)

  datatype Error =
    | InFlight | AlreadyCompleted | UnknownOutcome | BudgetExhausted | OwnershipLost

  // ----- Counting -----

  const DAY_MS := 24 * 60 * 60 * 1000

  /** The UTC day of a time in milliseconds. */
  function Day(now: int): int {
    now / DAY_MS
  }

  function Limit(dailyRequestLimit: real): (n: nat)
    ensures dailyRequestLimit <= 0.0 ==> n == 0
    ensures dailyRequestLimit > 0.0 ==> n as real <= dailyRequestLimit < n as real + 1.0
  {
    if dailyRequestLimit.Floor < 0 then 0 else dailyRequestLimit.Floor
  }

  function RowsOf(rows: map<Id, BudgetRow>, key: Key): set<Id> {
    set id | id in rows && rows[id].operationKey == key
  }

  function ConsumedOf(rows: map<Id, BudgetRow>, key: Key): set<Id> {
    set id | id in rows && rows[id].operationKey == key && rows[id].state == Consumed
  }

  function ConsumedOn(rows: map<Id, BudgetRow>, day: int): set<Id> {
    set id | id in rows && rows[id].day == day && rows[id].state == Consumed
  }

  /** A request event of today that no ledger row counts. */
  predicate IsCountedLegacyEvent(e: Event, now: int) {
    !e.eventType.OtherEvent? && !e.coordinated && Day(now) * DAY_MS <= e.createdAt <= now
  }

  function LegacyCount(events: seq<Event>, now: int): nat {
    if |events| == 0 then 0
    else LegacyCount(events[..|events| - 1], now) + if IsCountedLegacyEvent(events[|events| - 1], now) then 1 else 0
  }

  function Used(l: Ledger, now: int): nat {
    |ConsumedOn(l.rows, Day(now))| + LegacyCount(l.events, now)
  }

  /** The uncoordinated request events of the same day, and not of the future. */
  function RequestsToday(events: seq<Event>, now: int): set<nat> {
    set i: nat | i < |events| && (events[i].eventType.AnalysisRequested? || events[i].eventType.LetterGenerated?) &&
      !events[i].coordinated && events[i].createdAt <= now && Day(events[i].createdAt) == Day(now)
  }

  /** Exactly these are counted, once each. */
  lemma {:induction false} LegacyCountIsExact(events: seq<Event>, now: int)
    ensures LegacyCount(events, now) == |RequestsToday(events, now)|
  {
    if |events| > 0 {
      var n := |events| - 1;
      LegacyCountIsExact(events[..n], now);
      var before, e := RequestsToday(events[..n], now), events[n];
      assert IsCountedLegacyEvent(e, now) <==> n in RequestsToday(events, now) by {
        DayLasts(e.createdAt);
        DayLasts(now);
      }
      assert RequestsToday(events, now) == if IsCountedLegacyEvent(e, now) then before + {n} else before;
    }
  }

  /** A day is 86,400 seconds, from the beginning of time on. */
  lemma DayLasts(t: int)
    ensures Day(t) * 86_400_000 <= t < (Day(t) + 1) * 86_400_000
  {
  }

  /** The budget of a day is what its consumed rows and its uncoordinated events take. */
  lemma UsedIsExact(l: Ledger, now: int)
    ensures var consumed := set id | id in l.rows && l.rows[id].day == Day(now) && l.rows[id].state == Consumed;
      Used(l, now) == |consumed| + |RequestsToday(l.events, now)|
  {
    LegacyCountIsExact(l.events, now);
    assert ConsumedOn(l.rows, Day(now)) ==
      set id | id in l.rows && l.rows[id].day == Day(now) && l.rows[id].state == Consumed;
  }

  // ----- Transactions as functions of the state -----

  predicate SamePlan(e: Execution, p: Params) {
    e.planHash == p.planHash && e.provider == p.provider && e.model == p.model && e.kind == p.kind
  }

  /** Why an existing execution refuses a new reservation, if it does. */
  function Refusal(e: Execution, p: Params): Option<Error> {
    if !SamePlan(e, p) then Some(OwnershipLost)
    else match e.state
      case Completed => Some(AlreadyCompleted)
      case OutcomeUnknown => Some(UnknownOutcome)
      case Dispatching => Some(InFlight)
      case Repairing => Some(InFlight)
      case Claimed => Some(InFlight)
      case Failed => Some(AlreadyCompleted)
      case FailedBeforeDispatch => None
  }

  function Reserve(l: Ledger, p: Params, now: int, owner: Id, id: Id): (Ledger, Result<Reservation, Error>) {
    var known := p.key in l.executions;
    if known && Refusal(l.executions[p.key], p).Some? then (l, Err(Refusal(l.executions[p.key], p).value))
    else if Used(l, now) >= Limit(p.dailyRequestLimit) then (l, Err(BudgetExhausted))
    else
      var n := (if known then l.executions[p.key].attemptCount else 0) + 1;
      var execution := Execution(p.kind, p.provider, p.model, p.planHash, Dispatching, owner, n,
        if known then l.executions[p.key].runId else None,
        if known then l.executions[p.key].createdAt else now, now);
      var row := BudgetRow(p.key, Day(now), n, Consumed, p.planHash, now, None);
      (l.(executions := l.executions[p.key := execution], rows := l.rows[id := row]),
       Ok(Reservation(id, p.key, p.kind, p.provider, p.model, p.planHash, owner, n, Day(now))))
  }

  function Release(l: Ledger, r: Reservation, now: int): (Ledger, Result<(), Error>) {
    if r.key !in l.executions || r.id !in l.rows then (l, Ok(()))
    else
      var e := l.executions[r.key];
      if e.owner != r.owner || e.state != Dispatching then (l, Err(OwnershipLost))
      else
        (l.(rows := l.rows[r.id := l.rows[r.id].(state := Released, releasedAt := Some(now))],
            executions := l.executions[r.key := e.(state := FailedBeforeDispatch, updatedAt := now)]),
         Ok(()))
  }

  predicate Owns(l: Ledger, r: Reservation) {
    r.key in l.executions && r.id in l.rows && l.executions[r.key].owner == r.owner
  }

  function Complete(l: Ledger, r: Reservation, runId: Option<Text>, now: int): (Ledger, Result<(), Error>) {
    if !Owns(l, r) then (l, Err(OwnershipLost))
    else
      var e := l.executions[r.key];
      (l.(executions := l.executions[r.key := e.(state := Completed,
          runId := if runId.Some? then runId else e.runId, updatedAt := now)]), Ok(()))
  }

  function MarkUnknown(l: Ledger, r: Reservation, now: int): (Ledger, Result<(), Error>) {
    if !Owns(l, r) then (l, Err(OwnershipLost))
    else
      var e := l.executions[r.key];
      (l.(executions := l.executions[r.key := e.(state := OutcomeUnknown, updatedAt := now)]), Ok(()))
  }

  function Record(l: Ledger, letter: bool, now: int): Ledger {
    l.(events := l.events + [Event(if letter then LetterGenerated else AnalysisRequested, true, now)])
  }

  /** A reservation is granted exactly to a new or released operation of the same plan within the budget. */
  lemma GrantedExactlyWhenFree(l: Ledger, p: Params, now: int, owner: Id, id: Id)
    ensures Reserve(l, p, now, owner, id).1.Ok? <==>
      (p.key in l.executions ==>
        l.executions[p.key].state == FailedBeforeDispatch && SamePlan(l.executions[p.key], p)) &&
      Used(l, now) < Limit(p.dailyRequestLimit)
    ensures Reserve(l, p, now, owner, id).1.Err? ==> Reserve(l, p, now, owner, id).0 == l
  {
  }

  /** Which refusal it is: another plan first, then the state of the operation, then the budget. */
  lemma RefusedBecause(l: Ledger, p: Params, now: int, owner: Id, id: Id)
    requires Reserve(l, p, now, owner, id).1.Err?
    ensures Reserve(l, p, now, owner, id).1.error ==
      if p.key !in l.executions then BudgetExhausted
      else
        var e := l.executions[p.key];
        if (e.kind, e.provider, e.model, e.planHash) != (p.kind, p.provider, p.model, p.planHash) then OwnershipLost
        else if e.state == Completed || e.state == Failed then AlreadyCompleted
        else if e.state == OutcomeUnknown then UnknownOutcome
        else if e.state == FailedBeforeDispatch then BudgetExhausted
        else InFlight
  {
    hide Used, Limit;
  }

  /**
   * `getBudgetStatus`: nothing remains. The limit is not rounded here, which would make a
   * difference for a fraction of a request, but no stored setting has one.
   */
  predicate IsExhausted(l: Ledger, dailyRequestLimit: real, now: int) {
    dailyRequestLimit - Used(l, now) as real <= 0.0
  }

  /** Settings hold whole limits only, and for these the status shows exactly what a reservation will find. */
  lemma StatusAgreesWithReservation(l: Ledger, dailyRequestLimit: int, now: int)
    ensures IsExhausted(l, dailyRequestLimit as real, now) <==> Used(l, now) >= Limit(dailyRequestLimit as real)
  {
    hide Used;
  }

  /** Recording the request adds nothing to the count: the ledger row already did. */
  lemma RecordedRequestsCountOnce(l: Ledger, letter: bool, now: int, later: int)
    ensures Used(Record(l, letter, now), later) == Used(l, later)
  {
    var l' := Record(l, letter, now);
    assert l'.events[..|l'.events| - 1] == l.events;
  }

  // ----- The store that the extension updates -----

  class Store {
    var aiExecution: map<Key, Execution>
    var aiBudget: map<Id, BudgetRow>
    var events: seq<Event>

    function State(): Ledger
      reads this
    {
      Ledger(aiExecution, aiBudget, events)
    }

    constructor ()
      ensures State() == Ledger(map[], map[], [])
    {
      aiExecution, aiBudget, events := map[], map[], [];
    }

    /** `reserveAiProviderAttempt`: one transaction; `owner` and `id` are the tokens it makes. */
    method ReserveAiProviderAttempt(p: Params, now: int, owner: Id, id: Id) returns (r: Result<Reservation, Error>)
      modifies this
      ensures (State(), r) == Reserve(old(State()), p, now, owner, id)
      ensures r.Err? ==> State() == old(State())
      ensures r.Ok? ==>
        var known := p.key in old(aiExecution);
        var n := if known then old(aiExecution)[p.key].attemptCount + 1 else 1;
        r.value == Reservation(id, p.key, p.kind, p.provider, p.model, p.planHash, owner, n, Day(now)) &&
        events == old(events) &&
        aiBudget == old(aiBudget)[id := BudgetRow(p.key, Day(now), n, Consumed, p.planHash, now, None)] &&
        aiExecution == old(aiExecution)[p.key :=
          Execution(p.kind, p.provider, p.model, p.planHash, Dispatching, owner, n,
            if known then old(aiExecution)[p.key].runId else None,
            if known then old(aiExecution)[p.key].createdAt else now, now)]
    {
      var limit := Limit(p.dailyRequestLimit);
      var dayKey := Day(now);
      var attemptNumber := 1;
      var runId, createdAt := None, now;
      if p.key in aiExecution {
        var existing := aiExecution[p.key];
        if existing.planHash != p.planHash || existing.provider != p.provider ||
           existing.model != p.model || existing.kind != p.kind {
          return Err(OwnershipLost);
        }
        if existing.state == Completed {
          return Err(AlreadyCompleted);
        }
        if existing.state == OutcomeUnknown {
          return Err(UnknownOutcome);
        }
        if existing.state == Dispatching || existing.state == Repairing || existing.state == Claimed {
          return Err(InFlight);
        }
        if existing.state == Failed {
          return Err(AlreadyCompleted);
        }
        attemptNumber := existing.attemptCount + 1;
        runId, createdAt := existing.runId, existing.createdAt;
      }
      var used := |ConsumedOn(aiBudget, dayKey)| + LegacyCount(events, now);
      if used >= limit {
        return Err(BudgetExhausted);
      }
      aiExecution := aiExecution[p.key := Execution(p.kind, p.provider, p.model, p.planHash,
        Dispatching, owner, attemptNumber, runId, createdAt, now)];
      aiBudget := aiBudget[id := BudgetRow(p.key, dayKey, attemptNumber, Consumed, p.planHash, now, None)];
      r := Ok(Reservation(id, p.key, p.kind, p.provider, p.model, p.planHash, owner, attemptNumber, dayKey));
    }

    /** `releaseAiAttemptBeforeDispatch`. */
    method ReleaseAiAttemptBeforeDispatch(reservation: Reservation, now: int) returns (r: Result<(), Error>)
      modifies this
      ensures (State(), r) == Release(old(State()), reservation, now)
      ensures var (key, id) := (reservation.key, reservation.id);
        r.Ok? && key in old(aiExecution) && id in old(aiBudget) ==>
          aiBudget == old(aiBudget)[id := old(aiBudget)[id].(state := Released, releasedAt := Some(now))] &&
          aiExecution == old(aiExecution)[key := old(aiExecution)[key].(state := FailedBeforeDispatch, updatedAt := now)]
    {
      if reservation.key !in aiExecution || reservation.id !in aiBudget {
        return Ok(());
      }
      var execution, attempt := aiExecution[reservation.key], aiBudget[reservation.id];
      if execution.owner != reservation.owner || execution.state != Dispatching {
        return Err(OwnershipLost);
      }
      aiBudget := aiBudget[reservation.id := attempt.(state := Released, releasedAt := Some(now))];
      aiExecution := aiExecution[reservation.key := execution.(state := FailedBeforeDispatch, updatedAt := now)];
      r := Ok(());
    }

    /** `completeAiProviderExecution`. */
    method CompleteAiProviderExecution(reservation: Reservation, runId: Option<Text>, now: int) returns (r: Result<(), Error>)
      modifies this
      ensures (State(), r) == Complete(old(State()), reservation, runId, now)
      ensures r.Ok? ==>
        reservation.key in old(aiExecution) && aiBudget == old(aiBudget) && events == old(events) &&
        var e := old(aiExecution)[reservation.key];
        e.owner == reservation.owner &&
        aiExecution == old(aiExecution)[reservation.key := e.(state := Completed,
          runId := if runId.Some? then runId else e.runId, updatedAt := now)]
    {
      if reservation.key !in aiExecution || reservation.id !in aiBudget ||
         aiExecution[reservation.key].owner != reservation.owner {
        return Err(OwnershipLost);
      }
      var execution := aiExecution[reservation.key];
      aiExecution := aiExecution[reservation.key := execution.(state := Completed,
        runId := if runId.Some? then runId else execution.runId, updatedAt := now)];
      r := Ok(());
    }

    /** `markAiProviderOutcomeUnknown`. */
    method MarkAiProviderOutcomeUnknown(reservation: Reservation, now: int) returns (r: Result<(), Error>)
      modifies this
      ensures (State(), r) == MarkUnknown(old(State()), reservation, now)
      ensures r.Ok? ==>
        reservation.key in old(aiExecution) && aiBudget == old(aiBudget) && events == old(events) &&
        var e := old(aiExecution)[reservation.key];
        e.owner == reservation.owner &&
        aiExecution == old(aiExecution)[reservation.key := e.(state := OutcomeUnknown, updatedAt := now)]
    {
      if reservation.key !in aiExecution || reservation.id !in aiBudget ||
         aiExecution[reservation.key].owner != reservation.owner {
        return Err(OwnershipLost);
      }
      var execution := aiExecution[reservation.key];
      aiExecution := aiExecution[reservation.key := execution.(state := OutcomeUnknown, updatedAt := now)];
      r := Ok(());
    }

    /** `recordAiRequest`. */
    method RecordAiRequest(letter: bool, now: int)
      modifies this
      ensures State() == Record(old(State()), letter, now)
      ensures events == old(events) + [Event(if letter then LetterGenerated else AnalysisRequested, true, now)]
    {
      events := events + [Event(if letter then LetterGenerated else AnalysisRequested, true, now)];
    }
  }
}
