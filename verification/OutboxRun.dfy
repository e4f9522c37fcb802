/** Runs of the outbox: retries read and write in separate steps, and anyone may act in between. */
module OutboxRun {
  import opened JsText
  import opened JsonTree
  import opened Outbox

  /** What a caller hands in. */
  datatype Request = Request(command: Command, chosen: Option<Id>, idempotencyKey: Option<Text>, uuid: Id, now: int)

  /**
   * `log` is every request accepted since the last full reset, in order; `committed` and
   * `deleted` are the sequences of those whose entries left. `seen` are retry counts read
   * by retries whose update may still come.
   */
  datatype World = World(queue: Queue, log: seq<Request>, committed: set<nat>, deleted: set<nat>, seen: seq<(Id, nat)>)

  datatype Step =
    | Add(request: Request)
    | Commit(id: Id)
    | End(id: Id, dead: bool, error: Text)
    | ReadRetry(id: Id)
    | WriteRetry(read: nat, error: Text, now: int, random: real)
    | Reopen(id: Id, now: int)
    | DeleteLinked(ids: set<Id>)
    | Reset

  predicate Enabled(w: World, s: Step) {
    match s
    case ReadRetry(id) => id in w.queue.entries
    case WriteRetry(k, _, _, random) => k < |w.seen| && 0.0 <= random < 1.0
    case _ => true
  }

  function SequencesOf(q: Queue, ids: set<Id>): set<nat> {
    set id | id in ids && id in q.entries :: q.entries[id].sequence
  }

  function Next(w: World, s: Step): World
    requires Enabled(w, s)
  {
    match s
    case Add(r) =>
      var (q, result) := Enqueue(w.queue, r.command, r.chosen, r.idempotencyKey, r.uuid, r.now);
      if result.Ok? then w.(queue := q, log := w.log + [r]) else w
    case Commit(id) =>
      w.(queue := w.queue.(entries := w.queue.entries - {id}), committed := w.committed + SequencesOf(w.queue, {id}))
    case End(id, dead, error) =>
      w.(queue := Update(w.queue, id, (e: Entry) => Ended(e, if dead then Dead else Conflict, error)))
    case ReadRetry(id) => w.(seen := w.seen + [(id, w.queue.entries[id].retryCount)])
    case WriteRetry(k, error, now, random) =>
      w.(queue := Update(w.queue, w.seen[k].0, (e: Entry) => Rescheduled(e, w.seen[k].1 + 1, error, now, random)))
    case Reopen(id, now) => w.(queue := Update(w.queue, id, (e: Entry) => Reopened(e, now)))
    case DeleteLinked(ids) =>
      w.(queue := w.queue.(entries := w.queue.entries - ids), deleted := w.deleted + SequencesOf(w.queue, ids))
    case Reset => INITIAL
  }

  const INITIAL := World(Queue(0, map[]), [], {}, {}, [])

  function After(run: seq<Step>): Option<World> {
    if |run| == 0 then Some(INITIAL)
    else
      var w :- After(run[..|run| - 1]);
      if Enabled(w, run[|run| - 1]) then Some(Next(w, run[|run| - 1])) else None
  }

  function IdOf(r: Request): Id {
    if r.chosen.Some? then r.chosen.value else r.uuid
  }

  /** The entry holds what the request handed in: its command, and its id and key or their defaults. */
  predicate Holds(e: Entry, r: Request, sequence: nat) {
    e.sequence == sequence && e.command == r.command && e.createdAt == r.now && e.id == IdOf(r) &&
    e.idempotencyKey == if r.idempotencyKey.Some? then r.idempotencyKey.value else IdOf(r)
  }

  /** The entry of a sequence is still queued. */
  predicate Queued(w: World, n: nat)
    requires 1 <= n <= |w.log|
  {
    IdOf(w.log[n - 1]) in w.queue.entries && w.queue.entries[IdOf(w.log[n - 1])].sequence == n
  }

  /** A queued entry holds the request of its sequence. */
  predicate AsRequested(w: World, id: Id)
    requires id in w.queue.entries
  {
    var e := w.queue.entries[id];
    e.id == id && 1 <= e.sequence <= |w.log| && Holds(e, w.log[e.sequence - 1], e.sequence) &&
    e.status != Committed && Sanitized(e.command.payload)
  }

  /** Every request accepted is queued, committed or deleted, and only one of these. */
  predicate Accounted(w: World, n: nat)
    requires 1 <= n <= |w.log|
  {
    (Queued(w, n) || n in w.committed || n in w.deleted) &&
    !(Queued(w, n) && n in w.committed) && !(Queued(w, n) && n in w.deleted) && !(n in w.committed && n in w.deleted)
  }

  predicate Conserved(w: World) {
    w.queue.counter == |w.log| &&
    (forall id :: id in w.queue.entries ==> AsRequested(w, id)) &&
    (forall n :: 1 <= n <= |w.log| ==> Accounted(w, n)) &&
    (forall n :: n in w.committed + w.deleted ==> 1 <= n <= |w.log|)
  }

  lemma AddedEntry(w: World, request: Request) returns (e: Entry)
    requires Next(w, Add(request)) != w
    ensures e.id == IdOf(request) && e.id !in w.queue.entries && e.status == Pending && Sanitized(e.command.payload)
    ensures Holds(e, request, w.queue.counter + 1)
    ensures Next(w, Add(request)) ==
      w.(queue := Queue(w.queue.counter + 1, w.queue.entries[e.id := e]), log := w.log + [request])
  {
    hide Sanitized, SequenceTaken;
    e := Enqueue(w.queue, request.command, request.chosen, request.idempotencyKey, request.uuid, request.now).1.value;
  }

  lemma AddConserves(w: World, request: Request)
    requires Conserved(w)
    ensures Conserved(Next(w, Add(request)))
  {
    hide Sanitized, Enqueue, Next, IdOf, Holds;
    var w' := Next(w, Add(request));
    if w' != w {
      var e := AddedEntry(w, request);
      SequenceOfEntry(e, request, w.queue.counter + 1);
      forall id | id in w'.queue.entries ensures AsRequested(w', id) {
        assert id != e.id ==> AsRequested(w, id);
      }
      forall n | 1 <= n <= |w'.log| ensures Accounted(w', n) {
        if n <= |w.log| {
          assert Accounted(w, n) && w'.log[n - 1] == w.log[n - 1];
        } else {
          assert n !in w.committed + w.deleted;
        }
      }
    }
  }

  lemma SequenceOfEntry(e: Entry, r: Request, n: nat)
    requires Holds(e, r, n)
    ensures e.sequence == n
  {
  }

  /** Entries leave for one reason each. */
  lemma RemoveConserves(w: World, s: Step)
    requires Conserved(w) && (s.Commit? || s.DeleteLinked?)
    ensures Conserved(Next(w, s))
  {
    hide Sanitized, Holds;
    var w' := Next(w, s);
    var ids := if s.Commit? then {s.id} else s.ids;
    forall id | id in w'.queue.entries ensures AsRequested(w', id) {
      assert AsRequested(w, id);
    }
    forall n | 1 <= n <= |w'.log| ensures Accounted(w', n) {
      assert Accounted(w, n);
      LeavingSequence(w, ids, n);
    }
    forall n | n in w'.committed + w'.deleted ensures 1 <= n <= |w.log| {
      if n in SequencesOf(w.queue, ids) {
        var id :| id in ids && id in w.queue.entries && w.queue.entries[id].sequence == n;
        assert AsRequested(w, id);
      } else {
        assert n in w.committed + w.deleted;
      }
    }
  }

  lemma LeavingSequence(w: World, ids: set<Id>, n: nat)
    requires Conserved(w) && 1 <= n <= |w.log|
    ensures n in SequencesOf(w.queue, ids) <==> Queued(w, n) && IdOf(w.log[n - 1]) in ids
  {
    hide Sanitized;
    if n in SequencesOf(w.queue, ids) {
      var id :| id in ids && id in w.queue.entries && w.queue.entries[id].sequence == n;
      assert AsRequested(w, id);
    }
  }

  lemma KeptOperation(e: Entry, e': Entry)
    requires SameOperation(e, e')
    ensures e.id == e'.id && e.sequence == e'.sequence && e.command == e'.command
    ensures forall r, n :: Holds(e', r, n) ==> Holds(e, r, n)
  {
  }

  lemma UpdateConserves(w: World, id: Id, f: Entry -> Entry)
    requires Conserved(w)
    requires forall e :: f.requires(e) && SameOperation(f(e), e) && f(e).status != Committed
    ensures Conserved(w.(queue := Update(w.queue, id, f)))
  {
    hide Sanitized, SameOperation, Holds;
    var w' := w.(queue := Update(w.queue, id, f));
    if id in w.queue.entries {
      KeptOperation(f(w.queue.entries[id]), w.queue.entries[id]);
    }
    forall other | other in w'.queue.entries ensures AsRequested(w', other) {
      assert AsRequested(w, other);
    }
    forall n | 1 <= n <= |w.log| ensures Accounted(w', n) {
      assert Accounted(w, n);
    }
  }

  lemma ReadConserves(w: World, id: Id)
    requires Conserved(w) && id in w.queue.entries
    ensures Conserved(Next(w, ReadRetry(id)))
  {
    hide Sanitized;
    var w' := Next(w, ReadRetry(id));
    forall other | other in w'.queue.entries ensures AsRequested(w', other) {
      assert AsRequested(w, other);
    }
    forall n | 1 <= n <= |w.log| ensures Accounted(w', n) {
      assert Accounted(w, n);
    }
  }

  lemma StepConserves(w: World, s: Step)
    requires Conserved(w) && Enabled(w, s)
    ensures Conserved(Next(w, s))
  {
    hide Conserved, Update, Sanitized;
    match s
    case Add(request) => AddConserves(w, request);
    case End(id, dead, error) => UpdateConserves(w, id, (e: Entry) => Ended(e, if dead then Dead else Conflict, error));
    case ReadRetry(id) => ReadConserves(w, id);
    case WriteRetry(k, error, now, random) =>
      UpdateConserves(w, w.seen[k].0, (e: Entry) => Rescheduled(e, w.seen[k].1 + 1, error, now, random));
    case Reopen(id, now) => UpdateConserves(w, id, (e: Entry) => Reopened(e, now));
    case Reset => NothingToConserve();
    case _ => RemoveConserves(w, s);
  }

  lemma NothingToConserve()
    ensures Conserved(INITIAL)
  {
  }

  /**
   * Over every run, each accepted request is queued, committed or deleted; while queued,
   * its entry holds exactly what was handed in, and its payload is sanitized.
   */
  lemma {:induction false} EveryRunConserves(run: seq<Step>)
    requires After(run).Some?
    ensures Conserved(After(run).value)
  {
    hide Next, Conserved, Enabled;
    if |run| > 0 {
      EveryRunConserves(run[..|run| - 1]);
      StepConserves(After(run[..|run| - 1]).value, run[|run| - 1]);
    } else {
      NothingToConserve();
    }
  }

  /** So sequences are unique and at most the stored counter, and an enqueue fails only on a duplicate id. */
  lemma SequencesAreUnique(run: seq<Step>)
    requires After(run).Some?
    ensures var q := After(run).value.queue;
      UniqueSequences(q) && (forall id :: id in q.entries ==> 1 <= q.entries[id].sequence <= q.counter) &&
      !SequenceTaken(q, q.counter + 1)
  {
    hide After, Sanitized;
    EveryRunConserves(run);
    var w := After(run).value;
    forall id | id in w.queue.entries
      ensures 1 <= w.queue.entries[id].sequence <= |w.log| && IdOf(w.log[w.queue.entries[id].sequence - 1]) == id
    {
      assert AsRequested(w, id);
    }
  }

  /** Every queued entry comes from a step of the run that handed in just what it holds. */
  lemma EntryIsAsAdded(run: seq<Step>, id: Id) returns (j: nat)
    requires After(run).Some? && id in After(run).value.queue.entries
    ensures j < |run| && run[j].Add?
    ensures var e := After(run).value.queue.entries[id]; var r := run[j].request;
      e.command == r.command && e.createdAt == r.now && Sanitized(e.command.payload) &&
      (if r.chosen.Some? then id == r.chosen.value else id == r.uuid) &&
      (if r.idempotencyKey.Some? then e.idempotencyKey == r.idempotencyKey.value else e.idempotencyKey == id)
  {
    hide After, Sanitized;
    EveryRunConserves(run);
    var w := After(run).value;
    assert AsRequested(w, id);
    j := LoggedByAdd(run, w.queue.entries[id].sequence);
  }

  lemma {:induction false} LoggedByAdd(run: seq<Step>, n: nat) returns (j: nat)
    requires After(run).Some? && 1 <= n <= |After(run).value.log|
    ensures j < |run| && run[j] == Add(After(run).value.log[n - 1])
  {
    hide Enqueue, Update;
    var w := After(run[..|run| - 1]).value;
    if n <= |w.log| && !run[|run| - 1].Reset? {
      j := LoggedByAdd(run[..|run| - 1], n);
    } else {
      j := |run| - 1;
    }
  }

  /** An accepted operation is due at once; a reopened one too; a dead or conflicting one never. */
  lemma DueAfter(w: World, s: Step, later: int)
    requires Enabled(w, s)
    ensures s.Add? && Next(w, s) != w && later >= s.request.now ==>
      IdOf(s.request) in Next(w, s).queue.entries && Eligible(Next(w, s).queue.entries[IdOf(s.request)], later)
    ensures s.Reopen? && s.id in w.queue.entries && later >= s.now ==> Eligible(Next(w, s).queue.entries[s.id], later)
    ensures s.End? && s.id in w.queue.entries ==> !Eligible(Next(w, s).queue.entries[s.id], later)
  {
    hide Sanitized, SequenceTaken;
  }

  /** In every run an operation is accepted exactly if it is well formed, sanitized and its id is new. */
  lemma AcceptedExactly(run: seq<Step>, command: Command, chosen: Option<Id>, key: Option<Text>, uuid: Id, now: int)
    requires After(run).Some?
    ensures var q := After(run).value.queue;
      Enqueue(q, command, chosen, key, uuid, now).1.Ok? <==>
        IsPositiveInteger(command.payloadVersion) && Sanitized(command.payload) &&
        (if chosen.Some? then chosen.value else uuid) !in q.entries
  {
    hide After, Sanitized, UniqueSequences;
    SequencesAreUnique(run);
  }

  /** A rescheduled entry is not delivered again for at least 850 ms, nor later than 345 s. */
  lemma RetriedEntryWaits(w: World, s: Step, later: int)
    requires Enabled(w, s) && s.WriteRetry? && w.seen[s.read].0 in w.queue.entries
    ensures var e := Next(w, s).queue.entries[w.seen[s.read].0];
      (later < s.now + 850 ==> !Eligible(e, later)) && (later >= s.now + 345_000 ==> Eligible(e, later))
  {
    hide DelayMs;
    DelayBounds(w.seen[s.read].1, s.random);
  }
}
