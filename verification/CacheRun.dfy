/**
 * Interleaved runs of cache operations, one table write at a time. An operation may
 * crash between its writes; job deletion runs only when none is under way.
 */
module CacheRun {
  import opened JsText
  import opened JsonTree
  import opened AiCache

  datatype Stored = Stored(row: Row, value: Json)

  /** An operation, with what it read before its first write. */
  datatype Job =
    | Storing(id: RowId)
    | Expiring(id: RowId)
    | Dropping(id: RowId)
    | Invalidating(hash: Option<Text>, ids: set<RowId>)

  /** `done` counts the writes made; at the end of the program the operation is over. */
  datatype Thread = Thread(job: Job, done: nat)

  /** `stores` are the results ever to be stored, by row id; `placed` are the rows written so far. */
  datatype World = World(tables: Tables, threads: seq<Thread>, stores: map<RowId, Stored>, placed: set<RowId>)

  function StoreKey(w: World, id: RowId): Text
    requires id in w.stores
  {
    KeyOf(w.stores[id].row)
  }

  function Program(w: World, job: Job): seq<Write> {
    match job
    case Storing(id) => if id in w.stores then StoreProgram(id, w.stores[id].row, w.stores[id].value) else []
    case Expiring(id) => if id in w.stores then ExpireProgram(id, w.stores[id].row) else []
    case Dropping(id) => [DeleteRow(id)]
    case Invalidating(hash, ids) => InvalidateProgram(hash, set id | id in ids && id in w.stores :: StoreKey(w, id))
  }

  datatype Step =
    | BeginStore(id: RowId, row: Row, value: Json)
    | BeginExpire(id: RowId)
    | BeginDrop(id: RowId)
    | BeginInvalidate(hash: Option<Text>)
    | Advance(thread: nat)
    | Crash(thread: nat)
    | Cascade(ids: set<RowId>, keys: set<Text>)

  predicate Over(w: World, t: Thread) {
    t.done >= |Program(w, t.job)|
  }

  /** Row ids and result ids are fresh; a deletion of keys covers every row that uses one. */
  predicate Enabled(w: World, s: Step) {
    match s
    case BeginStore(id, row, _) =>
      id !in w.stores && KeyOf(row) !in w.tables.meta &&
      forall other :: other in w.stores ==> StoreKey(w, other) != KeyOf(row)
    case BeginExpire(id) => id in w.tables.rows
    case BeginDrop(_) => true
    case BeginInvalidate(_) => true
    case Advance(t) => t < |w.threads| && !Over(w, w.threads[t])
    case Crash(t) => t < |w.threads|
    case Cascade(ids, keys) =>
      (forall t :: 0 <= t < |w.threads| ==> Over(w, w.threads[t])) &&
      forall id :: id in w.tables.rows && KeyOf(w.tables.rows[id]) in keys ==> id in ids
  }

  function Next(w: World, s: Step): World
    requires Enabled(w, s)
  {
    match s
    case BeginStore(id, row, value) =>
      w.(stores := w.stores[id := Stored(row, value)], threads := w.threads + [Thread(Storing(id), 0)])
    case BeginExpire(id) => w.(threads := w.threads + [Thread(Expiring(id), 0)])
    case BeginDrop(id) => w.(threads := w.threads + [Thread(Dropping(id), 0)])
    case BeginInvalidate(hash) => w.(threads := w.threads + [Thread(Invalidating(hash, Selected(w.tables, hash)), 0)])
    case Advance(t) =>
      var thread := w.threads[t];
      var write := Program(w, thread.job)[thread.done];
      w.(tables := Apply(w.tables, write), threads := w.threads[t := thread.(done := thread.done + 1)],
         placed := if write.PutRow? then w.placed + {write.id} else w.placed)
    case Crash(t) => w.(threads := w.threads[t := w.threads[t].(done := |Program(w, w.threads[t].job)|)])
    case Cascade(ids, keys) => w.(tables := Tables(w.tables.meta - keys, w.tables.rows - ids))
  }

  function After(run: seq<Step>): Option<World> {
    if |run| == 0 then Some(World(Tables(map[], map[]), [], map[], {}))
    else
      var w :- After(run[..|run| - 1]);
      if Enabled(w, run[|run| - 1]) then Some(Next(w, run[|run| - 1])) else None
  }

  // ----- The invariant -----

  /** Rows and values are those of their stores, and no two stores share a value. */
  predicate Known(w: World) {
    w.tables.rows.Keys <= w.placed <= w.stores.Keys &&
    (forall id :: id in w.tables.rows ==> w.tables.rows[id] == w.stores[id].row) &&
    (forall id :: id in w.stores && StoreKey(w, id) in w.tables.meta ==>
      w.tables.meta[StoreKey(w, id)] == w.stores[id].value) &&
    (forall id, other :: id in w.stores && other in w.stores && id != other ==> StoreKey(w, id) != StoreKey(w, other))
  }

  /** What an operation under way relies on. */
  predicate Ready(w: World, t: Thread) {
    match t.job
    case Storing(id) =>
      id in w.stores && (t.done < 2 ==> id !in w.placed) && (t.done == 1 ==> StoreKey(w, id) in w.tables.meta)
    case Expiring(id) => id in w.placed && (t.done == 1 ==> id !in w.tables.rows)
    case Dropping(_) => true
    case Invalidating(hash, ids) =>
      ids <= w.placed && (forall id :: id in ids && id in w.stores ==> Selects(hash, w.stores[id].row)) &&
      (t.done == 1 ==> Over(w, t) || ids !! w.tables.rows.Keys)
  }

  predicate ThreadsReady(w: World) {
    (forall t :: 0 <= t < |w.threads| ==> Ready(w, w.threads[t])) &&
    (forall t, u :: 0 <= t < u < |w.threads| && w.threads[t].job.Storing? ==> w.threads[t].job != w.threads[u].job)
  }

  predicate Invariant(w: World) {
    Known(w) && Backed(w.tables) && ThreadsReady(w)
  }

  // ----- Every step keeps it -----

  /** Nothing written before is written again, and stores are only added. */
  predicate Extends(w: World, w': World) {
    w.stores.Keys <= w'.stores.Keys && (forall id :: id in w.stores ==> w'.stores[id] == w.stores[id]) &&
    w.placed <= w'.placed &&
    (forall id :: id in w.placed && id in w'.tables.rows ==> id in w.tables.rows)
  }

  lemma ProgramKept(w: World, w': World, job: Job)
    requires Known(w) && Extends(w, w')
    requires job.Storing? ==> job.id in w.stores
    requires job.Expiring? ==> job.id in w.placed
    requires job.Invalidating? ==> job.ids <= w.placed
    ensures Program(w', job) == Program(w, job)
  {
    if job.Invalidating? {
      assert (set id | id in job.ids && id in w'.stores :: StoreKey(w', id)) ==
             (set id | id in job.ids && id in w.stores :: StoreKey(w, id));
    }
  }

  /** An operation stays ready if the store it waits to finish keeps its value. */
  lemma ReadyKept(w: World, w': World, t: Thread)
    requires Known(w) && Extends(w, w') && Ready(w, t)
    requires t.job.Storing? && t.done < 2 ==> t.job.id !in w'.placed
    requires t.job.Storing? && t.done == 1 ==> StoreKey(w, t.job.id) in w'.tables.meta
    ensures Ready(w', t)
  {
    ProgramKept(w, w', t.job);
  }

  lemma BeginStoreKeeps(w: World, s: Step)
    requires Invariant(w) && Enabled(w, s) && s.BeginStore?
    ensures Invariant(Next(w, s))
  {
    hide KeyOf, Program, Over;
    var w' := Next(w, s);
    forall t | 0 <= t < |w.threads| ensures Ready(w', w.threads[t]) {
      assert Ready(w, w.threads[t]);
      ReadyKept(w, w', w.threads[t]);
    }
  }

  lemma BeginKeeps(w: World, s: Step)
    requires Invariant(w) && Enabled(w, s) && (s.BeginExpire? || s.BeginDrop? || s.BeginInvalidate?)
    ensures Invariant(Next(w, s))
  {
    hide KeyOf, Program, Over;
    var w' := Next(w, s);
    forall t | 0 <= t < |w.threads| ensures Ready(w', w.threads[t]) {
      assert Ready(w, w.threads[t]);
      ReadyKept(w, w', w.threads[t]);
    }
    assert Ready(w', w'.threads[|w.threads|]);
  }

  lemma CrashKeeps(w: World, t: nat)
    requires Invariant(w) && Enabled(w, Crash(t))
    ensures Invariant(Next(w, Crash(t)))
  {
    hide KeyOf;
    var w' := Next(w, Crash(t));
    forall u | 0 <= u < |w.threads| ensures Ready(w', w'.threads[u]) {
      assert Ready(w, w.threads[u]);
      ReadyKept(w, w', w.threads[u]);
    }
  }

  /** A cascade runs alone, so only the rows it leaves matter. */
  lemma CascadeKeeps(w: World, s: Step)
    requires Invariant(w) && Enabled(w, s) && s.Cascade?
    ensures Invariant(Next(w, s))
  {
    hide KeyOf;
    var w' := Next(w, s);
    forall t | 0 <= t < |w.threads| ensures Ready(w', w.threads[t]) {
      assert Ready(w, w.threads[t]) && Over(w, w.threads[t]);
      ReadyKept(w, w', w.threads[t]);
    }
  }

  /** Once the advanced thread and what the others wait for are settled, all threads are ready. */
  lemma AdvanceReadies(w: World, w': World, t: nat)
    requires Known(w) && ThreadsReady(w) && t < |w.threads| && Extends(w, w')
    requires w'.threads == w.threads[t := w.threads[t].(done := w.threads[t].done + 1)]
    requires Ready(w', w'.threads[t])
    requires forall u :: 0 <= u < |w.threads| && u != t && w.threads[u].job.Storing? ==>
      (w.threads[u].done < 2 ==> w.threads[u].job.id !in w'.placed) &&
      (w.threads[u].done == 1 ==> StoreKey(w, w.threads[u].job.id) in w'.tables.meta)
    ensures ThreadsReady(w')
  {
    hide KeyOf, Ready, Program, Known;
    forall u | 0 <= u < |w.threads| ensures Ready(w', w'.threads[u]) {
      if u != t {
        assert Ready(w, w.threads[u]);
        ReadyKept(w, w', w.threads[u]);
      }
    }
  }

  lemma OtherStores(w: World, t: nat)
    requires ThreadsReady(w) && t < |w.threads| && w.threads[t].job.Storing?
    ensures forall u :: 0 <= u < |w.threads| && u != t && w.threads[u].job.Storing? ==>
      w.threads[u].job.id != w.threads[t].job.id && Ready(w, w.threads[u])
  {
    hide Ready;
    forall u | 0 <= u < |w.threads| && u != t && w.threads[u].job.Storing?
      ensures w.threads[u].job.id != w.threads[t].job.id
    {
      assert w.threads[u].job != w.threads[t].job;
    }
  }

  lemma AdvanceValue(w: World, t: nat)
    requires Invariant(w) && Enabled(w, Advance(t)) && w.threads[t].job.Storing? && w.threads[t].done == 0
    ensures Invariant(Next(w, Advance(t)))
  {
    hide KeyOf, ExpireProgram, InvalidateProgram;
    var w' := Next(w, Advance(t));
    assert Ready(w, w.threads[t]);
    OtherStores(w, t);
    AdvanceReadies(w, w', t);
  }

  lemma PlaceRow(w: World, w': World, id: RowId)
    requires Known(w) && Backed(w.tables) && id in w.stores && StoreKey(w, id) in w.tables.meta && id !in w.placed
    requires w' == w.(threads := w'.threads, placed := w.placed + {id},
      tables := w.tables.(rows := w.tables.rows[id := w.stores[id].row]))
    ensures Known(w') && Backed(w'.tables) && Extends(w, w')
  {
    hide KeyOf;
  }

  lemma AdvanceRow(w: World, t: nat)
    requires Invariant(w) && Enabled(w, Advance(t)) && w.threads[t].job.Storing? && w.threads[t].done > 0
    ensures Invariant(Next(w, Advance(t)))
  {
    hide KeyOf, ExpireProgram, InvalidateProgram;
    var w' := Next(w, Advance(t));
    assert Ready(w, w.threads[t]);
    PlaceRow(w, w', w.threads[t].job.id);
    OtherStores(w, t);
    hide Known, Backed;
    AdvanceReadies(w, w', t);
  }

  /** Rows go, values stay. */
  lemma AdvanceRows(w: World, t: nat)
    requires Invariant(w) && Enabled(w, Advance(t)) && !w.threads[t].job.Storing? && w.threads[t].done == 0
    ensures Invariant(Next(w, Advance(t)))
  {
    hide KeyOf;
    var w' := Next(w, Advance(t));
    assert Ready(w, w.threads[t]);
    assert w'.tables.rows.Keys <= w.tables.rows.Keys && w'.tables.meta == w.tables.meta;
    assert Ready(w', w'.threads[t]) by {
      ProgramKept(w, w', w.threads[t].job);
    }
    forall u | 0 <= u < |w.threads| && u != t && w.threads[u].job.Storing?
      ensures w.threads[u].done == 1 ==> StoreKey(w, w.threads[u].job.id) in w'.tables.meta
    {
      assert Ready(w, w.threads[u]);
    }
    AdvanceReadies(w, w', t);
  }

  /** The rows whose values an operation deletes last. */
  function Leaving(job: Job): set<RowId> {
    match job
    case Expiring(id) => {id}
    case Invalidating(_, ids) => ids
    case _ => {}
  }

  /** Values go, but only of rows that are gone. */
  lemma DropValues(w: World, w': World, ids: set<RowId>, keys: set<Text>)
    requires Known(w) && Backed(w.tables) && ids <= w.placed && ids !! w.tables.rows.Keys
    requires keys == set id | id in ids && id in w.stores :: StoreKey(w, id)
    requires w' == w.(threads := w'.threads, tables := Tables(w.tables.meta - keys, w.tables.rows))
    ensures Known(w') && Backed(w'.tables) && Extends(w, w')
    ensures forall id :: id in w.stores && id !in w.placed && StoreKey(w, id) in w.tables.meta ==>
      StoreKey(w, id) in w'.tables.meta
  {
    hide KeyOf;
  }

  lemma AdvanceValues(w: World, t: nat)
    requires Invariant(w) && Enabled(w, Advance(t)) && !w.threads[t].job.Storing? && w.threads[t].done >= 1
    ensures Invariant(Next(w, Advance(t)))
  {
    hide KeyOf, Known;
    var w' := Next(w, Advance(t));
    var ids := Leaving(w.threads[t].job);
    assert Ready(w, w.threads[t]);
    var keys := set id | id in ids && id in w.stores :: StoreKey(w, id);
    ValuesToDrop(w, t, keys);
    DropValues(w, w', ids, keys);
    forall u | 0 <= u < |w.threads| && u != t && w.threads[u].job.Storing? && w.threads[u].done == 1
      ensures StoreKey(w, w.threads[u].job.id) in w'.tables.meta
    {
      assert Ready(w, w.threads[u]);
    }
    assert Ready(w', w'.threads[t]) by {
      ProgramKept(w, w', w.threads[t].job);
    }
    hide Ready, Program;
    AdvanceReadies(w, w', t);
  }

  lemma ValuesToDrop(w: World, t: nat, keys: set<Text>)
    requires Known(w) && Enabled(w, Advance(t)) && !w.threads[t].job.Storing? && w.threads[t].done >= 1
    requires Ready(w, w.threads[t])
    requires keys == set id | id in Leaving(w.threads[t].job) && id in w.stores :: StoreKey(w, id)
    ensures w.threads[t].done == 1 && Program(w, w.threads[t].job)[1] == DeleteMeta(keys)
    ensures Leaving(w.threads[t].job) <= w.placed && Leaving(w.threads[t].job) !! w.tables.rows.Keys
  {
    hide KeyOf;
  }

  lemma StepKeeps(w: World, s: Step)
    requires Invariant(w) && Enabled(w, s)
    ensures Invariant(Next(w, s))
  {
    hide Invariant, Next;
    match s
    case Advance(t) =>
      match (w.threads[t].job.Storing?, w.threads[t].done == 0) {
        case (true, true) => AdvanceValue(w, t);
        case (true, false) => AdvanceRow(w, t);
        case (false, true) => AdvanceRows(w, t);
        case (false, false) => AdvanceValues(w, t);
      }
    case Crash(t) => CrashKeeps(w, t);
    case Cascade(_, _) => CascadeKeeps(w, s);
    case BeginStore(_, _, _) => BeginStoreKeeps(w, s);
    case _ => BeginKeeps(w, s);
  }

  lemma EmptyWorld()
    ensures Invariant(World(Tables(map[], map[]), [], map[], {}))
  {
  }

  lemma {:induction false} EveryRunKeeps(run: seq<Step>)
    requires After(run).Some?
    ensures Invariant(After(run).value)
  {
    hide Next, Invariant, Enabled;
    if |run| > 0 {
      EveryRunKeeps(run[..|run| - 1]);
      StepKeeps(After(run[..|run| - 1]).value, run[|run| - 1]);
    } else {
      EmptyWorld();
    }
  }

  /** After every single write of every run, each cache row still has its value. */
  lemma EveryRowIsBacked(run: seq<Step>)
    requires After(run).Some?
    ensures Backed(After(run).value.tables)
  {
    hide After;
    EveryRunKeeps(run);
  }

  // ----- Hits -----

  lemma {:induction false} StoreWasBegun(run: seq<Step>, id: RowId) returns (j: nat)
    requires After(run).Some? && id in After(run).value.stores
    ensures j < |run|
    ensures run[j] == BeginStore(id, After(run).value.stores[id].row, After(run).value.stores[id].value)
  {
    var w := After(run[..|run| - 1]).value;
    if id in w.stores {
      j := StoreWasBegun(run[..|run| - 1], id);
    } else {
      j := |run| - 1;
    }
  }

  lemma StepStores(w: World, s: Step)
    requires Enabled(w, s)
    ensures forall id :: id in w.stores ==> id in Next(w, s).stores && Next(w, s).stores[id] == w.stores[id]
  {
    hide Program;
  }

  lemma {:induction false} StoresStay(run: seq<Step>, k: nat)
    requires After(run).Some? && k <= |run|
    ensures After(run[..k]).Some?
    ensures forall id :: id in After(run[..k]).value.stores ==>
      id in After(run).value.stores && After(run).value.stores[id] == After(run[..k]).value.stores[id]
  {
    hide Enabled, Next;
    if k == |run| {
      assert run[..k] == run;
    } else {
      StoresStay(run[..|run| - 1], k);
      StepStores(After(run[..|run| - 1]).value, run[|run| - 1]);
      assert run[..|run| - 1][..k] == run[..k];
    }
  }

  /**
   * A lookup reads its row and, after any number of writes by others, the row's value.
   * Whatever it returns was stored before under the very things it asked for.
   */
  lemma HitWasStored(run: seq<Step>, k: nat, id: RowId, q: Query, value: Json) returns (j: nat)
    requires After(run).Some? && k <= |run| && After(run[..k]).Some?
    requires id in After(run[..k]).value.tables.rows && Matches(After(run[..k]).value.tables.rows[id], q)
    requires Load(After(run).value.tables, After(run[..k]).value.tables.rows[id]) == Some(value)
    ensures j < k && run[j].BeginStore? && run[j].id == id && Matches(run[j].row, q)
    ensures Loaded(q.kind, run[j].value) == Some(value)
    ensures var row := run[j].row;
      (row.kind, row.inputHash, row.provider, row.model, row.promptVersion) ==
        (q.kind, q.inputHash, q.provider, q.model, q.promptVersion) &&
      (q.planHash.Some? ==> row.planHash == q.planHash)
    ensures q.kind.AnalysisResult? ==> value == run[j].value
    ensures q.kind.LetterResult? ==> forall letter, jobId :: run[j].value == LetterValue(letter, jobId) ==> value == String(letter)
  {
    MatchesNames(q);
    LoadedAsStored();
    hide After, Matches, Loaded;
    EveryRunKeeps(run[..k]);
    EveryRunKeeps(run);
    j := StoreWasBegun(run[..k], id);
    StoresStay(run, k);
    hide Invariant, Known;
    var early, late := After(run[..k]).value, After(run).value;
    RowIsStored(early, id);
    ValueIsStored(late, id);
    assert early.tables.rows[id].kind == q.kind by { MatchesKind(early.tables.rows[id], q); }
  }

  lemma LoadedAsStored()
    ensures forall v, w {:trigger Loaded(AnalysisResult, v), Some(w)} :: Loaded(AnalysisResult, v) == Some(w) ==> w == v
    ensures forall letter, jobId {:trigger LetterValue(letter, jobId)} ::
      Loaded(LetterResult, LetterValue(letter, jobId)) == Some(String(letter))
  {
    forall letter, jobId ensures Loaded(LetterResult, LetterValue(letter, jobId)) == Some(String(letter)) {
      LetterRoundTrip(letter, jobId);
    }
  }

  lemma MatchesNames(q: Query)
    ensures forall row: Row {:trigger Matches(row, q)} :: Matches(row, q) ==>
      (row.kind, row.inputHash, row.provider, row.model, row.promptVersion) ==
        (q.kind, q.inputHash, q.provider, q.model, q.promptVersion) &&
      (q.planHash.Some? ==> row.planHash == q.planHash)
  {
  }

  lemma MatchesKind(row: Row, q: Query)
    requires Matches(row, q)
    ensures row.kind == q.kind
  {
  }

  lemma RowIsStored(w: World, id: RowId)
    requires Invariant(w) && id in w.tables.rows
    ensures id in w.stores && w.stores[id].row == w.tables.rows[id]
  {
  }

  lemma ValueIsStored(w: World, id: RowId)
    requires Invariant(w) && id in w.stores
    ensures StoreKey(w, id) in w.tables.meta ==> w.tables.meta[StoreKey(w, id)] == w.stores[id].value
  {
  }
}
