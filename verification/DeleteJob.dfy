/** Per-vacancy deletion and the full reset: what goes, what stays, and when neither may run. */
module DeleteJob {
  import opened JsText
  import opened JsonTree
  import opened JsonPaths
  import opened AiCache
  import CacheRun
  import AiLedger
  import Companion
  import LedgerRun
  import Outbox

  // ----- Mentions of a vacancy inside stored values -----

  /** The two names of a vacancy: its local id and its id at the source. */
  datatype Vacancy = Vacancy(jobId: Text, sourceVacancyId: Text)

  const TARGET_KEYS: set<Text> := {
    Lit("jobId"), Lit("job_id"), Lit("sourceVacancyId"), Lit("source_vacancy_id"), Lit("vacancyId"),
    Lit("vacancy_id"), Lit("sourceId"), Lit("source_id"), Lit("entityId"), Lit("entity_id")}

  predicate IsName(v: Json, target: Vacancy) {
    v == String(target.jobId) || v == String(target.sourceVacancyId)
  }

  predicate IsHit(f: Field, target: Vacancy) {
    f.key in TARGET_KEYS && IsName(f.value, target)
  }

  predicate ContainsTarget(v: Json, target: Vacancy) {
    match v
    case Array(items) => exists i :: 0 <= i < |items| && ContainsTarget(items[i], target)
    case Object(fields) => exists i :: 0 <= i < |fields| && (IsHit(fields[i], target) || ContainsTarget(fields[i].value, target))
    case _ => false
  }

  predicate NamesIt(v: Json, target: Vacancy) {
    v.Object? && exists i :: 0 <= i < |v.fields| && IsHit(v.fields[i], target)
  }

  predicate NamedAt(v: Json, path: seq<nat>, target: Vacancy) {
    At(v, path).Some? && NamesIt(At(v, path).value, target)
  }

  /** Somewhere in the value, at any depth, a target key names the vacancy. */
  ghost predicate Mentions(v: Json, target: Vacancy) {
    exists path: seq<nat> :: NamedAt(v, path, target)
  }

  lemma {:induction false} TargetHasPath(v: Json, target: Vacancy) returns (path: seq<nat>)
    requires ContainsTarget(v, target)
    ensures NamedAt(v, path, target)
  {
    hide IsHit;
    if NamesIt(v, target) {
      return [];
    }
    var i: nat;
    match v {
      case Array(items) => i :| 0 <= i < |items| && ContainsTarget(items[i], target);
      case Object(fields) => i :| 0 <= i < |fields| && ContainsTarget(fields[i].value, target);
    }
    var rest := TargetHasPath(Children(v)[i], target);
    AtChild(v, i, rest);
    return [i] + rest;
  }

  lemma {:induction false} PathIsFound(v: Json, path: seq<nat>, target: Vacancy)
    requires NamedAt(v, path, target)
    ensures ContainsTarget(v, target)
    decreases |path|
  {
    hide IsHit;
    if |path| > 0 {
      PathIsFound(Children(v)[path[0]], path[1..], target);
    }
  }

  /** The search finds exactly the values that mention the vacancy. */
  lemma ContainsTargetIsMention(v: Json, target: Vacancy)
    ensures ContainsTarget(v, target) <==> Mentions(v, target)
  {
    hide ContainsTarget, NamedAt;
    if ContainsTarget(v, target) {
      var path := TargetHasPath(v, target);
    }
    if Mentions(v, target) {
      var path: seq<nat> :| NamedAt(v, path, target);
      PathIsFound(v, path, target);
    }
  }

  /** An object with either name under any of the ten keys mentions the vacancy, wherever the object is. */
  lemma NamedFieldIsMention(v: Json, path: seq<nat>, i: nat, target: Vacancy)
    requires At(v, path).Some? && At(v, path).value.Object? && i < |At(v, path).value.fields|
    requires At(v, path).value.fields[i].key in {
      Lit("jobId"), Lit("job_id"), Lit("vacancyId"), Lit("vacancy_id"), Lit("entityId"), Lit("entity_id"),
      Lit("sourceId"), Lit("source_id"), Lit("sourceVacancyId"), Lit("source_vacancy_id")}
    requires At(v, path).value.fields[i].value in {String(target.jobId), String(target.sourceVacancyId)}
    ensures Mentions(v, target)
  {
    hide At, Lit;
    assert IsHit(At(v, path).value.fields[i], target);
    assert NamedAt(v, path, target);
  }

  /** And nothing mentions it in which neither name stands as a string. */
  lemma MentionHasName(v: Json, target: Vacancy) returns (path: seq<nat>)
    requires Mentions(v, target)
    ensures At(v, path) == Some(String(target.jobId)) || At(v, path) == Some(String(target.sourceVacancyId))
  {
    hide TARGET_KEYS;
    var to: seq<nat> :| NamedAt(v, to, target);
    var i :| 0 <= i < |At(v, to).value.fields| && IsHit(At(v, to).value.fields[i], target);
    var at := At(v, to).value;
    path := to + [i];
    AtChildOf(v, to, i);
  }

  lemma {:induction false} AtChildOf(v: Json, path: seq<nat>, i: nat)
    requires At(v, path).Some? && i < |Children(At(v, path).value)|
    ensures At(v, path + [i]) == Some(Children(At(v, path).value)[i])
    decreases |path|
  {
    if |path| > 0 {
      assert (path + [i])[1..] == path[1..] + [i];
      AtChildOf(Children(v)[path[0]], path[1..], i);
    } else {
      assert [i][1..] == [];
    }
  }

  // ----- The local tables -----

  type Id = Text

  /** A row with the column that links it and the rest of its content. */
  datatype Linked = Linked(link: Option<Text>, content: Json)

  datatype Job = Job(sourceVacancyId: Text, content: Json)

  datatype OpsRow = OpsRow(entityId: Text, payload: Json)

  datatype Data = Data(
    jobs: map<Id, Job>,
    coverLetters: map<Id, Linked>,
    applications: map<Id, Linked>,
    events: map<Id, Linked>,
    hrTimeline: map<Id, Linked>,
    visitMarks: map<Id, Linked>,
    labsActions: map<Id, Linked>,
    cache: Tables,
    syncOutbox: map<Id, Outbox.Entry>,
    opsCache: map<Id, OpsRow>)

  function RowsLinked(t: map<Id, Linked>, link: Text): set<Id> {
    set id | id in t && t[id].link == Some(link)
  }

  /** Timeline rows link to an application, which links to the job. */
  function TimelineLinked(d: Data, target: Vacancy): set<Id> {
    set id | id in d.hrTimeline && d.hrTimeline[id].link.Some? &&
      d.hrTimeline[id].link.value in RowsLinked(d.applications, target.jobId)
  }

  predicate IsResultKey(key: Text) {
    Lit(ANALYSIS_PREFIX) <= key || Lit(LETTER_PREFIX) <= key
  }

  ghost function ValuesLinked(t: Tables, target: Vacancy): set<Text> {
    set key | key in t.meta && IsResultKey(key) && Mentions(t.meta[key], target)
  }

  /** A cache row goes with any result value of its reference, analysis or letter. */
  ghost function CacheLinked(t: Tables, target: Vacancy): set<Id> {
    set id | id in t.rows &&
      (MetaKey(AnalysisResult, t.rows[id].resultRef) in ValuesLinked(t, target) ||
       MetaKey(LetterResult, t.rows[id].resultRef) in ValuesLinked(t, target))
  }

  ghost function OutboxLinked(d: Data, target: Vacancy): set<Id> {
    set id | id in d.syncOutbox && Mentions(d.syncOutbox[id].command.payload, target)
  }

  ghost function OpsLinked(d: Data, target: Vacancy): set<Id> {
    set id | id in d.opsCache &&
      (d.opsCache[id].entityId == target.jobId || d.opsCache[id].entityId == target.sourceVacancyId ||
       Mentions(d.opsCache[id].payload, target))
  }

  ghost function CacheWithout(t: Tables, target: Vacancy): Tables {
    Tables(t.meta - ValuesLinked(t, target), t.rows - CacheLinked(t, target))
  }

  /** Exactly the rows linked to the vacancy are gone. */
  ghost function Without(d: Data, target: Vacancy): Data {
    Data(
      d.jobs - {target.jobId},
      d.coverLetters - RowsLinked(d.coverLetters, target.jobId),
      d.applications - RowsLinked(d.applications, target.jobId),
      d.events - RowsLinked(d.events, target.jobId),
      d.hrTimeline - TimelineLinked(d, target),
      d.visitMarks - RowsLinked(d.visitMarks, target.sourceVacancyId),
      d.labsActions - RowsLinked(d.labsActions, target.jobId),
      CacheWithout(d.cache, target),
      d.syncOutbox - OutboxLinked(d, target),
      d.opsCache - OpsLinked(d, target))
  }

  /** Nothing in the tables links to the vacancy, by column or at any depth of a payload. */
  ghost predicate Clean(d: Data, target: Vacancy) {
    target.jobId !in d.jobs &&
    RowsLinked(d.coverLetters, target.jobId) == {} && RowsLinked(d.applications, target.jobId) == {} &&
    RowsLinked(d.events, target.jobId) == {} && RowsLinked(d.labsActions, target.jobId) == {} &&
    RowsLinked(d.visitMarks, target.sourceVacancyId) == {} &&
    ValuesLinked(d.cache, target) == {} && OutboxLinked(d, target) == {} && OpsLinked(d, target) == {}
  }

  lemma NothingLinkedRemains(d: Data, target: Vacancy)
    ensures Clean(Without(d, target), target)
    ensures forall id :: id in Without(d, target).hrTimeline ==> id !in TimelineLinked(d, target)
  {
    hide Mentions, IsResultKey, MetaKey, Lit;
    var d' := Without(d, target);
    assert RowsLinked(d'.coverLetters, target.jobId) == {};
    assert RowsLinked(d'.applications, target.jobId) == {};
    assert RowsLinked(d'.events, target.jobId) == {};
    assert RowsLinked(d'.labsActions, target.jobId) == {};
    assert RowsLinked(d'.visitMarks, target.sourceVacancyId) == {};
    assert ValuesLinked(d'.cache, target) == {};
    assert OutboxLinked(d', target) == {};
    assert OpsLinked(d', target) == {};
  }

  /** A cache row whose value goes, goes with it: with no cache operation under way, the deletion is a step of a cache run. */
  lemma DeletionIsACascade(w: CacheRun.World, target: Vacancy)
    requires forall t :: 0 <= t < |w.threads| ==> CacheRun.Over(w, w.threads[t])
    ensures var step := CacheRun.Cascade(CacheLinked(w.tables, target), ValuesLinked(w.tables, target));
      CacheRun.Enabled(w, step) && CacheRun.Next(w, step) == w.(tables := CacheWithout(w.tables, target))
    ensures Backed(w.tables) ==> Backed(CacheWithout(w.tables, target))
  {
    hide Mentions, IsResultKey, ValuesLinked, CacheRun.Over;
    var t := w.tables;
    forall id | id in t.rows && KeyOf(t.rows[id]) in ValuesLinked(t, target) ensures id in CacheLinked(t, target) {
      assert KeyOf(t.rows[id]) == MetaKey(t.rows[id].kind, t.rows[id].resultRef);
    }
  }

  /** No timeline row loses its application. */
  lemma TimelineKeepsItsApplications(d: Data, target: Vacancy)
    requires forall id :: id in d.hrTimeline && d.hrTimeline[id].link.Some? ==> d.hrTimeline[id].link.value in d.applications
    ensures var d' := Without(d, target);
      forall id :: id in d'.hrTimeline && d'.hrTimeline[id].link.Some? ==> d'.hrTimeline[id].link.value in d'.applications
  {
    hide Mentions, CacheWithout, OutboxLinked, OpsLinked;
  }

  // ----- What stays -----

  /** Of the rows with a column, those of another vacancy stay as they are, and no others. */
  lemma OtherRowsStay(d: Data, target: Vacancy)
    ensures var d' := Without(d, target); var (job, source) := (Some(target.jobId), Some(target.sourceVacancyId));
      d'.jobs == (map id | id in d.jobs && id != target.jobId :: d.jobs[id]) &&
      d'.coverLetters == (map id | id in d.coverLetters && d.coverLetters[id].link != job :: d.coverLetters[id]) &&
      d'.applications == (map id | id in d.applications && d.applications[id].link != job :: d.applications[id]) &&
      d'.events == (map id | id in d.events && d.events[id].link != job :: d.events[id]) &&
      d'.labsActions == (map id | id in d.labsActions && d.labsActions[id].link != job :: d.labsActions[id]) &&
      d'.visitMarks == map id | id in d.visitMarks && d.visitMarks[id].link != source :: d.visitMarks[id]
  {
    hide Mentions, CacheWithout, OutboxLinked, OpsLinked, TimelineLinked;
  }

  /** A timeline row goes exactly with an application of the vacancy. */
  lemma OtherTimelineStays(d: Data, target: Vacancy)
    ensures var d' := Without(d, target);
      d'.hrTimeline.Keys <= d.hrTimeline.Keys &&
      forall id :: id in d.hrTimeline ==>
        var link := d.hrTimeline[id].link;
        if link.Some? && link.value in d.applications && d.applications[link.value].link == Some(target.jobId)
        then id !in d'.hrTimeline
        else id in d'.hrTimeline && d'.hrTimeline[id] == d.hrTimeline[id]
  {
    hide Mentions, CacheWithout, OutboxLinked, OpsLinked;
  }

  /** A stored value goes exactly if it is a result that mentions the vacancy. */
  lemma OtherValuesStay(d: Data, target: Vacancy)
    ensures var (meta, meta') := (d.cache.meta, Without(d, target).cache.meta);
      meta'.Keys <= meta.Keys &&
      forall key :: key in meta ==>
        if (Lit("ai_analysis_") <= key || Lit("ai_cover_letter_") <= key) && Mentions(meta[key], target)
        then key !in meta'
        else key in meta' && meta'[key] == meta[key]
  {
    hide Mentions, CacheLinked, OutboxLinked, OpsLinked, TimelineLinked, RowsLinked, Lit;
  }

  /** A cache row goes exactly if a result under its reference, analysis or letter, mentions the vacancy. */
  lemma OtherCacheRowsStay(d: Data, target: Vacancy)
    ensures var (t, rows') := (d.cache, Without(d, target).cache.rows);
      rows'.Keys <= t.rows.Keys &&
      forall id :: id in t.rows ==>
        var (analysis, letter) := (Lit("ai_analysis_") + t.rows[id].resultRef, Lit("ai_cover_letter_") + t.rows[id].resultRef);
        if (analysis in t.meta && Mentions(t.meta[analysis], target)) || (letter in t.meta && Mentions(t.meta[letter], target))
        then id !in rows'
        else id in rows' && rows'[id] == t.rows[id]
  {
    hide Mentions, OutboxLinked, OpsLinked, TimelineLinked, RowsLinked, Lit;
    var t := d.cache;
    forall id | id in t.rows
      ensures IsResultKey(MetaKey(AnalysisResult, t.rows[id].resultRef)) && IsResultKey(MetaKey(LetterResult, t.rows[id].resultRef))
    {
    }
  }

  /** A queued operation goes exactly if its payload mentions the vacancy, a mirrored entity also if it is the vacancy. */
  lemma OtherOperationsStay(d: Data, target: Vacancy)
    ensures var (outbox, outbox') := (d.syncOutbox, Without(d, target).syncOutbox);
      outbox'.Keys <= outbox.Keys &&
      forall id :: id in outbox ==>
        if Mentions(outbox[id].command.payload, target) then id !in outbox' else id in outbox' && outbox'[id] == outbox[id]
    ensures var (ops, ops') := (d.opsCache, Without(d, target).opsCache);
      ops'.Keys <= ops.Keys &&
      forall id :: id in ops ==>
        if ops[id].entityId == target.jobId || ops[id].entityId == target.sourceVacancyId || Mentions(ops[id].payload, target)
        then id !in ops'
        else id in ops' && ops'[id] == ops[id]
  {
    hide Mentions, CacheWithout, TimelineLinked, RowsLinked;
  }

  /** The letter of a saved vacancy is stored with its id, so it goes with the vacancy. */
  lemma StoredLetterMentionsItsJob(letter: Text, target: Vacancy)
    requires |target.jobId| > 0
    ensures Mentions(LetterValue(letter, Some(target.jobId)), target)
  {
    var v := LetterValue(letter, Some(target.jobId));
    assert IsHit(v.fields[0], target);
    assert NamedAt(v, [], target);
  }

  // ----- The deletion -----

  datatype Counts = Counts(
    coverLetters: nat, applications: nat, events: nat, hrTimeline: nat, visitMarks: nat,
    cacheEntries: nat, outboxEntries: nat, labsEntries: nat)

  datatype Failure = LocalDeleteOnly | ResetBlocked | JobNotFound

  predicate Idle(s: Outbox.Status) {
    s == Outbox.Pending || s == Outbox.Retrying || s == Outbox.Dead || s == Outbox.Conflict
  }

  ghost function CountsOf(d: Data, target: Vacancy): Counts {
    Counts(|RowsLinked(d.coverLetters, target.jobId)|, |RowsLinked(d.applications, target.jobId)|,
      |RowsLinked(d.events, target.jobId)|, |TimelineLinked(d, target)|,
      |RowsLinked(d.visitMarks, target.sourceVacancyId)|, |CacheLinked(d.cache, target)|,
      |OutboxLinked(d, target)|, |RowsLinked(d.labsActions, target.jobId)|)
  }

  lemma {:induction false} RestSize<V>(t: map<Id, V>, ids: set<Id>)
    requires ids <= t.Keys
    ensures |t - ids| == |t| - |ids|
  {
    assert (t - ids).Keys == t.Keys - ids;
    assert |t.Keys - ids| + |ids| == |t.Keys| by {
      assert t.Keys == (t.Keys - ids) + ids;
    }
  }

  /** What is reported for a table is what it loses. */
  lemma CountsAreLosses(d: Data, target: Vacancy)
    ensures var (n, d') := (CountsOf(d, target), Without(d, target));
      n.coverLetters == |d.coverLetters| - |d'.coverLetters| && n.applications == |d.applications| - |d'.applications| &&
      n.events == |d.events| - |d'.events| && n.hrTimeline == |d.hrTimeline| - |d'.hrTimeline| &&
      n.visitMarks == |d.visitMarks| - |d'.visitMarks| && n.cacheEntries == |d.cache.rows| - |d'.cache.rows| &&
      n.outboxEntries == |d.syncOutbox| - |d'.syncOutbox| && n.labsEntries == |d.labsActions| - |d'.labsActions|
  {
    hide Mentions, MetaKey, ValuesLinked;
    RestSize(d.coverLetters, RowsLinked(d.coverLetters, target.jobId));
    RestSize(d.applications, RowsLinked(d.applications, target.jobId));
    RestSize(d.events, RowsLinked(d.events, target.jobId));
    RestSize(d.hrTimeline, TimelineLinked(d, target));
    RestSize(d.visitMarks, RowsLinked(d.visitMarks, target.sourceVacancyId));
    RestSize(d.cache.rows, CacheLinked(d.cache, target));
    RestSize(d.syncOutbox, OutboxLinked(d, target));
    RestSize(d.labsActions, RowsLinked(d.labsActions, target.jobId));
  }

  /** A result key without its prefix. */
  function RefOf(key: Text): Text
    requires IsResultKey(key)
  {
    if Lit(ANALYSIS_PREFIX) <= key then key[|ANALYSIS_PREFIX|..] else key[|LETTER_PREFIX|..]
  }

  lemma RefOfKey(key: Text, resultRef: Text)
    requires IsResultKey(key)
    ensures RefOf(key) == resultRef <==> key == MetaKey(AnalysisResult, resultRef) || key == MetaKey(LetterResult, resultRef)
  {
    var a, l := Lit(ANALYSIS_PREFIX), Lit(LETTER_PREFIX);
    assert a[3] == 0x61 && l[3] == 0x63;
    assert MetaKey(AnalysisResult, resultRef)[3] == a[3] && MetaKey(LetterResult, resultRef)[3] == l[3];
    assert MetaKey(AnalysisResult, resultRef)[|a|..] == resultRef && MetaKey(LetterResult, resultRef)[|l|..] == resultRef;
    if a <= key {
      assert key == a + key[|a|..] && key[3] == a[3];
    } else {
      assert key == l + key[|l|..];
    }
  }

  lemma LinkedRefs(t: Tables, target: Vacancy, values: set<Text>)
    requires values == ValuesLinked(t, target)
    ensures forall resultRef :: (exists key :: key in values && RefOf(key) == resultRef) <==>
      MetaKey(AnalysisResult, resultRef) in values || MetaKey(LetterResult, resultRef) in values
  {
    hide Mentions, RefOf, MetaKey;
    forall resultRef
      ensures (exists key :: key in values && RefOf(key) == resultRef) <==>
        MetaKey(AnalysisResult, resultRef) in values || MetaKey(LetterResult, resultRef) in values
    {
      forall key | key in values
        ensures RefOf(key) == resultRef <==> key == MetaKey(AnalysisResult, resultRef) || key == MetaKey(LetterResult, resultRef)
      {
        RefOfKey(key, resultRef);
      }
    }
  }

  lemma SearchIsMention(target: Vacancy)
    ensures forall v: Json {:trigger ContainsTarget(v, target)} :: ContainsTarget(v, target) <==> Mentions(v, target)
  {
    forall v: Json ensures ContainsTarget(v, target) <==> Mentions(v, target) {
      ContainsTargetIsMention(v, target);
    }
  }

  const EMPTY := Data(map[], map[], map[], map[], map[], map[], map[], Tables(map[], map[]), map[], map[])

  // ----- Extension storage -----

  const DRAFT_PREFIX := "hr_draft_v1_"

  const BADGE_PREFIX := "badge_v1_hh_"

  const SETTINGS_KEY := "app_settings_v1"

  // ----- What blocks a deletion -----

  predicate OutcomeIsOpen(executions: map<AiLedger.Key, AiLedger.Execution>) {
    exists key :: key in executions && executions[key].state in
      {AiLedger.Claimed, AiLedger.Dispatching, AiLedger.Repairing, AiLedger.OutcomeUnknown}
  }

  lemma OpenMeansUnsafe(executions: map<AiLedger.Key, AiLedger.Execution>)
    ensures OutcomeIsOpen(executions) <==> !LedgerRun.SafeToReset(AiLedger.Ledger(executions, map[], []))
  {
  }

  /** A linked operation is neither waiting nor over. */
  ghost predicate IsBeingDelivered(d: Data, target: Vacancy) {
    exists id :: id in d.syncOutbox && d.syncOutbox[id].status == Outbox.Committed &&
      Mentions(d.syncOutbox[id].command.payload, target)
  }

  lemma DeliveredMeansInFlight(d: Data, target: Vacancy)
    ensures IsBeingDelivered(d, target) <==>
      exists id :: id in OutboxLinked(d, target) && id in d.syncOutbox && !Idle(d.syncOutbox[id].status)
  {
    hide Mentions;
  }

  class LocalData {
    var tables: Data
    var aiExecution: map<AiLedger.Key, AiLedger.Execution>
    var local: map<Text, Json>
    var session: map<Text, Json>
    const companion: Companion.CompanionService

    predicate Unsafe()
      reads this
    {
      !LedgerRun.SafeToReset(AiLedger.Ledger(aiExecution, map[], []))
    }

    constructor (companion: Companion.CompanionService)
      ensures tables == EMPTY && aiExecution == map[] && local == map[] && session == map[]
      ensures this.companion == companion
    {
      tables, aiExecution, local, session, this.companion := EMPTY, map[], map[], map[], companion;
    }

    /** What `deleteJobData` finds before it deletes. */
    method FindLinked(target: Vacancy) returns (cacheRows: set<Id>, values: set<Text>, outbox: set<Id>, ops: set<Id>)
      ensures values == ValuesLinked(tables.cache, target) && cacheRows == CacheLinked(tables.cache, target)
      ensures outbox == OutboxLinked(tables, target) && ops == OpsLinked(tables, target)
    {
      hide Mentions, ContainsTarget, MetaKey, RefOf, Lit, IsResultKey;
      SearchIsMention(target);
      var cache := tables.cache;
      values := set key | key in cache.meta && IsResultKey(key) && ContainsTarget(cache.meta[key], target);
      assert values == ValuesLinked(cache, target);
      var linkedResultRefs := set key | key in values :: RefOf(key);
      LinkedRefs(cache, target, values);
      cacheRows := set id | id in cache.rows && cache.rows[id].resultRef in linkedResultRefs;
      outbox := set id | id in tables.syncOutbox && ContainsTarget(tables.syncOutbox[id].command.payload, target);
      ops := set id | id in tables.opsCache &&
        (tables.opsCache[id].entityId == target.jobId || tables.opsCache[id].entityId == target.sourceVacancyId ||
         ContainsTarget(tables.opsCache[id].payload, target));
    }

    /** The writes of the transaction of `deleteJobData`, one table after the other. */
    method RemoveRows(
        target: Vacancy, letters: set<Id>, applications: set<Id>, events: set<Id>, timeline: set<Id>, marks: set<Id>,
        labs: set<Id>, cacheRows: set<Id>, values: set<Text>, outbox: set<Id>, ops: set<Id>)
      requires letters == RowsLinked(tables.coverLetters, target.jobId)
      requires applications == RowsLinked(tables.applications, target.jobId)
      requires events == RowsLinked(tables.events, target.jobId) && labs == RowsLinked(tables.labsActions, target.jobId)
      requires timeline == TimelineLinked(tables, target) && marks == RowsLinked(tables.visitMarks, target.sourceVacancyId)
      requires cacheRows == CacheLinked(tables.cache, target) && values == ValuesLinked(tables.cache, target)
      requires outbox == OutboxLinked(tables, target) && ops == OpsLinked(tables, target)
      modifies this`tables
      ensures tables == Without(old(tables), target)
    {
      hide RowsLinked, TimelineLinked, ValuesLinked, CacheLinked, OutboxLinked, OpsLinked;
      tables := tables.(coverLetters := tables.coverLetters - letters);
      tables := tables.(applications := tables.applications - applications);
      tables := tables.(events := tables.events - events);
      tables := tables.(hrTimeline := tables.hrTimeline - timeline);
      tables := tables.(visitMarks := tables.visitMarks - marks);
      tables := tables.(cache := tables.cache.(rows := tables.cache.rows - cacheRows));
      tables := tables.(syncOutbox := tables.syncOutbox - outbox);
      tables := tables.(labsActions := tables.labsActions - labs);
      tables := tables.(cache := tables.cache.(meta := tables.cache.meta - values));
      tables := tables.(opsCache := tables.opsCache - ops);
      tables := tables.(jobs := tables.jobs - {target.jobId});
    }

    /** What `deleteJobData` removes after its transaction: the reply draft and the badge of the vacancy. */
    method RemoveFromStorage(target: Vacancy)
      modifies this`local
      ensures local == old(local) - {Lit("hr_draft_v1_") + target.jobId, Lit("badge_v1_hh_") + target.sourceVacancyId}
    {
      local := local - {Lit(DRAFT_PREFIX) + target.jobId};
      local := local - {Lit(BADGE_PREFIX) + target.sourceVacancyId};
    }

    /** `deleteJobData`: all of it, or nothing and the reason why. */
    method DeleteJobData(jobId: Text, opsMode: bool) returns (r: Result<Counts, Failure>)
      modifies this
      ensures aiExecution == old(aiExecution) && session == old(session)
      ensures r.Err? ==> tables == old(tables) && local == old(local)
      ensures r == Err(LocalDeleteOnly) <==> opsMode
      ensures r == Err(JobNotFound) <==> !opsMode && !OutcomeIsOpen(old(aiExecution)) && jobId !in old(tables).jobs
      ensures r == Err(ResetBlocked) <==>
        !opsMode && (OutcomeIsOpen(old(aiExecution)) || (jobId in old(tables).jobs &&
          IsBeingDelivered(old(tables), Vacancy(jobId, old(tables).jobs[jobId].sourceVacancyId))))
      ensures r.Ok? ==>
        jobId in old(tables).jobs &&
        var target := Vacancy(jobId, old(tables).jobs[jobId].sourceVacancyId);
        r.value == CountsOf(old(tables), target) && tables == Without(old(tables), target) &&
        local == old(local) - {Lit("hr_draft_v1_") + jobId, Lit("badge_v1_hh_") + target.sourceVacancyId}
    {
      hide Mentions, OutcomeIsOpen, IsBeingDelivered, RowsLinked, TimelineLinked, ValuesLinked, CacheLinked, OutboxLinked, OpsLinked,
        Idle, LedgerRun.SafeToReset, Lit;
      OpenMeansUnsafe(aiExecution);
      if opsMode {
        return Err(LocalDeleteOnly);
      }
      if Unsafe() {
        return Err(ResetBlocked);
      }
      if jobId !in tables.jobs {
        return Err(JobNotFound);
      }
      var target := Vacancy(jobId, tables.jobs[jobId].sourceVacancyId);
      DeliveredMeansInFlight(tables, target);
      var letters := RowsLinked(tables.coverLetters, jobId);
      var applications := RowsLinked(tables.applications, jobId);
      var events := RowsLinked(tables.events, jobId);
      var timeline := TimelineLinked(tables, target);
      var labs := RowsLinked(tables.labsActions, jobId);
      var marks := RowsLinked(tables.visitMarks, target.sourceVacancyId);
      var cacheRows, values, outbox, ops := FindLinked(target);
      if exists id :: id in outbox && id in tables.syncOutbox && !Idle(tables.syncOutbox[id].status) {
        return Err(ResetBlocked);
      }
      r := Ok(Counts(|letters|, |applications|, |events|, |timeline|, |marks|, |cacheRows|, |outbox|, |labs|));
      RemoveRows(target, letters, applications, events, timeline, marks, labs, cacheRows, values, outbox, ops);
      RemoveFromStorage(target);
    }

    /** `deleteAllData`: only Standalone looks at executions first. The default settings are all that is left. */
    method DeleteAllData(standalone: bool, defaults: Json) returns (r: Result<(), Failure>)
      modifies this, companion
      ensures r == if standalone && old(Unsafe()) then Err(ResetBlocked) else Ok(())
      ensures r.Err? ==>
        tables == old(tables) && aiExecution == old(aiExecution) && local == old(local) && session == old(session) &&
        companion.State() == old(companion.State())
      ensures r.Ok? ==>
        tables == EMPTY && aiExecution == map[] && local == map[Lit(SETTINGS_KEY) := defaults] && session == map[] &&
        companion.State() == Companion.ResetAll(old(companion.State()))
    {
      if standalone && Unsafe() {
        return Err(ResetBlocked);
      }
      tables, aiExecution := EMPTY, map[];
      local := map[];
      session := map[];
      companion.ResetCompanionClientState();
      local := local[Lit(SETTINGS_KEY) := defaults];
      r := Ok(());
    }
  }
}
