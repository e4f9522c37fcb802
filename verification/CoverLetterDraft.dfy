/**
 * Generating a cover letter from a reviewed preview: the ordered effects on the
 * cache, the ledger and the provider, and what they are for.
 */
module CoverLetterDraft {
  import opened JsText
  import opened JsonTree
  import opened Fingerprint
  import opened ProviderPlan
  import opened PlanBuilder
  import opened AiCache
  import AiLedger
  import InputHash
  import CacheRun
  import LedgerRun
  import opened ExecutionRun

  datatype LetterRequest = LetterRequest(jobId: Text, profileId: Text, resumeId: Option<Text>)

  /** What the user reviewed. */
  datatype Prepared = Prepared(request: LetterRequest, plan: Plan)

  /** The settings and records a plan is built from. */
  datatype Source = Source(env: Environment, settings: Settings, input: Input)

  /**
   * The world at the execution boundary. `source` is absent when the vacancy or the
   * profile is gone; `answer` is absent when the provider throws.
   */
  datatype Boundary = Boundary(
    ready: bool, source: Option<Source>, inputTree: Json, granted: bool, preflightOk: bool,
    answer: Option<Text>, now: int)

  /** A call to the provider under an operation key, and what it gave back. */
  datatype Call = Call(key: AiLedger.Key, request: Request, answer: Option<Text>)

  datatype Outcome =
    | Draft(text: Text, fromCache: bool)
    | NotReady | RecordsGone | TextTooLong | Stale | NotGranted | PreflightFailed | ProviderThrew
    | Refused(error: AiLedger.Error)

  /** An absent or empty resume id adds no subject. */
  function SubjectIds(r: LetterRequest): (ids: StringRecord)
    ensures DistinctNames(ids)
  {
    var two := [(Lit("job_id"), r.jobId), (Lit("profile_id"), r.profileId)];
    assert |Lit("job_id")| == 6 && |Lit("profile_id")| == 10 && |Lit("resume_id")| == 9;
    if r.resumeId.Some? && |r.resumeId.value| > 0 then two + [(Lit("resume_id"), r.resumeId.value)] else two
  }

  /** The subjects of a plan tell which records it is about. */
  lemma SubjectsIdentifyRecords(a: LetterRequest, b: LetterRequest)
    ensures ToMap(SubjectIds(a)) == ToMap(SubjectIds(b)) <==>
      a.jobId == b.jobId && a.profileId == b.profileId &&
      (a.resumeId == b.resumeId || (a.resumeId in {None, Some([])} && b.resumeId in {None, Some([])}))
  {
    var p, q := SubjectIds(a), SubjectIds(b);
    NamedSubjects(a);
    NamedSubjects(b);
    hide SubjectIds, ToMap;
    var m, n := ToMap(p), ToMap(q);
    if m == n {
      assert m[Lit("job_id")] == n[Lit("job_id")] && m[Lit("profile_id")] == n[Lit("profile_id")];
      assert Lit("resume_id") in m ==> m[Lit("resume_id")] == n[Lit("resume_id")];
    }
  }

  lemma NamedSubjects(r: LetterRequest)
    ensures ToMap(SubjectIds(r)) ==
      if r.resumeId in {None, Some([])} then map[Lit("job_id") := r.jobId, Lit("profile_id") := r.profileId]
      else map[Lit("job_id") := r.jobId, Lit("profile_id") := r.profileId, Lit("resume_id") := r.resumeId.value]
    ensures Lit("job_id") != Lit("profile_id") && Lit("resume_id") !in {Lit("job_id"), Lit("profile_id")}
  {
    assert |Lit("job_id")| == 6 && |Lit("profile_id")| == 10 && |Lit("resume_id")| == 9;
    hide Lit;
    if r.resumeId in {None, Some([])} {
      MapOfTwo(SubjectIds(r));
    } else {
      EmptyText(r.resumeId.value);
      MapOfThree(SubjectIds(r));
    }
  }

  lemma EmptyText(t: Text)
    ensures |t| == 0 <==> t == []
  {
  }

  lemma MapOfTwo(ids: StringRecord)
    requires DistinctNames(ids) && |ids| == 2
    ensures ToMap(ids) == map[ids[0].0 := ids[0].1, ids[1].0 := ids[1].1]
  {
    assert ids[0].0 != ids[1].0;
  }

  lemma MapOfThree(ids: StringRecord)
    requires DistinctNames(ids) && |ids| == 3
    ensures ToMap(ids) == map[ids[0].0 := ids[0].1, ids[1].0 := ids[1].1, ids[2].0 := ids[2].1]
  {
    assert ids[0].0 != ids[1].0 && ids[0].0 != ids[2].0 && ids[1].0 != ids[2].0;
  }

  function PlanFrom(s: Source, r: LetterRequest): Option<Plan> {
    BuildPlan(s.env, s.settings, s.input, SubjectIds(r))
  }

  /** The plans of two sources hash apart unless they are the same request. */
  ghost predicate PlansDoNotCollide(a: Request, b: Request) {
    TreesDoNotCollide(PlanTree(a), PlanTree(b))
  }

  /** The same request to the provider: messages, provider, model, options and subjects. */
  ghost predicate Identical(a: Request, b: Request) {
    ValidRequest(a) && ValidRequest(b) && SameRequest(a, b)
  }

  /** Short of a collision, a valid request with the plan hash of a preview is the previewed request. */
  lemma EqualPlanHashes(preview: Source, r: LetterRequest, request: Request)
    requires PlanFrom(preview, r).Some? && ValidRequest(request)
    requires HashTree(PlanTree(request)) == Some(PlanFrom(preview, r).value.providerPlanHash)
    requires PlansDoNotCollide(PlanFrom(preview, r).value.request, request)
    ensures Identical(PlanFrom(preview, r).value.request, request)
  {
    hide *;
    PlanFromIsHashed(preview, r);
    CollideUnfolds(PlanFrom(preview, r).value.request, request);
    PlanHashIdentifiesRequest(PlanFrom(preview, r).value.request, request);
    IdenticalUnfolds(PlanFrom(preview, r).value.request, request);
  }

  lemma SentIsPreviewed(preview: Source, r: LetterRequest, request: Request)
    requires PlanFrom(preview, r).Some? && ValidRequest(request)
    requires HashTree(PlanTree(request)) == Some(PlanFrom(preview, r).value.providerPlanHash)
    ensures PlansDoNotCollide(PlanFrom(preview, r).value.request, request) ==> Identical(PlanFrom(preview, r).value.request, request)
  {
    hide *;
    if PlansDoNotCollide(PlanFrom(preview, r).value.request, request) {
      EqualPlanHashes(preview, r, request);
    }
  }

  lemma IdenticalUnfolds(a: Request, b: Request)
    requires ValidRequest(a) && ValidRequest(b) && SameRequest(a, b)
    ensures Identical(a, b)
  {
  }

  lemma PlanFromIsHashed(s: Source, r: LetterRequest)
    requires PlanFrom(s, r).Some?
    ensures ValidRequest(PlanFrom(s, r).value.request)
    ensures HashTree(PlanTree(PlanFrom(s, r).value.request)) == Some(PlanFrom(s, r).value.providerPlanHash)
  {
    hide *;
    PlanFromIsBuildPlan(s, r);
    BuiltRequestIsValid(s.env, s.settings, s.input, SubjectIds(r));
  }

  lemma PlanFromIsBuildPlan(s: Source, r: LetterRequest)
    ensures PlanFrom(s, r) == BuildPlan(s.env, s.settings, s.input, SubjectIds(r))
  {
  }

  lemma CollideUnfolds(a: Request, b: Request)
    requires PlansDoNotCollide(a, b)
    ensures TreesDoNotCollide(PlanTree(a), PlanTree(b))
  {
  }

  // ----- Where cached letters come from -----

  /** A call for a valid request with this plan hash gave this text. */
  predicate Answered(calls: seq<Call>, planHash: Text, text: Text) {
    exists j :: 0 <= j < |calls| && IsAnswer(calls[j], planHash, text)
  }

  predicate IsAnswer(call: Call, planHash: Text, text: Text) {
    call.answer == Some(text) && ValidRequest(call.request) && HashTree(PlanTree(call.request)) == Some(planHash)
  }

  /** Some call gave this text for exactly this request, unless the two requests collide. */
  ghost predicate AnsweredFor(calls: seq<Call>, request: Request, text: Text) {
    exists j :: 0 <= j < |calls| && calls[j].answer == Some(text) &&
      (PlansDoNotCollide(request, calls[j].request) ==> Identical(request, calls[j].request))
  }

  /** A text that answered the plan hash of a preview answered the previewed request. */
  lemma AnswerIsForPreview(preview: Source, r: LetterRequest, calls: seq<Call>, text: Text)
    requires PlanFrom(preview, r).Some? && Answered(calls, PlanFrom(preview, r).value.providerPlanHash, text)
    ensures AnsweredFor(calls, PlanFrom(preview, r).value.request, text)
  {
    hide PlanFrom, HashTree, PlanTree, ValidRequest, PlansDoNotCollide, Identical;
    var plan := PlanFrom(preview, r).value;
    var j :| 0 <= j < |calls| && IsAnswer(calls[j], plan.providerPlanHash, text);
    if PlansDoNotCollide(plan.request, calls[j].request) {
      EqualPlanHashes(preview, r, calls[j].request);
    }
  }

  predicate LettersAnswered(t: Tables, calls: seq<Call>) {
    forall id :: id in t.rows && t.rows[id].kind.LetterResult? && t.rows[id].planHash.Some? ==>
      LetterAnswered(t.rows[id].planHash.value, Load(t, t.rows[id]), calls)
  }

  predicate LetterAnswered(planHash: Text, loaded: Option<Json>, calls: seq<Call>) {
    loaded.Some? ==> loaded.value.String? && Answered(calls, planHash, loaded.value.s)
  }

  predicate Unshared(t: Tables) {
    forall id, other :: id in t.rows && other in t.rows && id != other ==> KeyOf(t.rows[id]) != KeyOf(t.rows[other])
  }

  predicate Sound(t: Tables, calls: seq<Call>) {
    Backed(t) && Unshared(t) && LettersAnswered(t, calls)
  }

  lemma RemovalSound(t: Tables, t': Tables, calls: seq<Call>, id: RowId)
    requires Sound(t, calls) && id in t.rows && t'.rows == t.rows - {id}
    requires t'.meta == t.meta || t'.meta == t.meta - {KeyOf(t.rows[id])}
    ensures Sound(t', calls)
  {
    hide Answered, KeyOf, Loaded;
    forall other | other in t'.rows ensures KeyOf(t'.rows[other]) in t'.meta && Load(t', t'.rows[other]) == Load(t, t.rows[other]) {
      assert KeyOf(t.rows[other]) in t.meta;
    }
  }

  lemma LookupSound(c: Tables, c': Tables, id: RowId, calls: seq<Call>)
    requires Sound(c, calls) && id in c.rows
    requires c' == ApplyAll(c, ExpireProgram(id, c.rows[id])) || c' == ApplyAll(c, [DeleteRow(id)])
    ensures c'.rows.Keys <= c.rows.Keys && c'.meta.Keys <= c.meta.Keys
    ensures Sound(c', calls)
  {
    hide Sound, KeyOf;
    ApplyOne(c, DeleteRow(id));
    ApplyTwo(c, DeleteRow(id), DeleteMeta({KeyOf(c.rows[id])}));
    RemovalSound(c, c', calls, id);
  }

  lemma CallSound(t: Tables, calls: seq<Call>, call: Call)
    requires Sound(t, calls)
    ensures Sound(t, calls + [call])
  {
    hide IsAnswer, KeyOf, Load;
    forall h, text | Answered(calls, h, text) ensures Answered(calls + [call], h, text) {
      var j :| 0 <= j < |calls| && IsAnswer(calls[j], h, text);
      assert (calls + [call])[j] == calls[j];
    }
  }

  /** Storing an answered letter under a fresh row id and result id. */
  lemma StoreSound(t: Tables, calls: seq<Call>, id: RowId, row: Row, letter: Text, jobId: Option<Text>)
    requires Sound(t, calls) && id !in t.rows && KeyOf(row) !in t.meta
    requires row.kind.LetterResult? && row.planHash.Some? && Answered(calls, row.planHash.value, letter)
    ensures Sound(ApplyAll(t, StoreProgram(id, row, LetterValue(letter, jobId))), calls)
  {
    hide Answered, KeyOf;
    LetterRoundTrip(letter, jobId);
    hide LetterText, LetterValue;
    var value := LetterValue(letter, jobId);
    ApplyTwo(t, PutMeta(KeyOf(row), value), PutRow(id, row));
    var t' := Tables(t.meta[KeyOf(row) := value], t.rows[id := row]);
    forall other | other in t.rows ensures KeyOf(t.rows[other]) != KeyOf(row) && Load(t', t.rows[other]) == Load(t, t.rows[other]) {
      assert KeyOf(t.rows[other]) in t.meta;
    }
    assert Load(t', row) == Some(String(letter));
  }

  // ----- Hits between other clients -----

  /** Every letter that the run stores under a plan hash is the answer to a call under it, as generation stores them. */
  predicate StoresAnswers(run: seq<CacheRun.Step>, calls: seq<Call>) {
    forall j :: 0 <= j < |run| && run[j].BeginStore? && run[j].row.kind.LetterResult? && run[j].row.planHash.Some? ==>
      LetterAnswered(run[j].row.planHash.value, Loaded(LetterResult, run[j].value), calls)
  }

  /**
   * Whatever others write to the cache between the two reads of a lookup, a text it
   * gives for the plan hash of a preview answered a call for the previewed request.
   */
  lemma InterleavedHitIsForPreview(
    preview: Source, r: LetterRequest, run: seq<CacheRun.Step>, k: nat, id: RowId, q: Query, value: Json, calls: seq<Call>)
    requires PlanFrom(preview, r).Some? && q.planHash == Some(PlanFrom(preview, r).value.providerPlanHash)
    requires q.kind.LetterResult? && StoresAnswers(run, calls)
    requires CacheRun.After(run).Some? && k <= |run| && CacheRun.After(run[..k]).Some?
    requires id in CacheRun.After(run[..k]).value.tables.rows && Matches(CacheRun.After(run[..k]).value.tables.rows[id], q)
    requires Load(CacheRun.After(run).value.tables, CacheRun.After(run[..k]).value.tables.rows[id]) == Some(value)
    ensures value.String? && AnsweredFor(calls, PlanFrom(preview, r).value.request, value.s)
  {
    hide PlanFrom, CacheRun.After, Load, Loaded, Answered, AnsweredFor;
    var j := CacheRun.HitWasStored(run, k, id, q, value);
    assert LetterAnswered(run[j].row.planHash.value, Loaded(LetterResult, run[j].value), calls);
    AnswerIsForPreview(preview, r, calls, value.s);
  }

  // ----- Generation -----

  /** Tokens made on the way, fresh by construction. */
  datatype Tokens = Tokens(owner: Text, attempt: Text, resultRef: Text, cacheRow: Text)

  function CacheQuery(plan: Plan, inputHash: Text): Query {
    Query(inputHash, LetterResult, plan.request.provider, plan.request.model, Lit("1.0.0"), Some(plan.providerPlanHash))
  }

  function LedgerParams(key: Text, plan: Plan, s: Settings): AiLedger.Params {
    AiLedger.Params(key, AiLedger.CoverLetterOperation, plan.request.provider, plan.request.model,
      plan.providerPlanHash, s.dailyRequestLimit)
  }

  /** An empty retry id counts as none. */
  predicate IsRetry(retryId: Option<Text>) {
    retryId.Some? && |retryId.value| > 0
  }

  /** The plan at the boundary, if it is still the one that was reviewed. */
  function ReviewedPlan(p: Prepared, b: Boundary): Option<Plan> {
    if !b.ready || b.source.None? then None
    else
      var plan :- PlanFrom(b.source.value, p.request);
      if plan.providerPlanHash == p.plan.providerPlanHash then Some(plan) else None
  }

  lemma PlanShape(s: Source, r: LetterRequest)
    requires s.input.Letter? && PlanFrom(s, r).Some?
    ensures PlanFrom(s, r).value.request.kind == CoverLetter
    ensures PlanFrom(s, r).value.request.subjectIds == SubjectIds(r)
  {
    hide SubjectIds, HashTree, PlanTree, PolicyTree, InputTree, CompilerTree, MessagesFor, OptionFields, Provider, Model, Lit, Sha256Of;
  }

  /**
   * However often one preview is executed, without a retry id it is one operation:
   * by the ledger, at most one of these executions calls the provider.
   */
  lemma OneOperationKeyPerPreview(p: Prepared, a: Boundary, b: Boundary)
    requires ReviewedPlan(p, a).Some? && a.source.value.input.Letter?
    requires ReviewedPlan(p, b).Some? && b.source.value.input.Letter?
    ensures OperationKey(ReviewedPlan(p, a).value, None) == OperationKey(ReviewedPlan(p, b).value, None)
  {
    hide PlanFrom, SubjectIds, HashTree, KindText, Lit;
    PlanShape(a.source.value, p.request);
    PlanShape(b.source.value, p.request);
  }

  /** The reservation for a reviewed plan. */
  function ReserveFor(plan: Plan, key: Text, b: Boundary, t: Tokens, l: AiLedger.Ledger)
    : (AiLedger.Ledger, Result<AiLedger.Reservation, AiLedger.Error>)
    requires b.source.Some?
  {
    AiLedger.Reserve(l, LedgerParams(key, plan, b.source.value.settings), b.now, t.owner, t.attempt)
  }

  /** The outcome when the cache has nothing to give. */
  function Expected(p: Prepared, b: Boundary, retryId: Option<Text>, t: Tokens, l: AiLedger.Ledger): Outcome {
    if !b.ready then NotReady
    else if b.source.None? then RecordsGone
    else if PlanFrom(b.source.value, p.request).None? then TextTooLong
    else if ReviewedPlan(p, b).None? then Stale
    else if !b.granted then NotGranted
    else if !b.preflightOk then PreflightFailed
    else
      var plan := ReviewedPlan(p, b).value;
      var key := OperationKey(plan, retryId);
      if key.None? then TextTooLong
      else
        var r := ReserveFor(plan, key.value, b, t, l).1;
        if r.Err? then Refused(r.error)
        else if b.answer.None? then ProviderThrew
        else Draft(b.answer.value, false)
  }

  /** The operation is new, or released under this very plan, and the day has a request left. */
  predicate Free(plan: Plan, key: AiLedger.Key, b: Boundary, l: AiLedger.Ledger)
    requires b.source.Some?
  {
    AiLedger.Used(l, b.now) < AiLedger.Limit(b.source.value.settings.dailyRequestLimit) &&
    (key in l.executions ==>
      var e := l.executions[key];
      e.state == AiLedger.FailedBeforeDispatch && e.kind == AiLedger.CoverLetterOperation &&
      e.planHash == plan.providerPlanHash && e.provider == plan.request.provider && e.model == plan.request.model)
  }

  lemma FreeIsGranted(plan: Plan, key: AiLedger.Key, b: Boundary, t: Tokens, l: AiLedger.Ledger)
    requires b.source.Some?
    ensures ReserveFor(plan, key, b, t, l).1.Ok? <==> Free(plan, key, b, l)
  {
    hide AiLedger.Reserve, AiLedger.Used, AiLedger.Limit;
    AiLedger.GrantedExactlyWhenFree(l, LedgerParams(key, plan, b.source.value.settings), b.now, t.owner, t.attempt);
  }

  /** The plan stands, access is granted and the operation is free. */
  predicate MayCall(p: Prepared, b: Boundary, retryId: Option<Text>, l: AiLedger.Ledger) {
    ReviewedPlan(p, b).Some? && b.granted && b.preflightOk &&
    var plan := ReviewedPlan(p, b).value;
    OperationKey(plan, retryId).Some? && Free(plan, OperationKey(plan, retryId).value, b, l)
  }

  /** What is expected of a plan that stands, with access, comes down to whether its operation is free. */
  lemma ExpectedOfPlan(p: Prepared, b: Boundary, retryId: Option<Text>, t: Tokens, l: AiLedger.Ledger, plan: Plan, key: AiLedger.Key)
    requires ReviewedPlan(p, b) == Some(plan) && b.granted && b.preflightOk && OperationKey(plan, retryId) == Some(key)
    ensures ReserveFor(plan, key, b, t, l).1.Ok? <==> Free(plan, key, b, l)
    ensures MayCall(p, b, retryId, l) <==> Free(plan, key, b, l)
    ensures Expected(p, b, retryId, t, l) ==
      if !ReserveFor(plan, key, b, t, l).1.Ok? then Refused(ReserveFor(plan, key, b, t, l).1.error)
      else if b.answer.None? then ProviderThrew
      else Draft(b.answer.value, false)
  {
    hide PlanFrom, OperationKey, ReserveFor, Free;
    FreeIsGranted(plan, key, b, t, l);
  }

  /** What is expected where no reservation is tried. */
  lemma ExpectedBefore(p: Prepared, b: Boundary, retryId: Option<Text>, t: Tokens, l: AiLedger.Ledger)
    ensures !b.ready ==> Expected(p, b, retryId, t, l) == NotReady
    ensures b.ready && b.source.None? ==> Expected(p, b, retryId, t, l) == RecordsGone
    ensures b.ready && b.source.Some? && PlanFrom(b.source.value, p.request).None? ==> Expected(p, b, retryId, t, l) == TextTooLong
    ensures b.ready && b.source.Some? && PlanFrom(b.source.value, p.request).Some? ==>
      (ReviewedPlan(p, b) == if PlanFrom(b.source.value, p.request).value.providerPlanHash == p.plan.providerPlanHash
       then PlanFrom(b.source.value, p.request) else None)
    ensures b.ready && b.source.Some? && PlanFrom(b.source.value, p.request).Some? && ReviewedPlan(p, b).None? ==>
      Expected(p, b, retryId, t, l) == Stale
    ensures !b.ready || b.source.None? || PlanFrom(b.source.value, p.request).None? ==> ReviewedPlan(p, b).None?
    ensures ReviewedPlan(p, b).None? || !b.granted || !b.preflightOk || OperationKey(ReviewedPlan(p, b).value, retryId).None? ==>
      !MayCall(p, b, retryId, l)
    ensures ReviewedPlan(p, b).Some? && !b.granted ==> Expected(p, b, retryId, t, l) == NotGranted
    ensures ReviewedPlan(p, b).Some? && b.granted && !b.preflightOk ==> Expected(p, b, retryId, t, l) == PreflightFailed
    ensures ReviewedPlan(p, b).Some? && b.granted && b.preflightOk && OperationKey(ReviewedPlan(p, b).value, retryId).None? ==>
      Expected(p, b, retryId, t, l) == TextTooLong
  {
    hide PlanFrom, OperationKey, ReserveFor;
  }

  /** A row that answers the query, in date, with this text. */
  predicate Gives(t: Tables, id: RowId, q: Query, now: int, text: Text) {
    id in t.rows && Matches(t.rows[id], q) && !Expired(t.rows[id], now) && Load(t, t.rows[id]) == Some(String(text))
  }

  /** The first row that answers the query, if any, gives no text. */
  ghost predicate GivesNothing(t: Tables, q: Query, now: int) {
    forall id, text :: IsFirstMatch(t.rows, q, id) && |text| > 0 ==> !Gives(t, id, q, now, text)
  }

  /** Rows stay with what they load. */
  ghost predicate RowsStay(t: Tables, t': Tables, ids: set<RowId>) {
    forall id :: id in t.rows && id in ids ==>
      id in t'.rows && t'.rows[id] == t.rows[id] && Load(t', t.rows[id]) == Load(t, t.rows[id])
  }

  /** All rows but the first that answers the query. */
  ghost function Others(t: Tables, q: Query): set<RowId> {
    set id | id in t.rows && !IsFirstMatch(t.rows, q, id)
  }

  lemma LookupKeepsOthers(t: Tables, t': Tables, id: RowId, q: Query, calls: seq<Call>)
    requires Sound(t, calls) && IsFirstMatch(t.rows, q, id)
    requires t' == ApplyAll(t, ExpireProgram(id, t.rows[id])) || t' == ApplyAll(t, [DeleteRow(id)])
    ensures RowsStay(t, t', Others(t, q))
  {
    hide KeyOf, Loaded, LettersAnswered, Matches;
    ApplyOne(t, DeleteRow(id));
    ApplyTwo(t, DeleteRow(id), DeleteMeta({KeyOf(t.rows[id])}));
  }

  lemma StoreKeepsRows(t: Tables, id: RowId, row: Row, value: Json, calls: seq<Call>)
    requires Sound(t, calls) && id !in t.rows && KeyOf(row) !in t.meta
    ensures RowsStay(t, ApplyAll(t, StoreProgram(id, row, value)), t.rows.Keys)
  {
    hide KeyOf, Loaded, LettersAnswered;
    ApplyTwo(t, PutMeta(KeyOf(row), value), PutRow(id, row));
  }

  lemma RowsStayOn(a: Tables, b: Tables, c: Tables, ids: set<RowId>)
    requires RowsStay(a, b, ids) && RowsStay(b, c, b.rows.Keys)
    ensures RowsStay(a, c, ids)
  {
    hide Load;
  }

  function QueryFor(plan: Plan, b: Boundary): Query {
    CacheQuery(plan, InputHash.InputHashOf(b.inputTree))
  }

  predicate AsksCache(b: Boundary, retryId: Option<Text>)
    requires b.source.Some?
  {
    b.source.value.settings.enableCache && !IsRetry(retryId)
  }

  lemma FreshReservationSettles(l: AiLedger.Ledger, p: AiLedger.Params, now: int, owner: Text, id: Text)
    requires AiLedger.Reserve(l, p, now, owner, id).1.Ok?
    ensures var (l', r) := AiLedger.Reserve(l, p, now, owner, id);
      AiLedger.Complete(l', r.value, None, now).1.Ok? && AiLedger.MarkUnknown(l', r.value, now).1.Ok?
  {
    hide AiLedger.Used;
  }

  lemma RefusedChangesNothing(l: AiLedger.Ledger, p: AiLedger.Params, now: int, owner: Text, id: Text)
    requires AiLedger.Reserve(l, p, now, owner, id).1.Err?
    ensures AiLedger.Reserve(l, p, now, owner, id).0 == l
  {
    AiLedger.GrantedExactlyWhenFree(l, p, now, owner, id);
  }

  lemma LastIsAnswered(calls: seq<Call>, planHash: Text, text: Text)
    requires |calls| > 0 && IsAnswer(calls[|calls| - 1], planHash, text)
    ensures Answered(calls, planHash, text)
  {
  }

  function LetterRow(q: Query, resultRef: Text, now: int): Row {
    Row(LetterResult, q.inputHash, q.provider, q.model, q.promptVersion, q.planHash, resultRef, now, None)
  }

  lemma StoredGives(t: Tables, id: RowId, q: Query, resultRef: Text, now: int, letter: Text, jobId: Option<Text>)
    requires q.kind.LetterResult?
    ensures Gives(ApplyAll(t, StoreProgram(id, LetterRow(q, resultRef, now), LetterValue(letter, jobId))), id, q, now, letter)
  {
    var row := LetterRow(q, resultRef, now);
    LetterRoundTrip(letter, jobId);
    hide KeyOf, LetterText, LetterValue;
    ApplyTwo(t, PutMeta(KeyOf(row), LetterValue(letter, jobId)), PutRow(id, row));
  }

  lemma HitIsAnswered(t: Tables, calls: seq<Call>, id: RowId, q: Query, now: int, value: Json)
    requires Sound(t, calls) && id in t.rows && Matches(t.rows[id], q) && q.kind.LetterResult? && q.planHash.Some?
    requires Load(t, t.rows[id]) == Some(value)
    ensures value.String? && Answered(calls, q.planHash.value, value.s)
  {
    hide Load, Answered;
    assert LetterAnswered(t.rows[id].planHash.value, Load(t, t.rows[id]), calls);
  }

  // ----- Executions in the ledger's run -----

  /** The execution reserved the operation of this call, for its plan, and settled it by its answer. */
  ghost predicate MadeFor(m: Made, call: Call) {
    m.reservation.key == call.key && m.reservation.provider == call.request.provider &&
    m.reservation.model == call.request.model && m.reservation.kind == AiLedger.CoverLetterOperation &&
    HashTree(PlanTree(call.request)) == Some(m.reservation.planHash) &&
    m.state == if call.answer.Some? then AiLedger.Completed else AiLedger.OutcomeUnknown
  }

  /** The ledger is that of a run in which each call stands as one execution. */
  ghost predicate Tracks(run: seq<LedgerRun.Step>, made: seq<Made>, calls: seq<Call>, l: AiLedger.Ledger) {
    LedgerRun.After(run).Some? && LedgerRun.After(run).value.ledger == l && Records(run, made) && |made| == |calls| &&
    forall i :: 0 <= i < |made| ==> MadeFor(made[i], calls[i])
  }

  /** The tokens are new to the ledger. */
  ghost predicate Unused(run: seq<LedgerRun.Step>, t: Tokens) {
    LedgerRun.After(run).Some? ==>
      var w := LedgerRun.After(run).value;
      t.owner !in w.tokens && t.attempt !in w.tokens && t.owner != t.attempt
  }

  /** What the ledger shows after a call: the operation is final, its row is charged, and nothing else is touched. */
  predicate Charged(l: AiLedger.Ledger, l': AiLedger.Ledger, plan: Plan, key: AiLedger.Key, b: Boundary, t: Tokens) {
    key in l'.executions && t.attempt in l'.rows &&
    l' == AiLedger.Ledger(l.executions[key := l'.executions[key]], l.rows[t.attempt := l'.rows[t.attempt]],
      l.events + if b.answer.Some? then [AiLedger.Event(AiLedger.LetterGenerated, true, b.now)] else []) &&
    var (e, row) := (l'.executions[key], l'.rows[t.attempt]);
    e.state == (if b.answer.Some? then AiLedger.Completed else AiLedger.OutcomeUnknown) &&
    e.kind == AiLedger.CoverLetterOperation && e.planHash == plan.providerPlanHash &&
    e.provider == plan.request.provider && e.model == plan.request.model &&
    row.state == AiLedger.Consumed && row.operationKey == key && row.day == AiLedger.Day(b.now)
  }

  lemma TracksRun(run: seq<LedgerRun.Step>, made: seq<Made>, calls: seq<Call>, l: AiLedger.Ledger)
    requires Tracks(run, made, calls, l)
    ensures LedgerRun.After(run).Some? && LedgerRun.After(run).value.ledger == l && |made| == |calls|
  {
    hide LedgerRun.After, Records, MadeFor;
  }

  lemma ExecutionCharges(
    l: AiLedger.Ledger, l': AiLedger.Ledger, plan: Plan, key: AiLedger.Key, b: Boundary, t: Tokens, r: AiLedger.Reservation)
    requires b.source.Some? && ReserveFor(plan, key, b, t, l).1 == Ok(r)
    requires var reserved := ReserveFor(plan, key, b, t, l).0;
      l' == if b.answer.Some? then AiLedger.Record(AiLedger.Complete(reserved, r, None, b.now).0, true, b.now)
            else AiLedger.MarkUnknown(reserved, r, b.now).0
    ensures Charged(l, l', plan, key, b, t)
  {
    hide AiLedger.Reserve, AiLedger.Complete, AiLedger.MarkUnknown;
    var p := LedgerParams(key, plan, b.source.value.settings);
    SettledIsClosed(l, p, b.now, t.owner, t.attempt, b.answer.Some?);
  }

  /** A granted reservation, called and settled, goes on with the run. */
  lemma ExecutionTracks(
    run: seq<LedgerRun.Step>, made: seq<Made>, calls: seq<Call>, l: AiLedger.Ledger, plan: Plan, key: AiLedger.Key, b: Boundary,
    t: Tokens) returns (longer: seq<LedgerRun.Step>, m: Made)
    requires Tracks(run, made, calls, l) && Unused(run, t) && b.source.Some? && ReserveFor(plan, key, b, t, l).1.Ok?
    requires HashTree(PlanTree(plan.request)) == Some(plan.providerPlanHash)
    ensures longer == run + ExecutionSteps(LedgerParams(key, plan, b.source.value.settings), b.now, t.owner, t.attempt,
      |LedgerRun.After(run).value.clients|, b.answer.Some?)
    ensures var (reserved, r) := ReserveFor(plan, key, b, t, l);
      Tracks(longer, made + [m], calls + [Call(key, plan.request, b.answer)],
        if b.answer.Some? then AiLedger.Record(AiLedger.Complete(reserved, r.value, None, b.now).0, true, b.now)
        else AiLedger.MarkUnknown(reserved, r.value, b.now).0)
  {
    hide AiLedger.Reserve, AiLedger.Complete, AiLedger.MarkUnknown, AiLedger.Record, LedgerRun.After, Records, HashTree, PlanTree,
      ExecutionSteps;
    var p := LedgerParams(key, plan, b.source.value.settings);
    SettledIsClosed(l, p, b.now, t.owner, t.attempt, b.answer.Some?);
    longer, m := ExecutionRecords(run, made, p, b.now, t.owner, t.attempt, b.answer.Some?);
    assert MadeFor(m, Call(key, plan.request, b.answer));
  }

  class Extension {
    const ledger: AiLedger.Store
    const cache: Cache
    var calls: seq<Call>
    ghost var run: seq<LedgerRun.Step>
    ghost var made: seq<Made>

    ghost predicate Valid()
      reads this, ledger, cache
    {
      Sound(cache.State(), calls) && Tracks(run, made, calls, ledger.State())
    }

    ghost predicate FreshTokens(t: Tokens)
      reads this, cache
    {
      t.cacheRow !in cache.rows && MetaKey(LetterResult, t.resultRef) !in cache.meta && Unused(run, t)
    }

    /** The ledger may have a history. */
    constructor (ledger: AiLedger.Store, cache: Cache, ghost run: seq<LedgerRun.Step>)
      requires cache.State() == Tables(map[], map[])
      requires LedgerRun.After(run).Some? && LedgerRun.After(run).value.ledger == ledger.State()
      ensures Valid() && this.ledger == ledger && this.cache == cache && calls == [] && this.run == run
    {
      this.ledger, this.cache, calls := ledger, cache, [];
      this.run, made := run, [];
    }

    /** Between two executions, anybody may take a step on the ledger. */
    ghost method OthersStep(s: LedgerRun.Step)
      requires Sound(cache.State(), calls)
      requires LedgerRun.After(run).Some? && Tracks(run, made, calls, LedgerRun.After(run).value.ledger)
      requires LedgerRun.Enabled(LedgerRun.After(run).value, s)
      requires ledger.State() == LedgerRun.Next(LedgerRun.After(run).value, s).ledger
      modifies this`run
      ensures Valid() && run == old(run) + [s]
    {
      hide Sound, LedgerRun.After, LedgerRun.Next, LedgerRun.Enabled, Records, MadeFor;
      StepRecords(run, made, s);
      run := run + [s];
    }

    /** A cached text for the reviewed plan, from a usable row. */
    twostate predicate FromCache(p: Prepared, b: Boundary, retryId: Option<Text>, text: Text)
      reads this, ledger, cache
    {
      ReviewedPlan(p, b).Some? && AsksCache(b, retryId) &&
      calls == old(calls) && run == old(run) && ledger.State() == old(ledger.State()) && cache.State() == old(cache.State()) &&
      |text| > 0 && Answered(calls, p.plan.providerPlanHash, text) &&
      exists id :: Gives(cache.State(), id, QueryFor(ReviewedPlan(p, b).value, b), b.now, text)
    }

    /** The call goes on with the ledger's run: reserve, call, and settle by the answer. */
    twostate predicate Executed(plan: Plan, key: AiLedger.Key, b: Boundary, t: Tokens)
      requires b.source.Some? && LedgerRun.After(old(run)).Some?
      reads this, ledger
    {
      var c := |LedgerRun.After(old(run)).value.clients|;
      calls == old(calls) + [Call(key, plan.request, b.answer)] && |made| == |old(made)| + 1 && made[..|old(made)|] == old(made) &&
      run == old(run) + [LedgerRun.Begin(LedgerParams(key, plan, b.source.value.settings), b.now, t.owner, t.attempt),
        LedgerRun.CallProvider(c)] +
        (if b.answer.Some? then [LedgerRun.SettleCompleted(c, None, b.now), LedgerRun.RecordRequest(true, b.now)]
         else [LedgerRun.SettleUnknown(c, b.now)]) &&
      Charged(old(ledger.State()), ledger.State(), plan, key, b, t)
    }

    /** The plan is called for its operation key, and a fresh draft is cached. */
    twostate predicate Called(p: Prepared, b: Boundary, retryId: Option<Text>, t: Tokens)
      requires LedgerRun.After(old(run)).Some?
      reads this, ledger, cache
    {
      ReviewedPlan(p, b).Some? &&
      var plan := ReviewedPlan(p, b).value;
      OperationKey(plan, retryId).Some? && Executed(plan, OperationKey(plan, retryId).value, b, t) &&
      (b.answer.Some? && b.source.value.settings.enableCache ==>
        Gives(cache.State(), t.cacheRow, QueryFor(plan, b), b.now, b.answer.value))
    }

    /** `checkCoverLetterCache`: a text it returns answered a call under the plan hash it was asked for. */
    method CheckCoverLetterCache(q: Query, now: int) returns (text: Option<Text>)
      requires Valid() && q.kind.LetterResult? && q.planHash.Some?
      modifies cache
      ensures Valid() && cache.rows.Keys <= old(cache.rows.Keys) && cache.meta.Keys <= old(cache.meta.Keys)
      ensures RowsStay(old(cache.State()), cache.State(), Others(old(cache.State()), q))
      ensures text.Some? ==>
        cache.State() == old(cache.State()) && Answered(calls, q.planHash.value, text.value) &&
        exists id :: Gives(cache.State(), id, q, now, text.value)
      // A first match that gives a text is not missed.
      ensures forall id, found ::
        IsFirstMatch(old(cache.rows), q, id) && Gives(old(cache.State()), id, q, now, found) ==> text == Some(found)
    {
      hide Sound, Load, KeyOf, Answered, Tracks;
      ghost var before := cache.State();
      var found := cache.CheckCacheEntry(q, now);
      if found.Hit? {
        HitIsAnswered(before, calls, found.id, q, now, found.value);
        forall id | IsFirstMatch(before.rows, q, id) ensures id == found.id {
          FirstMatchIsUnique(before.rows, q, id, found.id);
        }
        assert Gives(cache.State(), found.id, q, now, found.value.s);
        return Some(found.value.s);
      }
      if cache.State() != before {
        ghost var id :| id in before.rows && IsFirstMatch(before.rows, q, id) &&
          (cache.State() == ApplyAll(before, ExpireProgram(id, before.rows[id])) ||
           cache.State() == ApplyAll(before, [DeleteRow(id)]));
        LookupSound(before, cache.State(), id, calls);
        LookupKeepsOthers(before, cache.State(), id, q, calls);
      }
      return None;
    }

    /** An answered letter is cached under fresh ids. */
    method StoreDraft(query: Query, letter: Text, linkedJob: Text, t: Tokens, now: int)
      requires Sound(cache.State(), calls) && t.cacheRow !in cache.rows && MetaKey(LetterResult, t.resultRef) !in cache.meta
      requires query.kind.LetterResult? && query.planHash.Some? && Answered(calls, query.planHash.value, letter)
      modifies cache
      ensures Sound(cache.State(), calls) && RowsStay(old(cache.State()), cache.State(), old(cache.rows.Keys))
      ensures Gives(cache.State(), t.cacheRow, query, now, letter)
    {
      hide Sound, Answered, MetaKey, Gives, Load, LetterText, LetterValue, RowsStay, Lit;
      var row := LetterRow(query, t.resultRef, now);
      StoreSound(cache.State(), calls, t.cacheRow, row, letter, Some(linkedJob));
      StoreKeepsRows(cache.State(), t.cacheRow, row, LetterValue(letter, Some(linkedJob)), calls);
      StoredGives(cache.State(), t.cacheRow, query, t.resultRef, now, letter, Some(linkedJob));
      cache.StoreCoverLetterCache(query, letter, Some(linkedJob), t.resultRef, t.cacheRow, now);
    }

    /** Everything from the reservation on: the call, its settlement, the stored letter and the recorded event. */
    method CallUnderReservation(plan: Plan, key: Text, b: Boundary, linkedJob: Text, query: Query, t: Tokens)
      returns (r: Outcome)
      requires Valid() && FreshTokens(t) && b.source.Some? && query == QueryFor(plan, b)
      requires ValidRequest(plan.request) && HashTree(PlanTree(plan.request)) == Some(plan.providerPlanHash)
      modifies this, ledger, cache
      ensures Valid()
      ensures RowsStay(old(cache.State()), cache.State(), old(cache.rows.Keys))
      ensures if Free(plan, key, b, old(ledger.State())) then
          Executed(plan, key, b, t) &&
          (r == if b.answer.Some? then Draft(b.answer.value, false) else ProviderThrew) &&
          if b.answer.Some? && b.source.value.settings.enableCache
          then Gives(cache.State(), t.cacheRow, query, b.now, b.answer.value)
          else cache.State() == old(cache.State())
        else
          ReserveFor(plan, key, b, t, old(ledger.State())).1.Err? &&
          r == Refused(ReserveFor(plan, key, b, t, old(ledger.State())).1.error) &&
          calls == old(calls) && run == old(run) && made == old(made) &&
          ledger.State() == old(ledger.State()) && cache.State() == old(cache.State())
    {
      hide Sound, Answered, HashTree, PlanTree, ValidRequest, AiLedger.Reserve, AiLedger.Complete, AiLedger.MarkUnknown, MetaKey, Lit,
        InputHash.InputHashOf, Tracks, Unused, Charged, Free, AiLedger.Record, LedgerRun.After, Gives, Load, LetterText,
        LetterValue, AiLedger.Limit,
        AiLedger.Used, AiLedger.Day;
      FreeIsGranted(plan, key, b, t, ledger.State());
      TracksRun(run, made, calls, ledger.State());
      var reservation := ledger.ReserveAiProviderAttempt(
        LedgerParams(key, plan, b.source.value.settings), b.now, t.owner, t.attempt);
      if reservation.Err? {
        RefusedChangesNothing(old(ledger.State()), LedgerParams(key, plan, b.source.value.settings), b.now, t.owner, t.attempt);
        return Refused(reservation.error);
      }
      ghost var longer, m := ExecutionTracks(run, made, calls, old(ledger.State()), plan, key, b, t);
      assert longer == run + ExecutionSteps(LedgerParams(key, plan, b.source.value.settings), b.now, t.owner, t.attempt,
        |LedgerRun.After(run).value.clients|, b.answer.Some?);
      FreshReservationSettles(old(ledger.State()), LedgerParams(key, plan, b.source.value.settings), b.now, t.owner, t.attempt);
      CallSound(cache.State(), calls, Call(key, plan.request, b.answer));
      calls := calls + [Call(key, plan.request, b.answer)];
      run, made := longer, made + [m];
      if b.answer.None? {
        var marked := ledger.MarkAiProviderOutcomeUnknown(reservation.value, b.now);
        ExecutionCharges(old(ledger.State()), ledger.State(), plan, key, b, t, reservation.value);
        return ProviderThrew;
      }
      var completed := ledger.CompleteAiProviderExecution(reservation.value, None, b.now);
      if b.source.value.settings.enableCache {
        LastIsAnswered(calls, plan.providerPlanHash, b.answer.value);
        StoreDraft(query, b.answer.value, linkedJob, t, b.now);
      }
      ledger.RecordAiRequest(true, b.now);
      ExecutionCharges(old(ledger.State()), ledger.State(), plan, key, b, t, reservation.value);
      r := Draft(b.answer.value, false);
    }

    /**
     * `generateCoverLetterAiDraft`. `preview` is where the reviewed plan came from.
     */
    method GenerateCoverLetterAiDraft(
        p: Prepared, b: Boundary, jobId: Option<Text>, retryId: Option<Text>, t: Tokens, ghost preview: Source)
      returns (r: Outcome)
      requires Valid() && FreshTokens(t) && PlanFrom(preview, p.request) == Some(p.plan)
      modifies this, ledger, cache
      ensures Valid()
      ensures if r.Draft? && r.fromCache then FromCache(p, b, retryId, r.text)
              else r == Expected(p, b, retryId, t, old(ledger.State()))
      // A changed or unavailable request has no effect at all.
      ensures ReviewedPlan(p, b).None? ==> cache.State() == old(cache.State())
      // The provider is called exactly for a fresh draft or a failed answer; otherwise nothing is reserved.
      ensures if (r.Draft? && !r.fromCache) || r.ProviderThrew? then Called(p, b, retryId, t)
              else calls == old(calls) && run == old(run) && made == old(made) && ledger.State() == old(ledger.State())
      // Short of a cached text, it is called exactly if the plan stands, access is granted and the operation is free.
      ensures !(r.Draft? && r.fromCache) ==>
        (calls != old(calls) <==> MayCall(p, b, retryId, old(ledger.State())))
      // A text that the first matching row gives is not asked for again.
      ensures !(r.Draft? && r.fromCache) && ReviewedPlan(p, b).Some? && AsksCache(b, retryId) ==>
        GivesNothing(old(cache.State()), QueryFor(ReviewedPlan(p, b).value, b), b.now)
      // No cached row is lost or changed but the first that answers the query.
      ensures ReviewedPlan(p, b).Some? ==>
        RowsStay(old(cache.State()), cache.State(), Others(old(cache.State()), QueryFor(ReviewedPlan(p, b).value, b)))
      // Short of a collision, the request that is sent is the previewed one.
      ensures calls != old(calls) && PlansDoNotCollide(p.plan.request, calls[|calls| - 1].request) ==>
        Identical(p.plan.request, calls[|calls| - 1].request)
      // And so is the request that a cached text answered.
      ensures r.Draft? && r.fromCache ==> AnsweredFor(calls, p.plan.request, r.text)
    {
      hide PlanFrom, OperationKey, Sound, Answered, PlansDoNotCollide, Identical, AnsweredFor, ValidRequest, HashTree, PlanTree, Gives,
        InputHash.InputHashOf, ReserveFor, Tracks, Unused, Charged, Free, MetaKey, Lit, IsFirstMatch, Others, Expected,
        ReviewedPlan, MayCall, LedgerParams, IsRetry, LedgerRun.After;
      TracksRun(run, made, calls, ledger.State());
      ExpectedBefore(p, b, retryId, t, ledger.State());
      if !b.ready {
        return NotReady;
      }
      if b.source.None? {
        return RecordsGone;
      }
      var source := b.source.value;
      var built := PlanFrom(source, p.request);
      if built.None? {
        return TextTooLong;
      }
      var currentPlan := built.value;
      if currentPlan.providerPlanHash != p.plan.providerPlanHash {
        return Stale;
      }
      var query := CacheQuery(currentPlan, InputHash.InputHashOf(b.inputTree));
      if source.settings.enableCache && !IsRetry(retryId) {
        var cached := CheckCoverLetterCache(query, b.now);
        if cached.Some? && |cached.value| > 0 {
          ghost var id :| Gives(cache.State(), id, query, b.now, cached.value);
          assert Gives(cache.State(), id, QueryFor(ReviewedPlan(p, b).value, b), b.now, cached.value);
          AnswerIsForPreview(preview, p.request, calls, cached.value);
          return Draft(cached.value, true);
        }
      }
      if !b.granted {
        return NotGranted;
      }
      if !b.preflightOk {
        return PreflightFailed;
      }
      var key := OperationKey(currentPlan, retryId);
      if key.None? {
        return TextTooLong;
      }
      PlanFromIsHashed(source, p.request);
      ExpectedOfPlan(p, b, retryId, t, ledger.State(), currentPlan, key.value);
      ghost var looked := cache.State();
      r := CallUnderReservation(
        currentPlan, key.value, b, if jobId.Some? then jobId.value else p.request.jobId, query, t);
      SentIsPreviewed(preview, p.request, currentPlan.request);
      RowsStayOn(old(cache.State()), looked, cache.State(), Others(old(cache.State()), query));
    }
  }

  // ----- One call per preview -----

  /** Two calls for one operation key: a reset of the ledger lies between them, whoever else acts on it. */
  lemma ResetLiesBetweenCalls(x: Extension, i: nat, j: nat)
    requires x.Valid() && i < j < |x.calls| && x.calls[i].key == x.calls[j].key
    ensures j < |x.made| && exists r :: x.made[i].at + 1 < r < x.made[j].at && r < |x.run| && x.run[r].Reset?
  {
    hide Sound, LedgerRun.After, MadeIn, HashTree, PlanTree;
    ResetBetweenExecutions(x.run, x.made, i, j);
    assert MadeIn(x.run, x.made[j]);
    LiesInRun(x.run, x.made[j]);
  }

  lemma LiesInRun(run: seq<LedgerRun.Step>, m: Made)
    requires LedgerRun.After(run).Some? && MadeIn(run, m)
    ensures m.at < |run|
  {
  }

  /** Without a reset since, the operation of a call is as its answer settled it. */
  lemma CallStaysSettled(x: Extension, i: nat)
    requires x.Valid() && i < |x.calls|
    requires forall r :: x.made[i].at < r < |x.run| ==> !x.run[r].Reset?
    ensures var e := x.ledger.State().executions; var call := x.calls[i];
      call.key in e && e[call.key].state == (if call.answer.Some? then AiLedger.Completed else AiLedger.OutcomeUnknown) &&
      e[call.key].provider == call.request.provider && e[call.key].model == call.request.model &&
      e[call.key].kind == AiLedger.CoverLetterOperation && HashTree(PlanTree(call.request)) == Some(e[call.key].planHash)
  {
    hide Sound, LedgerRun.After, HashTree, PlanTree;
    assert MadeIn(x.run, x.made[i]) && MadeFor(x.made[i], x.calls[i]);
    MadeStaysClosed(x.run, x.made[i]);
  }

  lemma MadeStaysClosed(run: seq<LedgerRun.Step>, m: Made)
    requires LedgerRun.After(run).Some? && MadeIn(run, m)
    requires forall r :: m.at < r < |run| ==> !run[r].Reset?
    ensures Closed(LedgerRun.After(run).value.ledger, m.reservation, m.state)
  {
    hide LedgerRun.After, Closed, Resets;
    EpochCountsResets(run);
    assert run[..|run|] == run;
    if Resets(run[..m.at]) != Resets(run[..|run|]) {
      ResetLiesBetween(run, m.at, |run|);
    }
  }

  /**
   * However often a preview is executed again without a retry id, until a reset: if the
   * cache gives nothing, the outcome is a refusal. It says that the operation is completed
   * after an answer, and that its outcome is unknown after the provider threw.
   */
  lemma RepeatIsRefused(x: Extension, i: nat, p: Prepared, b: Boundary, t: Tokens)
    requires x.Valid() && i < |x.calls|
    requires forall r :: x.made[i].at < r < |x.run| ==> !x.run[r].Reset?
    requires ReviewedPlan(p, b).Some? && OperationKey(ReviewedPlan(p, b).value, None) == Some(x.calls[i].key)
    ensures var plan := ReviewedPlan(p, b).value;
      !Free(plan, x.calls[i].key, b, x.ledger.State()) &&
      var outcome := Expected(p, b, None, t, x.ledger.State());
      (if !b.granted then outcome == NotGranted else if !b.preflightOk then outcome == PreflightFailed else outcome.Refused?) &&
      (outcome.Refused? && Identical(plan.request, x.calls[i].request) ==>
        outcome.error == if x.calls[i].answer.None? then AiLedger.UnknownOutcome else AiLedger.AlreadyCompleted)
  {
    hide Sound, Tracks, PlanFrom, OperationKey, HashTree, PlanTree, ReserveFor, ValidRequest;
    CallStaysSettled(x, i);
    var plan := ReviewedPlan(p, b).value;
    FreeIsGranted(plan, x.calls[i].key, b, t, x.ledger.State());
    if Identical(plan.request, x.calls[i].request) {
      PlanFromIsHashed(b.source.value, p.request);
      IdenticalIsSamePlan(plan, x.calls[i].request);
      ClosedRefuses(plan, x.calls[i].key, b, t, x.ledger.State());
    }
  }

  lemma IdenticalIsSamePlan(plan: Plan, request: Request)
    requires Identical(plan.request, request) && HashTree(PlanTree(plan.request)) == Some(plan.providerPlanHash)
    requires HashTree(PlanTree(request)).Some?
    ensures HashTree(PlanTree(request)) == Some(plan.providerPlanHash)
    ensures request.provider == plan.request.provider && request.model == plan.request.model
  {
    hide HashTree, PlanTree, ValidRequest, MeaningOf, ToMap, Valid;
    PlanTreeIsValid(plan.request);
    PlanTreeIsValid(request);
    SameTreeIsSameRequest(plan.request, request);
    SameMeaningSameHash(PlanTree(plan.request), PlanTree(request));
  }

  lemma ClosedRefuses(plan: Plan, key: AiLedger.Key, b: Boundary, t: Tokens, l: AiLedger.Ledger)
    requires b.source.Some? && key in l.executions
    requires var e := l.executions[key];
      (e.state == AiLedger.Completed || e.state == AiLedger.OutcomeUnknown) && e.planHash == plan.providerPlanHash &&
      e.provider == plan.request.provider && e.model == plan.request.model && e.kind == AiLedger.CoverLetterOperation
    ensures ReserveFor(plan, key, b, t, l).1 ==
      Err(if l.executions[key].state == AiLedger.OutcomeUnknown then AiLedger.UnknownOutcome else AiLedger.AlreadyCompleted)
  {
    hide AiLedger.Used;
  }
}
