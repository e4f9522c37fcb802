/**
 * `buildProviderRequestPlan` and `buildStandaloneOperationKey`: the privacy policy
 * applied to the input, the request built from what is left, and its keys.
 */
module PlanBuilder {
  import opened JsText
  import opened JsonTree
  import opened LetterConstraints
  import opened Fingerprint
  import opened ProviderPlan

  datatype Settings = Settings(
    aiEnabled: bool,
    provider: Option<Text>,
    model: Option<Text>,
    strictPrivacyMode: bool,
    allowResumeHighlightsToAI: bool,
    allowFullDescriptionToAI: bool,
    redactContacts: bool,
    maxInputChars: int,
    dailyRequestLimit: real,
    enableCache: bool)

  datatype Input =
    | Analysis(title: Text, company: Text, salaryRaw: Option<Text>, city: Option<Text>, workMode: Text,
               experienceRaw: Option<Text>, skills: seq<Text>, description: Text, summary: Text,
               targetTitles: seq<Text>, mustHaveSkills: seq<Text>, niceToHaveSkills: seq<Text>,
               resume: Option<Text>, strictPrivacy: bool)
    | Letter(title: Text, company: Text, topRequirements: Text, skills: seq<Text>, summary: Text,
             resumeText: Text, mode: Text, constraints: Constraints, language: Text)

  /** Redaction, prompt wording and payload layout: foreign to this model, functions of what they are given. */
  datatype Environment = Environment(
    redact: (Text, Option<nat>, bool) -> Text,
    payload: (Input, bool) -> Json,
    analysisSystemPrompt: Text,
    analysisUserPrompt: Input -> Text,
    letterSystemPrompt: Constraints -> Text,
    letterUserPrompt: Input -> Text,
    needsCompletionTokens: Text -> bool)

  // ----- Policy -----

  function Provider(s: Settings): Text {
    if s.provider.Some? then s.provider.value else Lit("mock")
  }

  /** The policy's model: an empty one counts as none. The setting is taken as already trimmed. */
  function PolicyModel(s: Settings): Text {
    if s.model.Some? then s.model.value else []
  }

  function Model(s: Settings): Text {
    if |PolicyModel(s)| > 0 then PolicyModel(s)
    else if Provider(s) == Lit("openai") then Lit("gpt-4o")
    else Lit("mock-gpt-4o")
  }

  function Min(a: int, b: int): int { if a < b then a else b }

  function Max(a: int, b: int): int { if a < b then b else a }

  function MaxInputChars(s: Settings): (n: nat)
    ensures 256 <= n <= 12000
  {
    Max(256, Min(12000, if s.maxInputChars == 0 then 3000 else s.maxInputChars))
  }

  function AllowsResume(s: Settings): bool {
    s.allowResumeHighlightsToAI && !s.strictPrivacyMode
  }

  function AllowsDescription(s: Settings): bool {
    s.allowFullDescriptionToAI && !s.strictPrivacyMode
  }

  function DecimalDigits(n: nat): (t: Text)
    ensures |t| > 0 && forall i :: 0 <= i < |t| ==> 0x30 <= t[i] <= 0x39
  {
    if n < 10 then [0x30 + n] else DecimalDigits(n / 10) + [0x30 + n % 10]
  }

  function DecimalOf(n: nat): NumberText {
    var t := DecimalDigits(n);
    assert IsNumberText(t);
    t
  }

  const POLICY_KEYS := [
    "policyVersion", "aiEnabled", "provider", "model", "privacyMode", "allowResumeHighlightsToAI",
    "allowFullDescriptionToAI", "redactContacts", "maxInputChars"]

  /** What `policyFingerprint` hashes: everything but the budget and cache knobs. */
  function PolicyTree(s: Settings): Json {
    Object(Literal(POLICY_KEYS,
      [String(Lit(PLAN_VERSION)), Bool(s.aiEnabled), String(Provider(s)), String(PolicyModel(s)),
       String(Lit(if s.strictPrivacyMode then "strict" else "standard")),
       Bool(s.allowResumeHighlightsToAI), Bool(s.allowFullDescriptionToAI), Bool(s.redactContacts),
       Number(DecimalOf(MaxInputChars(s)))]))
  }

  // ----- Policy applied to the input -----

  function Safe(env: Environment, s: Settings, t: Text, limit: nat): Text {
    env.redact(t, Some(limit), s.redactContacts)
  }

  /** `value ? safe(value) : undefined`: an empty string is dropped too. */
  function SafeOptional(env: Environment, s: Settings, t: Option<Text>, limit: nat): Option<Text> {
    if t.Some? && |t.value| > 0 then Some(Safe(env, s, t.value, limit)) else None
  }

  /** `list.slice(0, count).map(safe)`. */
  function SafeList(env: Environment, s: Settings, list: seq<Text>, count: nat): seq<Text> {
    var kept := if |list| <= count then list else list[..count];
    seq(|kept|, i requires 0 <= i < |kept| => Safe(env, s, kept[i], 200))
  }

  function SanitizeConstraints(c: Constraints): Constraints {
    c.(maxChars := if c.maxChars == Some(500) || c.maxChars == Some(1000) then c.maxChars else None)
  }

  function ApplyPolicy(env: Environment, s: Settings, input: Input): Input {
    match input
    case Analysis(_, _, _, _, _, _, _, _, _, _, _, _, _, _) =>
      Analysis(
        Safe(env, s, input.title, 500), Safe(env, s, input.company, 500),
        SafeOptional(env, s, input.salaryRaw, 200), SafeOptional(env, s, input.city, 200),
        Safe(env, s, input.workMode, 64), SafeOptional(env, s, input.experienceRaw, 500),
        SafeList(env, s, input.skills, 50),
        if AllowsDescription(s) then Safe(env, s, input.description, Min(MaxInputChars(s), 12000)) else [],
        Safe(env, s, input.summary, MaxInputChars(s)),
        SafeList(env, s, input.targetTitles, 20), SafeList(env, s, input.mustHaveSkills, 30),
        SafeList(env, s, input.niceToHaveSkills, 30),
        if AllowsResume(s) then SafeOptional(env, s, input.resume, Min(MaxInputChars(s), 12000)) else None,
        s.strictPrivacyMode)
    case Letter(_, _, _, _, _, _, _, _, _) =>
      Letter(
        Safe(env, s, input.title, 500), Safe(env, s, input.company, 500),
        Safe(env, s, input.topRequirements, 800), SafeList(env, s, input.skills, 50),
        Safe(env, s, input.summary, MaxInputChars(s)),
        if AllowsResume(s) then Safe(env, s, input.resumeText, Min(MaxInputChars(s), 12000)) else [],
        input.mode, SanitizeConstraints(input.constraints), input.language)
  }

  // ----- The request -----

  function KindOf(input: Input): Kind {
    if input.Analysis? then VacancyAnalysis else CoverLetter
  }

  function MessagesFor(env: Environment, safe: Input): seq<Message> {
    if safe.Analysis? then
      [Message(Lit("system"), env.analysisSystemPrompt), Message(Lit("user"), env.analysisUserPrompt(safe))]
    else
      [Message(Lit("system"), env.letterSystemPrompt(safe.constraints)), Message(Lit("user"), env.letterUserPrompt(safe))]
  }

  function OptionFields(env: Environment, s: Settings, kind: Kind): seq<Field> {
    Literal(
      ["temperature", if env.needsCompletionTokens(Model(s)) then "max_completion_tokens" else "max_tokens",
       "sdkRetries", "outputMode"],
      [Number(ZERO_POINT_FOUR), Number(DecimalOf(1500)), Number(DecimalOf(0)),
       String(Lit(if kind.VacancyAnalysis? then "json" else "text"))])
  }

  const ZERO_POINT_FOUR: NumberText := [0x30, 0x2E, 0x34]

  const REPAIR_POLICY := "one-bounded-repair;provider-sdk-retries-zero;validated-output-only"

  function InputTree(payload: Json, privacyFingerprint: Text): Json {
    Object(Literal(["dynamicPayload", "policy"], [payload, String(privacyFingerprint)]))
  }

  function CompilerTree(kind: Kind, messages: seq<Message>): Json {
    Object(Literal(["operationKind", "messages", "planVersion"],
      [String(KindText(kind)), MessagesTree(messages), String(Lit(PLAN_VERSION))]))
  }

  /** The request for an input the policy has passed, or `None` where a fingerprint cannot be computed. */
  function RequestFor(env: Environment, s: Settings, safe: Input, subjectIds: StringRecord): Option<Request> {
    var kind := KindOf(safe);
    var messages := MessagesFor(env, safe);
    var privacy :- HashTree(PolicyTree(s));
    var authoritative :- HashTree(InputTree(env.payload(safe, s.redactContacts), privacy));
    var compiler :- HashTree(CompilerTree(kind, messages));
    var repair :- Sha256Of(Lit(REPAIR_POLICY));
    Some(Request(kind, subjectIds, Provider(s), Model(s), messages, OptionFields(env, s, kind),
      compiler, repair, privacy, authoritative))
  }

  function BuildRequest(env: Environment, s: Settings, input: Input, subjectIds: StringRecord): Option<Request> {
    RequestFor(env, s, ApplyPolicy(env, s, input), subjectIds)
  }

  /** `buildProviderRequestPlan`. */
  function BuildPlan(env: Environment, s: Settings, input: Input, subjectIds: StringRecord): Option<Plan> {
    var request :- BuildRequest(env, s, input, subjectIds);
    var hash :- HashTree(PlanTree(request));
    Some(Plan(request, hash))
  }

  lemma OptionsAreValid(env: Environment, s: Settings, kind: Kind)
    ensures Valid(Object(OptionFields(env, s, kind)))
  {
    hide DecimalOf, Lit;
    var completion := env.needsCompletionTokens(Model(s));
    var values := [Number(ZERO_POINT_FOUR), Number(DecimalOf(1500)), Number(DecimalOf(0)),
      String(Lit(if kind.VacancyAnalysis? then "json" else "text"))];
    if completion {
      LiteralIsValid(["temperature", "max_completion_tokens", "sdkRetries", "outputMode"], values,
        [11 * 0x1_0000 + 0x6D, 21 * 0x1_0000 + 0x78, 10 * 0x1_0000 + 0x6B, 10 * 0x1_0000 + 0x74]);
    } else {
      LiteralIsValid(["temperature", "max_tokens", "sdkRetries", "outputMode"], values,
        [11 * 0x1_0000 + 0x6D, 10 * 0x1_0000 + 0x78, 10 * 0x1_0000 + 0x6B, 10 * 0x1_0000 + 0x74]);
    }
  }

  /** Short of a SHA-256 collision, two plans with one hash send the same request. */
  lemma SamePlanHashSameRequest(
    env: Environment, s: Settings, input: Input, ids: StringRecord,
    env': Environment, s': Settings, input': Input, ids': StringRecord)
    requires DistinctNames(ids) && DistinctNames(ids')
    requires BuildPlan(env, s, input, ids).Some? && BuildPlan(env', s', input', ids').Some?
    requires TreesDoNotCollide(PlanTree(BuildPlan(env, s, input, ids).value.request),
                               PlanTree(BuildPlan(env', s', input', ids').value.request))
    ensures ValidRequest(BuildPlan(env, s, input, ids).value.request)
    ensures ValidRequest(BuildPlan(env', s', input', ids').value.request)
    ensures BuildPlan(env, s, input, ids).value.providerPlanHash == BuildPlan(env', s', input', ids').value.providerPlanHash
      <==> SameRequest(BuildPlan(env, s, input, ids).value.request, BuildPlan(env', s', input', ids').value.request)
  {
    hide *;
    BuiltRequestIsValid(env, s, input, ids);
    BuiltRequestIsValid(env', s', input', ids');
    var p, q := BuildPlan(env, s, input, ids).value, BuildPlan(env', s', input', ids').value;
    PlanHashIdentifiesRequest(p.request, q.request);
  }

  lemma BuiltRequestIsValid(env: Environment, s: Settings, input: Input, ids: StringRecord)
    requires DistinctNames(ids) && BuildPlan(env, s, input, ids).Some?
    ensures ValidRequest(BuildPlan(env, s, input, ids).value.request)
    ensures HashTree(PlanTree(BuildPlan(env, s, input, ids).value.request)) ==
      Some(BuildPlan(env, s, input, ids).value.providerPlanHash)
  {
    hide PlanTree, HashTree, OptionFields, Valid, ApplyPolicy, MessagesFor, PolicyTree, InputTree, CompilerTree,
      Sha256Of, Lit, Provider, Model;
    OptionsAreValid(env, s, KindOf(ApplyPolicy(env, s, input)));
  }

  /** The two inputs differ at most in text the settings keep from the provider. */
  predicate DifferOnlyInHiddenText(s: Settings, a: Input, b: Input) {
    (a.Analysis? && b.Analysis? &&
     b == a.(description := b.description, resume := b.resume, strictPrivacy := b.strictPrivacy) &&
     (AllowsDescription(s) ==> a.description == b.description) &&
     (AllowsResume(s) ==> a.resume == b.resume)) ||
    (a.Letter? && b.Letter? &&
     b == a.(resumeText := b.resumeText) &&
     (AllowsResume(s) ==> a.resumeText == b.resumeText))
  }

  /**
   * Text the settings withhold has no influence on the plan: not on its messages, not
   * on its fingerprints. In strict mode that covers the description and the resume.
   */
  lemma HiddenTextDoesNotReachThePlan(env: Environment, s: Settings, a: Input, b: Input, ids: StringRecord)
    requires DifferOnlyInHiddenText(s, a, b)
    ensures BuildPlan(env, s, a, ids) == BuildPlan(env, s, b, ids)
  {
    hide ApplyPolicy, RequestFor, HashTree, PlanTree, DifferOnlyInHiddenText;
    SameSafeInput(env, s, a, b);
  }

  lemma SameSafeInput(env: Environment, s: Settings, a: Input, b: Input)
    requires DifferOnlyInHiddenText(s, a, b)
    ensures ApplyPolicy(env, s, a) == ApplyPolicy(env, s, b)
  {
    hide SafeList, SafeOptional, Safe, SanitizeConstraints, MaxInputChars;
  }

  /** The budget and the cache switch are not part of the plan: changing them keeps every hash. */
  lemma BudgetDoesNotReachThePlan(
    env: Environment, s: Settings, input: Input, ids: StringRecord, limit: real, enableCache: bool)
    ensures BuildPlan(env, s.(dailyRequestLimit := limit, enableCache := enableCache), input, ids) ==
      BuildPlan(env, s, input, ids)
  {
    hide HashTree, PlanTree, ApplyPolicy, MessagesFor, PolicyTree, OptionFields, InputTree, CompilerTree, Sha256Of, Lit;
    var s' := s.(dailyRequestLimit := limit, enableCache := enableCache);
    SamePolicy(env, s, s', input);
  }

  predicate SameKnobs(s: Settings, s': Settings) {
    s' == s.(dailyRequestLimit := s'.dailyRequestLimit, enableCache := s'.enableCache) &&
    Provider(s') == Provider(s) && PolicyModel(s') == PolicyModel(s) && Model(s') == Model(s) &&
    MaxInputChars(s') == MaxInputChars(s) && AllowsResume(s') == AllowsResume(s) &&
    AllowsDescription(s') == AllowsDescription(s)
  }

  lemma SamePolicy(env: Environment, s: Settings, s': Settings, input: Input)
    requires s' == s.(dailyRequestLimit := s'.dailyRequestLimit, enableCache := s'.enableCache)
    ensures PolicyTree(s') == PolicyTree(s) && ApplyPolicy(env, s', input) == ApplyPolicy(env, s, input)
    ensures OptionFields(env, s', VacancyAnalysis) == OptionFields(env, s, VacancyAnalysis)
    ensures OptionFields(env, s', CoverLetter) == OptionFields(env, s, CoverLetter)
    ensures Provider(s') == Provider(s) && Model(s') == Model(s)
  {
    hide PolicyTree, ApplyPolicy, OptionFields;
    assert SameKnobs(s, s');
    SamePolicyTree(s, s');
    SamePolicyInput(env, s, s', input);
    SameOptions(env, s, s', VacancyAnalysis);
    SameOptions(env, s, s', CoverLetter);
  }

  lemma SamePolicyTree(s: Settings, s': Settings)
    requires SameKnobs(s, s')
    ensures PolicyTree(s') == PolicyTree(s)
  {
    hide Provider, PolicyModel, Model, MaxInputChars, Literal, Lit, DecimalOf;
  }

  lemma SameOptions(env: Environment, s: Settings, s': Settings, kind: Kind)
    requires SameKnobs(s, s')
    ensures OptionFields(env, s', kind) == OptionFields(env, s, kind)
  {
    hide Provider, PolicyModel, Model, MaxInputChars, Literal, Lit, DecimalOf;
  }

  lemma SamePolicyInput(env: Environment, s: Settings, s': Settings, input: Input)
    requires SameKnobs(s, s')
    ensures ApplyPolicy(env, s', input) == ApplyPolicy(env, s, input)
  {
    hide Provider, PolicyModel, Model, MaxInputChars, AllowsResume, AllowsDescription, SanitizeConstraints, Lit;
    forall list: seq<Text>, count: nat ensures SafeList(env, s', list, count) == SafeList(env, s, list, count) {
      SameList(env, s, s', list, count);
    }
    hide SafeList;
  }

  lemma SameList(env: Environment, s: Settings, s': Settings, list: seq<Text>, count: nat)
    requires s'.redactContacts == s.redactContacts
    ensures SafeList(env, s', list, count) == SafeList(env, s, list, count)
  {
    var a, b := SafeList(env, s', list, count), SafeList(env, s, list, count);
    var kept := if |list| <= count then list else list[..count];
    forall i | 0 <= i < |kept| ensures a[i] == b[i] {
      assert a[i] == Safe(env, s', kept[i], 200) && b[i] == Safe(env, s, kept[i], 200);
    }
  }

  // ----- Operation keys -----

  const OPERATION_KEYS := ["domainIdentity", "operationKind", "subjectIds", "providerPlanHash", "retryId"]

  function OperationValues(plan: Plan, retryId: Text): seq<Json> {
    [String(Lit("standalone")), String(KindText(plan.request.kind)),
     Object(RecordFields(plan.request.subjectIds)), String(plan.providerPlanHash), String(retryId)]
  }

  function OperationTree(plan: Plan, retryId: Text): Json {
    Object(Literal(OPERATION_KEYS, OperationValues(plan, retryId)))
  }

  /** `retryId ?? ""`. */
  function RetryText(retryId: Option<Text>): Text {
    if retryId.Some? then retryId.value else []
  }

  /** `buildStandaloneOperationKey`. */
  function OperationKey(plan: Plan, retryId: Option<Text>): Option<Text> {
    HashTree(OperationTree(plan, RetryText(retryId)))
  }

  lemma OperationTreeIsValid(plan: Plan, retryId: Text)
    requires DistinctNames(plan.request.subjectIds)
    ensures Valid(OperationTree(plan, retryId))
    ensures DistinctKeys(Literal(OPERATION_KEYS, OperationValues(plan, retryId)))
  {
    assert Valid(Object(RecordFields(plan.request.subjectIds)));
    hide RecordFields;
    LiteralIsValid(OPERATION_KEYS, OperationValues(plan, retryId),
      [14 * 0x1_0000 + 0x6D, 13 * 0x1_0000 + 0x65, 10 * 0x1_0000 + 0x62, 16 * 0x1_0000 + 0x6F, 7 * 0x1_0000 + 0x74]);
  }

  /**
   * Short of a collision, one operation key means one plan hash, one kind, one set of
   * subjects and one retry id, where a missing retry id counts as the empty one.
   */
  lemma OperationKeyIdentifiesOperation(p: Plan, q: Plan, retry: Option<Text>, retry': Option<Text>)
    requires DistinctNames(p.request.subjectIds) && DistinctNames(q.request.subjectIds)
    requires OperationKey(p, retry).Some? && OperationKey(q, retry').Some?
    requires TreesDoNotCollide(OperationTree(p, RetryText(retry)), OperationTree(q, RetryText(retry')))
    ensures OperationKey(p, retry) == OperationKey(q, retry') <==>
      p.providerPlanHash == q.providerPlanHash && p.request.kind == q.request.kind &&
      ToMap(p.request.subjectIds) == ToMap(q.request.subjectIds) && RetryText(retry) == RetryText(retry')
  {
    hide MeaningOf, Valid, OperationTree, HashTree, ToMap;
    OperationTreeIsValid(p, RetryText(retry));
    OperationTreeIsValid(q, RetryText(retry'));
    HashIdentifiesTree(OperationTree(p, RetryText(retry)), OperationTree(q, RetryText(retry')));
    SameOperationTree(p, q, RetryText(retry), RetryText(retry'));
  }

  lemma SameOperationTree(p: Plan, q: Plan, retry: Text, retry': Text)
    requires DistinctNames(p.request.subjectIds) && DistinctNames(q.request.subjectIds)
    ensures MeaningOf(OperationTree(p, retry)) == MeaningOf(OperationTree(q, retry')) <==>
      p.providerPlanHash == q.providerPlanHash && p.request.kind == q.request.kind &&
      ToMap(p.request.subjectIds) == ToMap(q.request.subjectIds) && retry == retry'
  {
    hide MeaningOf, Valid, ToMap, RecordFields, KindText, Lit;
    OperationTreeIsValid(p, retry);
    OperationTreeIsValid(q, retry');
    SameRecordMap(p.request.subjectIds, q.request.subjectIds);
    var v, w := OperationValues(p, retry), OperationValues(q, retry');
    var fs, gs := Literal(OPERATION_KEYS, v), Literal(OPERATION_KEYS, w);
    if MeaningOf(OperationTree(p, retry)) == MeaningOf(OperationTree(q, retry')) {
      SameProperties(fs, gs);
      forall i | 0 <= i < 5 ensures MeaningOf(v[i]) == MeaningOf(w[i]) {
        assert fs[i].value == v[i] && gs[i].value == w[i];
      }
      assert MeaningOf(v[2]) == MeaningOf(w[2]);
      SameString(v[1], w[1]);
      SameString(v[3], w[3]);
      SameString(v[4], w[4]);
      KindTextInjective(p.request.kind, q.request.kind);
    } else if p.providerPlanHash == q.providerPlanHash && p.request.kind == q.request.kind &&
      ToMap(p.request.subjectIds) == ToMap(q.request.subjectIds) && retry == retry' {
      forall i | 0 <= i < |fs| ensures MeaningOf(fs[i].value) == MeaningOf(gs[i].value) {
        assert fs[i].value == v[i] && gs[i].value == w[i];
      }
      SameRecord(fs, gs);
    }
  }
}
