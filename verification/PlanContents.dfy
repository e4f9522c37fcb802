/**
 * What a plan contains: which text reaches the prompts and under which redaction, what
 * its fingerprints cover, and that nothing else has any influence.
 */
module PlanContents {
  import opened JsText
  import opened JsonTree
  import opened LetterConstraints
  import opened Fingerprint
  import opened ProviderPlan
  import opened PlanBuilder

  /** The limit of long texts: the setting between 256 and 12,000, and 3,000 if it is zero. */
  predicate IsLongLimit(s: Settings, n: nat) {
    n == if s.maxInputChars == 0 then 3000 else if s.maxInputChars < 256 then 256
         else if s.maxInputChars > 12000 then 12000 else s.maxInputChars
  }

  predicate ShowsDescription(s: Settings) {
    s.allowFullDescriptionToAI && !s.strictPrivacyMode
  }

  predicate ShowsResume(s: Settings) {
    s.allowResumeHighlightsToAI && !s.strictPrivacyMode
  }

  // ----- Presence -----

  predicate IsRedactedOption(env: Environment, s: Settings, t: Option<Text>, limit: nat, out: Option<Text>) {
    out == if t == None || t == Some([]) then None else Some(env.redact(t.value, Some(limit), s.redactContacts))
  }

  /** The first `count` items, each redacted to 200 characters. */
  predicate IsRedactedList(env: Environment, s: Settings, list: seq<Text>, count: nat, out: seq<Text>) {
    |out| == (if |list| < count then |list| else count) &&
    forall i :: 0 <= i < |out| ==> out[i] == env.redact(list[i], Some(200), s.redactContacts)
  }

  predicate IsRedactedAnalysis(env: Environment, s: Settings, n: nat, input: Input, x: Input)
    requires input.Analysis?
  {
    x.Analysis? &&
    x.title == env.redact(input.title, Some(500), s.redactContacts) &&
    x.company == env.redact(input.company, Some(500), s.redactContacts) &&
    IsRedactedOption(env, s, input.salaryRaw, 200, x.salaryRaw) &&
    IsRedactedOption(env, s, input.city, 200, x.city) &&
    x.workMode == env.redact(input.workMode, Some(64), s.redactContacts) &&
    IsRedactedOption(env, s, input.experienceRaw, 500, x.experienceRaw) &&
    IsRedactedList(env, s, input.skills, 50, x.skills) &&
    x.description == (if ShowsDescription(s) then env.redact(input.description, Some(n), s.redactContacts) else []) &&
    x.summary == env.redact(input.summary, Some(n), s.redactContacts) &&
    IsRedactedList(env, s, input.targetTitles, 20, x.targetTitles) &&
    IsRedactedList(env, s, input.mustHaveSkills, 30, x.mustHaveSkills) &&
    IsRedactedList(env, s, input.niceToHaveSkills, 30, x.niceToHaveSkills) &&
    (if ShowsResume(s) then IsRedactedOption(env, s, input.resume, n, x.resume) else x.resume == None) &&
    x.strictPrivacy == s.strictPrivacyMode
  }

  predicate IsRedactedLetter(env: Environment, s: Settings, n: nat, input: Input, x: Input)
    requires input.Letter?
  {
    x.Letter? &&
    x.title == env.redact(input.title, Some(500), s.redactContacts) &&
    x.company == env.redact(input.company, Some(500), s.redactContacts) &&
    x.topRequirements == env.redact(input.topRequirements, Some(800), s.redactContacts) &&
    IsRedactedList(env, s, input.skills, 50, x.skills) &&
    x.summary == env.redact(input.summary, Some(n), s.redactContacts) &&
    x.resumeText == (if ShowsResume(s) then env.redact(input.resumeText, Some(n), s.redactContacts) else []) &&
    x.mode == input.mode && x.language == input.language &&
    x.constraints.noEmoji == input.constraints.noEmoji && x.constraints.noMarkdown == input.constraints.noMarkdown &&
    x.constraints.noSpecialChars == input.constraints.noSpecialChars &&
    x.constraints.maxChars ==
      (if input.constraints.maxChars == Some(500) then Some(500) else if input.constraints.maxChars == Some(1000) then Some(1000)
       else None)
  }

  /** Field by field, with the limit of each: what may reach the provider. */
  predicate IsRedacted(env: Environment, s: Settings, n: nat, input: Input, x: Input) {
    if input.Analysis? then IsRedactedAnalysis(env, s, n, input, x) else IsRedactedLetter(env, s, n, input, x)
  }

  lemma ListIsRedacted(env: Environment, s: Settings, list: seq<Text>, count: nat)
    ensures IsRedactedList(env, s, list, count, SafeList(env, s, list, count))
  {
    var kept := if |list| <= count then list else list[..count];
    var out := SafeList(env, s, list, count);
    forall i | 0 <= i < |out| ensures out[i] == env.redact(list[i], Some(200), s.redactContacts) {
      assert out[i] == Safe(env, s, kept[i], 200);
    }
  }

  lemma OptionIsRedacted(env: Environment, s: Settings, t: Option<Text>, limit: nat)
    ensures IsRedactedOption(env, s, t, limit, SafeOptional(env, s, t, limit))
  {
  }

  lemma PolicyRedacts(env: Environment, s: Settings, n: nat, input: Input)
    requires IsLongLimit(s, n)
    ensures IsRedacted(env, s, n, input, ApplyPolicy(env, s, input))
  {
    hide SafeList, SafeOptional, IsRedactedList, IsRedactedOption;
    ListIsRedacted(env, s, input.skills, 50);
    if input.Analysis? {
      ListIsRedacted(env, s, input.targetTitles, 20);
      ListIsRedacted(env, s, input.mustHaveSkills, 30);
      ListIsRedacted(env, s, input.niceToHaveSkills, 30);
      OptionIsRedacted(env, s, input.salaryRaw, 200);
      OptionIsRedacted(env, s, input.city, 200);
      OptionIsRedacted(env, s, input.experienceRaw, 500);
      OptionIsRedacted(env, s, input.resume, n);
    }
  }

  // ----- Noninterference -----

  predicate AgreeOption(env: Environment, s: Settings, a: Option<Text>, b: Option<Text>, limit: nat) {
    (a == None || a == Some([]) <==> b == None || b == Some([])) &&
    (a != None && a != Some([]) ==>
      env.redact(a.value, Some(limit), s.redactContacts) == env.redact(b.value, Some(limit), s.redactContacts))
  }

  /** The items that may be sent are as many and redact alike. */
  predicate AgreeList(env: Environment, s: Settings, a: seq<Text>, b: seq<Text>, count: nat) {
    (|a| == |b| || (|a| >= count && |b| >= count)) &&
    forall i :: 0 <= i < |a| && i < count ==>
      env.redact(a[i], Some(200), s.redactContacts) == env.redact(b[i], Some(200), s.redactContacts)
  }

  /** Limits other than 500 and 1000 count as none. */
  predicate AgreeConstraints(a: Constraints, b: Constraints) {
    a.noEmoji == b.noEmoji && a.noMarkdown == b.noMarkdown && a.noSpecialChars == b.noSpecialChars &&
    (a.maxChars == b.maxChars || (a.maxChars !in {Some(500), Some(1000)} && b.maxChars !in {Some(500), Some(1000)}))
  }

  predicate AgreeText(env: Environment, s: Settings, a: Text, b: Text, limit: nat) {
    env.redact(a, Some(limit), s.redactContacts) == env.redact(b, Some(limit), s.redactContacts)
  }

  /** The two inputs redact alike, wherever they may be shown at all. */
  predicate RedactAlike(env: Environment, s: Settings, n: nat, a: Input, b: Input) {
    AgreeText(env, s, a.title, b.title, 500) && AgreeText(env, s, a.company, b.company, 500) &&
    AgreeList(env, s, a.skills, b.skills, 50) && AgreeText(env, s, a.summary, b.summary, n) &&
    ((a.Analysis? && b.Analysis? &&
      AgreeOption(env, s, a.salaryRaw, b.salaryRaw, 200) && AgreeOption(env, s, a.city, b.city, 200) &&
      AgreeText(env, s, a.workMode, b.workMode, 64) && AgreeOption(env, s, a.experienceRaw, b.experienceRaw, 500) &&
      AgreeList(env, s, a.targetTitles, b.targetTitles, 20) && AgreeList(env, s, a.mustHaveSkills, b.mustHaveSkills, 30) &&
      AgreeList(env, s, a.niceToHaveSkills, b.niceToHaveSkills, 30) &&
      (ShowsDescription(s) ==> AgreeText(env, s, a.description, b.description, n)) &&
      (ShowsResume(s) ==> AgreeOption(env, s, a.resume, b.resume, n))) ||
     (a.Letter? && b.Letter? && AgreeText(env, s, a.topRequirements, b.topRequirements, 800) &&
      (ShowsResume(s) ==> AgreeText(env, s, a.resumeText, b.resumeText, n)) &&
      a.mode == b.mode && a.language == b.language && AgreeConstraints(a.constraints, b.constraints)))
  }

  lemma SameRedactedList(
    env: Environment, s: Settings, a: seq<Text>, b: seq<Text>, count: nat, out: seq<Text>, out': seq<Text>)
    requires IsRedactedList(env, s, a, count, out) && IsRedactedList(env, s, b, count, out')
    requires AgreeList(env, s, a, b, count)
    ensures out == out'
  {
  }

  lemma SameRedactedInput(env: Environment, s: Settings, n: nat, a: Input, b: Input, x: Input, y: Input)
    requires IsRedacted(env, s, n, a, x) && IsRedacted(env, s, n, b, y) && RedactAlike(env, s, n, a, b)
    ensures x == y
  {
    hide IsRedactedList, AgreeList;
    SameRedactedList(env, s, a.skills, b.skills, 50, x.skills, y.skills);
    if a.Analysis? {
      SameRedactedList(env, s, a.targetTitles, b.targetTitles, 20, x.targetTitles, y.targetTitles);
      SameRedactedList(env, s, a.mustHaveSkills, b.mustHaveSkills, 30, x.mustHaveSkills, y.mustHaveSkills);
      SameRedactedList(env, s, a.niceToHaveSkills, b.niceToHaveSkills, 30, x.niceToHaveSkills, y.niceToHaveSkills);
    }
  }

  /**
   * Nothing of an input reaches the plan but what redaction leaves of it, under the
   * settings' own switch for contacts: inputs that redact alike have one plan.
   */
  lemma OnlyRedactedTextReachesThePlan(env: Environment, s: Settings, n: nat, a: Input, b: Input, ids: StringRecord)
    requires IsLongLimit(s, n) && RedactAlike(env, s, n, a, b)
    ensures BuildPlan(env, s, a, ids) == BuildPlan(env, s, b, ids)
  {
    hide ApplyPolicy, RequestFor, HashTree, PlanTree, RedactAlike, IsRedacted;
    PolicyRedacts(env, s, n, a);
    PolicyRedacts(env, s, n, b);
    SameRedactedInput(env, s, n, a, b, ApplyPolicy(env, s, a), ApplyPolicy(env, s, b));
  }

  // ----- The whole plan -----

  /** The prompts, from the redacted input. */
  predicate HasPrompts(env: Environment, x: Input, messages: seq<Message>) {
    messages == [
      Message(Lit("system"), if x.Analysis? then env.analysisSystemPrompt else env.letterSystemPrompt(x.constraints)),
      Message(Lit("user"), if x.Analysis? then env.analysisUserPrompt(x) else env.letterUserPrompt(x))]
  }

  predicate HasProvider(s: Settings, provider: Text, model: Text) {
    provider == (if s.provider == None then Lit("mock") else s.provider.value) &&
    model == (if s.model != None && s.model != Some([]) then s.model.value
              else if provider == Lit("openai") then Lit("gpt-4o") else Lit("mock-gpt-4o"))
  }

  lemma ProviderIsNamed(s: Settings)
    ensures HasProvider(s, Provider(s), Model(s))
  {
    hide Lit;
  }

  predicate HasOptions(env: Environment, kind: Kind, model: Text, options: seq<Field>) {
    options == [
      Field(Lit("temperature"), Number([0x30, 0x2E, 0x34])),
      Field(Lit(if env.needsCompletionTokens(model) then "max_completion_tokens" else "max_tokens"),
        Number([0x31, 0x35, 0x30, 0x30])),
      Field(Lit("sdkRetries"), Number([0x30])),
      Field(Lit("outputMode"), String(Lit(if kind == VacancyAnalysis then "json" else "text")))]
  }

  lemma OptionsAreNamed(env: Environment, s: Settings, kind: Kind)
    ensures HasOptions(env, kind, Model(s), OptionFields(env, s, kind))
  {
    assert DecimalDigits(1500) == [0x31, 0x35, 0x30, 0x30] && DecimalDigits(0) == [0x30] by {
      assert DecimalDigits(1) == [0x31] && DecimalDigits(15) == [0x31, 0x35] && DecimalDigits(150) == [0x31, 0x35, 0x30];
    }
    hide Model, DecimalDigits, Lit;
  }

  /** The fingerprints of a plan, from what each of them covers. */
  ghost predicate HasFingerprints(env: Environment, s: Settings, x: Input, r: Request) {
    HashTree(PolicyTree(s)) == Some(r.privacyFingerprint) &&
    HashTree(InputTree(env.payload(x, s.redactContacts), r.privacyFingerprint)) == Some(r.inputFingerprint) &&
    HashTree(CompilerTree(r.kind, r.messages)) == Some(r.compilerFingerprint) &&
    Sha256Of(Lit("one-bounded-repair;provider-sdk-retries-zero;validated-output-only")) == Some(r.repairFingerprint)
  }

  /** A plan is exactly this: prompts and payload of the redacted input, the configured provider, and its fingerprints. */
  lemma PlanIsOfRedactedInput(env: Environment, s: Settings, n: nat, input: Input, ids: StringRecord) returns (x: Input)
    requires IsLongLimit(s, n)
    ensures IsRedacted(env, s, n, input, x)
    ensures forall plan: Plan ::
      BuildPlan(env, s, input, ids) == Some(plan) <==>
        plan.request.kind == (if input.Analysis? then VacancyAnalysis else CoverLetter) && plan.request.subjectIds == ids &&
        HasProvider(s, plan.request.provider, plan.request.model) && HasPrompts(env, x, plan.request.messages) &&
        HasOptions(env, plan.request.kind, plan.request.model, plan.request.options) &&
        HasFingerprints(env, s, x, plan.request) &&
        HashTree(PlanTree(plan.request)) == Some(plan.providerPlanHash)
  {
    hide HashTree, Sha256Of, PlanTree, PolicyTree, InputTree, CompilerTree, ApplyPolicy, OptionFields, Provider, Model, Lit, IsRedacted;
    x := ApplyPolicy(env, s, input);
    PolicyRedacts(env, s, n, input);
    KindStays(env, s, input);
    ProviderIsNamed(s);
    OptionsAreNamed(env, s, KindOf(x));
    RequestIsNamed(env, s, x, ids);
  }

  lemma KindStays(env: Environment, s: Settings, input: Input)
    ensures KindOf(ApplyPolicy(env, s, input)) == if input.Analysis? then VacancyAnalysis else CoverLetter
  {
  }

  lemma RequestIsNamed(env: Environment, s: Settings, x: Input, ids: StringRecord)
    ensures forall r: Request ::
      RequestFor(env, s, x, ids) == Some(r) <==>
        r.kind == KindOf(x) && r.subjectIds == ids && HasProvider(s, r.provider, r.model) && HasPrompts(env, x, r.messages) &&
        HasOptions(env, r.kind, r.model, r.options) && HasFingerprints(env, s, x, r)
  {
    hide HashTree, Sha256Of, PolicyTree, InputTree, CompilerTree, OptionFields, Provider, Model, Lit;
    ProviderIsNamed(s);
    OptionsAreNamed(env, s, KindOf(x));
  }

  // ----- What the fingerprints cover -----

  const POLICY_SIGNATURES := [
    13 * 0x1_0000 + 0x6C, 9 * 0x1_0000 + 0x45, 8 * 0x1_0000 + 0x6F, 5 * 0x1_0000 + 0x64, 11 * 0x1_0000 + 0x69,
    25 * 0x1_0000 + 0x6C, 24 * 0x1_0000 + 0x6C, 14 * 0x1_0000 + 0x64, 13 * 0x1_0000 + 0x78]

  lemma PolicySignatures()
    ensures forall i :: 0 <= i < 9 ==> Signature(POLICY_KEYS[i]) == POLICY_SIGNATURES[i]
    ensures forall i, j :: 0 <= i < j < 9 ==> POLICY_SIGNATURES[i] != POLICY_SIGNATURES[j]
  {
  }

  function PolicyValues(s: Settings): seq<Json> {
    [String(Lit(PLAN_VERSION)), Bool(s.aiEnabled), String(Provider(s)), String(PolicyModel(s)),
     String(Lit(if s.strictPrivacyMode then "strict" else "standard")),
     Bool(s.allowResumeHighlightsToAI), Bool(s.allowFullDescriptionToAI), Bool(s.redactContacts),
     Number(DecimalOf(MaxInputChars(s)))]
  }

  lemma PolicyValuesAreValid(s: Settings)
    ensures |PolicyValues(s)| == 9 && forall i :: 0 <= i < 9 ==> Valid(PolicyValues(s)[i])
  {
    hide Provider, PolicyModel, MaxInputChars, Lit, DecimalOf;
  }

  lemma {:induction false} DecimalInjective(m: nat, n: nat)
    requires DecimalDigits(m) == DecimalDigits(n)
    ensures m == n
  {
    var a, b := DecimalDigits(m), DecimalDigits(n);
    assert a[|a| - 1] == 0x30 + m % 10 && b[|b| - 1] == 0x30 + n % 10;
    if m >= 10 && n >= 10 {
      assert a[..|a| - 1] == DecimalDigits(m / 10) && b[..|b| - 1] == DecimalDigits(n / 10);
      DecimalInjective(m / 10, n / 10);
    }
  }

  lemma LongLimitIsUsed(s: Settings, n: nat)
    requires IsLongLimit(s, n)
    ensures MaxInputChars(s) == n
  {
  }

  /** The policy fingerprint stands for these settings and no others. */
  lemma PolicyCoversSettings(s: Settings, s': Settings, n: nat, n': nat)
    requires IsLongLimit(s, n) && IsLongLimit(s', n')
    ensures MeaningOf(PolicyTree(s)) == MeaningOf(PolicyTree(s')) <==>
      s.aiEnabled == s'.aiEnabled && Provider(s) == Provider(s') && PolicyModel(s) == PolicyModel(s') &&
      s.strictPrivacyMode == s'.strictPrivacyMode && s.allowResumeHighlightsToAI == s'.allowResumeHighlightsToAI &&
      s.allowFullDescriptionToAI == s'.allowFullDescriptionToAI && s.redactContacts == s'.redactContacts && n == n'
  {
    hide MeaningOf, Valid, Provider, PolicyModel, MaxInputChars, Lit, Signature, DecimalOf;
    LongLimitIsUsed(s, n);
    LongLimitIsUsed(s', n');
    var v, w := PolicyValues(s), PolicyValues(s');
    var fs, gs := Literal(POLICY_KEYS, v), Literal(POLICY_KEYS, w);
    PolicySignatures();
    PolicyValuesAreValid(s);
    PolicyValuesAreValid(s');
    LiteralIsValid(POLICY_KEYS, v, POLICY_SIGNATURES);
    LiteralIsValid(POLICY_KEYS, w, POLICY_SIGNATURES);
    if MeaningOf(PolicyTree(s)) == MeaningOf(PolicyTree(s')) {
      SameProperties(fs, gs);
      forall i | 0 <= i < 9 ensures MeaningOf(v[i]) == MeaningOf(w[i]) {
        assert fs[i].value == v[i] && gs[i].value == w[i];
      }
      SamePolicyValues(s, s');
    }
  }

  lemma PolicyValueAt(s: Settings)
    ensures var v := PolicyValues(s);
      |v| == 9 && v[1] == Bool(s.aiEnabled) && v[2] == String(Provider(s)) && v[3] == String(PolicyModel(s)) &&
      v[4] == String(Lit(if s.strictPrivacyMode then "strict" else "standard")) &&
      v[5] == Bool(s.allowResumeHighlightsToAI) && v[6] == Bool(s.allowFullDescriptionToAI) && v[7] == Bool(s.redactContacts) &&
      v[8] == Number(DecimalOf(MaxInputChars(s)))
  {
    hide Provider, PolicyModel, MaxInputChars, DecimalOf, Lit;
  }

  lemma SamePolicyValues(s: Settings, s': Settings)
    requires |PolicyValues(s)| == 9 && |PolicyValues(s')| == 9
    requires forall i :: 0 <= i < 9 ==> MeaningOf(PolicyValues(s)[i]) == MeaningOf(PolicyValues(s')[i])
    ensures s.aiEnabled == s'.aiEnabled && Provider(s) == Provider(s') && PolicyModel(s) == PolicyModel(s')
    ensures s.strictPrivacyMode == s'.strictPrivacyMode && s.allowResumeHighlightsToAI == s'.allowResumeHighlightsToAI
    ensures s.allowFullDescriptionToAI == s'.allowFullDescriptionToAI && s.redactContacts == s'.redactContacts
    ensures MaxInputChars(s) == MaxInputChars(s')
  {
    hide MeaningOf, Provider, PolicyModel, MaxInputChars, DecimalOf, PolicyValues, Lit;
    PolicyValueAt(s);
    PolicyValueAt(s');
    var v, w := PolicyValues(s), PolicyValues(s');
    assert forall i :: 0 <= i < 9 ==> MeaningOf(v[i]) == MeaningOf(w[i]);
    SameString(v[2], w[2]);
    SameString(v[3], w[3]);
    SameString(v[4], w[4]);
    SameScalar(v[1], w[1]);
    SameScalar(v[5], w[5]);
    SameScalar(v[6], w[6]);
    SameScalar(v[7], w[7]);
    SameScalar(v[8], w[8]);
    ModesDiffer(s.strictPrivacyMode, s'.strictPrivacyMode);
    SameDecimal(MaxInputChars(s), MaxInputChars(s'));
  }

  lemma ModesDiffer(strict: bool, strict': bool)
    ensures Lit(if strict then "strict" else "standard") == Lit(if strict' then "strict" else "standard") <==> strict == strict'
  {
    assert |Lit("strict")| == 6 && |Lit("standard")| == 8;
  }

  lemma SameScalar(v: Json, w: Json)
    requires (v.Bool? && w.Bool?) || (v.Number? && w.Number?)
    requires MeaningOf(v) == MeaningOf(w)
    ensures v == w
  {
  }

  lemma SameDecimal(m: nat, n: nat)
    requires DecimalOf(m) == DecimalOf(n)
    ensures m == n
  {
    DecimalInjective(m, n);
  }

  /** The input fingerprint stands for the payload and the policy fingerprint. */
  lemma InputFingerprintCovers(payload: Json, privacy: Text, payload': Json, privacy': Text)
    requires Valid(payload) && Valid(payload')
    ensures MeaningOf(InputTree(payload, privacy)) == MeaningOf(InputTree(payload', privacy')) <==>
      MeaningOf(payload) == MeaningOf(payload') && privacy == privacy'
  {
    hide MeaningOf, Valid;
    var keys, signatures := ["dynamicPayload", "policy"], [14 * 0x1_0000 + 0x6E, 6 * 0x1_0000 + 0x6C];
    var v, w := [payload, String(privacy)], [payload', String(privacy')];
    StringsAreValid(privacy, privacy');
    LiteralIsValid(keys, v, signatures);
    LiteralIsValid(keys, w, signatures);
    var fs, gs := Literal(keys, v), Literal(keys, w);
    if MeaningOf(Object(fs)) == MeaningOf(Object(gs)) {
      SameProperties(fs, gs);
      assert MeaningOf(fs[0].value) == MeaningOf(gs[0].value) && MeaningOf(fs[1].value) == MeaningOf(gs[1].value);
      SameString(v[1], w[1]);
    } else if MeaningOf(payload) == MeaningOf(payload') && privacy == privacy' {
      SameRecord(fs, gs);
    }
  }

  lemma StringsAreValid(s: Text, t: Text)
    ensures Valid(String(s)) && Valid(String(t))
  {
  }

  /** The compiler fingerprint stands for the kind and the messages. */
  lemma CompilerFingerprintCovers(kind: Kind, messages: seq<Message>, kind': Kind, messages': seq<Message>)
    ensures MeaningOf(CompilerTree(kind, messages)) == MeaningOf(CompilerTree(kind', messages')) <==>
      kind == kind' && messages == messages'
  {
    hide MeaningOf, Valid, MessagesTree, KindText, Lit;
    var keys := ["operationKind", "messages", "planVersion"];
    var signatures := [13 * 0x1_0000 + 0x65, 8 * 0x1_0000 + 0x73, 11 * 0x1_0000 + 0x61];
    var v := [String(KindText(kind)), MessagesTree(messages), String(Lit(PLAN_VERSION))];
    var w := [String(KindText(kind')), MessagesTree(messages'), String(Lit(PLAN_VERSION))];
    StringsAreValid(v[0].s, w[0].s);
    StringsAreValid(v[2].s, w[2].s);
    MessagesAreValid(messages);
    MessagesAreValid(messages');
    LiteralIsValid(keys, v, signatures);
    LiteralIsValid(keys, w, signatures);
    var fs, gs := Literal(keys, v), Literal(keys, w);
    if MeaningOf(Object(fs)) == MeaningOf(Object(gs)) {
      SameProperties(fs, gs);
      assert MeaningOf(fs[0].value) == MeaningOf(gs[0].value) && MeaningOf(fs[1].value) == MeaningOf(gs[1].value);
      SameString(v[0], w[0]);
      KindTextInjective(kind, kind');
      SameMessages(messages, messages');
    }
  }

  lemma MessagesAreValid(messages: seq<Message>)
    ensures Valid(MessagesTree(messages))
  {
    forall i | 0 <= i < |messages| ensures Valid(MessageTree(messages[i])) {
      MessageIsValid(messages[i]);
    }
  }
}
