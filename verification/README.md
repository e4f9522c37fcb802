# VacancyPilot in Dafny

VacancyPilot is a browser extension that saves job vacancies, asks an AI provider
for analyses and cover letters, and can hand its data to a local companion program.
This project models the parts of it that keep promises across many calls, and proves
those promises for all inputs and all runs.

| part | files |
|---|---|
| Numbers, texts, JSON values | `Words.dfy`, `JsText.dfy`, `JsonTree.dfy`, `JsonString.dfy`, `JsonPaths.dfy`, `Utf8.dfy`, `Readers.dfy` |
| SHA-256, from FIPS 180-4 to the in-place JavaScript loop | `Sha256Constants.dfy`, `Sha256.dfy`, `Sha256Hex.dfy` |
| Canonical texts and the cache hash | `StableJson.dfy`, `InputHash.dfy` |
| Provider plans, their fingerprints and operation keys | `ProviderPlan.dfy`, `PlanBuilder.dfy`, `PlanContents.dfy` |
| The AI execution ledger and its runs | `AiLedger.dfy`, `LedgerRun.dfy`, `LedgerAccounts.dfy`, `ExecutionRun.dfy` |
| The request cache, write by write | `AiCache.dfy`, `CacheRun.dfy` |
| Generating a cover letter | `CoverLetterDraft.dfy` |
| Deleting a vacancy, resetting everything | `DeleteJob.dfy` |
| The outbox for the companion | `Outbox.dfy`, `OutboxRun.dfy` |
| CSV export | `Csv.dfy`, `JobsCsv.dfy`, `CsvContents.dfy` |
| Fitting and checking letters | `LetterSanitizer.dfy`, `LetterExact.dfy` |
| Authority between browser and companion | `Authority.dfy` |
| Generation counters | `Companion.dfy`, `SessionContext.dfy` |

How it is built:

- A state that the source updates in place is a class; each of its methods is tied to
  a function of the old state, and the properties are proved about those functions.
- What an operation does is also stated without its function: which rows stay, which
  characters are kept, which text reaches a prompt, what an entry holds.
- A protocol is a function from a list of steps to the state after them (`After`),
  where any client may act or crash at any step. A property of every run is an
  invariant that each step keeps.
- Where a promise of the source does not hold, a lemma gives the inputs that break it
  and, where there is one, the exact condition under which it holds.

Findings worth knowing:

- Settling a reservation checks its owner but not its state, so a released
  reservation can still be completed, uncharged (`LedgerAccounts`).
- Storing two analyses under one id and invalidating the hash of one leaves the row of
  the other without its value. The exported functions allow it; the extension makes its
  ids from time and chance, and itself invalidates without a hash (`AiCache`).
- The emoji check keeps its match position between calls, so validating a letter a
  second time misses the emoji that the first time reported, exactly if it was the only
  one (`LetterValidation`).
- The ellipsis of a hard cut is itself over the limit or a forbidden character
  (`LetterValidation`).
- A mode can be answered as `ops` although intent and authority never stood together, if
  the intent goes off between the two reads (`Authority`).
- A reset while a migration is recording loses the checkpoint that `ops` should imply.
  It takes two browser contexts: within one, nothing but microtasks lies between two
  writes of the checkpoint, and the next guarded write fails while the reset runs
  (`Authority`).
- A migration that begins while another one is under way can leave the hash of one and
  the counts of the other (`Authority`).
- Invalidating the companion status does not stop a probe that is under way from caching
  its result (`Companion`).
- Two calls for one operation can both follow a reset exactly if the reset meets a
  reservation that has not called yet; only the Standalone reset looks (`LedgerRun`).

`dafny verify dfyconfig.toml` checks the whole project.

## Model

| member | source | states |
|---|---|---|
| JsNumber.BitOpModulo | src/services/ai-plan.ts:306-317 | A JavaScript bitwise and, or, exclusive or of any two integers, whatever their signs, is modulo 2^32 the word operation on their residues |
| JsNumber.BitNotModulo | src/services/ai-plan.ts:313 | `~x` is modulo 2^32 the complement of the residue of `x` |
| JsNumber.ShlModulo | src/services/ai-plan.ts:302 | `x << n` on any integer is modulo 2^32 the word shift of its residue |
| JsNumber.PlusModulo | src/services/ai-plan.ts:308-321 | Integer addition commutes with reduction modulo 2^32 |
| JsNumber.SignIsLostModulo | src/services/ai-plan.ts:302-321 | Cutting to 32 signed bits loses nothing modulo 2^32 |
| Words.BitwiseIsPointwise | src/services/ai-plan.ts:313-316 | Bit i of a combined word is the gate applied to bit i of each operand, so the arithmetic definition of the gates is the bitwise one |
| Sha256Constants.RoundConstantsAreCubeRoots | src/services/ai-plan.ts:284-298 | The 64 constants are the first 32 fractional bits of the cube roots of the first 64 primes (section 4.2.2 of FIPS 180-4) |
| Sha256Constants.InitialStateIsSquareRoots | src/services/ai-plan.ts:299-300 | The eight initial words are the first 32 fractional bits of the square roots of the first eight primes (section 5.3.3 of FIPS 180-4) |
| Sha256Spec.PadFillsBlocks | src/services/ai-plan.ts:274-282 | The padded message of section 5.1.1 of FIPS 180-4 is the least whole number of 64-byte blocks that holds n + 9 bytes |
| Sha256Js.JsRotrModulo | src/services/ai-plan.ts:302 | The rotation from two shifts, although signed, is modulo 2^32 the rotation ROTR |
| Sha256Js.ScheduleWordRefines | src/services/ai-plan.ts:305-309 | The message-schedule step, summed in doubles from signed results, stays exact and equals the FIPS schedule word |
| Sha256Js.Temp1Refines | src/services/ai-plan.ts:312-314 | The first temporary of a round, from signed `S1` and `ch`, stays below 2^53 and equals T1 of section 6.2.2 of FIPS 180-4 |
| Sha256Js.Temp2Refines | src/services/ai-plan.ts:315-317 | The second temporary equals T2 |
| Sha256Hex.PaddedLengthIsExact | src/services/ai-plan.ts:276 | `((n + 9 + 63) >> 6) << 6` in 32-bit arithmetic is the length of the padded message for every n below 2^31 - 72; from there on it is less than the message length, which the buffer calls reject |
| Sha256Hex.SetUint32 | src/services/ai-plan.ts:281-282 | A big-endian store writes the four bytes of the word and nothing else |
| Sha256Hex.PadBuffer | src/services/ai-plan.ts:274-282 | The buffer built in place is the padded message of FIPS 180-4 |
| Sha256Hex.FillSchedule | src/services/ai-plan.ts:303-309 | The two loops leave in `w` the 64 words of the FIPS schedule of the block |
| Sha256Hex.RunRounds | src/services/ai-plan.ts:310-319 | The 64 rounds over eight rotating variables compute the FIPS rounds |
| Sha256Hex.HashBuffer | src/services/ai-plan.ts:299-322 | The loop over the blocks computes the FIPS hash value of the whole padded message |
| Sha256Hex.HashToHex | src/services/ai-plan.ts:273-326 | For every byte string shorter than 2^31 - 72 bytes the result is the FIPS digest in hexadecimal; longer ones fail |
| Sha256Hex.PaddedHexIsFixed | src/services/ai-plan.ts:323-325 | `toString(16).padStart(8, "0")` is the eight-digit hexadecimal of the word |
| Sha256Hex.HexOfInjective | src/services/ai-plan.ts:323-325 | Different digests have different hexadecimal texts |
| Utf8.EncodeInjective | src/services/ai-plan.ts:274 | Texts without lone surrogates have different UTF-8 encodings |
| Utf8.EncodedAlikeExactly | src/services/ai-plan.ts:274 | Texts are encoded alike exactly if they agree once each lone surrogate is replaced by U+FFFD |
| Utf8.LoneSurrogatesCollide | src/services/ai-plan.ts:274 | So two different lone surrogates are encoded alike |
| Utf8Reader.EncodedReadsBack | src/services/ai-plan.ts:274 | A reader after section 3 of RFC 3629 gets back from the encoding the characters of the text, with U+FFFD for each lone surrogate |
| JsonString.QuoteUnique | src/services/ai-plan.ts:259 | A quoted string is told from what follows it: equal texts that begin with two quoted strings begin with the same string |
| JsonString.QuoteWellFormed | src/services/ai-plan.ts:259-265 | A quoted string has no lone surrogates, so hashing it loses nothing |
| JsonStringReader.QuotedReadsBack | src/services/ai-plan.ts:259 | A reader after section 7 of RFC 8259 gets back every string from its quoted form, whatever follows it |
| JsonTree.AscendingUnique | src/services/ai-plan.ts:263-264 | A set of keys has one ascending listing, so sorting removes the insertion order and nothing else |
| StableJson.MeaningDeterminesText | src/services/ai-plan.ts:255-269 | Trees equal up to key order and the null/undefined/non-finite identification have the same text |
| StableJson.PrefixUnique | src/services/ai-plan.ts:255-269 | Unique decodability: two texts followed by anything that ends a value are equal only if the trees mean the same |
| StableJson.CanonicalText | src/services/ai-plan.ts:255-269 | Equal texts exactly when the trees mean the same, for all trees of any depth |
| StableJson.SerializersAgree | src/services/ai-hash.ts:27-43 | The cache serializer gives the same text as the plan serializer exactly on trees whose numbers are all finite |
| StableJson.StringifyWellFormed | src/services/ai-plan.ts:255-269 | The text of any tree has no lone surrogates |
| InputHash.ComputeHash | src/services/ai-hash.ts:15-21 | The signed loop computes the polynomial in 31 over the code units modulo 2^32, in base 36 |
| InputHash.SameHash | src/services/ai-hash.ts:15-21 | Two inputs share a hash exactly when their polynomials agree modulo 2^32 |
| InputHash.DifferentInputsShareAHash | src/services/ai-hash.ts:68-71 | The cache hash alone does not identify an input: two different inputs share one |
| Fingerprint.HashIdentifiesTree | src/services/ai-plan.ts:113-115 | Short of a SHA-256 collision, two fingerprints agree exactly when the trees mean the same |
| ProviderPlan.SameTreeIsSameRequest | src/services/ai-plan.ts:124-143 | Two plan trees mean the same exactly when every part of the request is the same |
| ProviderPlan.PlanHashIdentifiesRequest | src/services/ai-plan.ts:145-149 | Short of a collision, plans hash alike exactly when they are the same request |
| PlanBuilder.SamePlanHashSameRequest | src/services/ai-plan.ts:62-150 | The same for plans built from any settings and inputs |
| PlanBuilder.HiddenTextDoesNotReachThePlan | src/services/ai-plan.ts:152-220 | The description and resume that the settings withhold have no influence on any part of the plan or its hashes |
| PlanContents.OnlyRedactedTextReachesThePlan | src/services/ai-plan.ts:152-234 | Inputs that redact alike, field by field under the limit of each and the switch for contacts, have one plan: nothing else of an input has any influence |
| PlanContents.PlanIsOfRedactedInput | src/services/ai-plan.ts:62-150 | A plan is exactly the prompts and the payload of an input whose every field is the redacted field, cut to its limit, with the lists cut to 50, 20, 30 and 30; the configured provider, model and options; and their fingerprints |
| PlanContents.PolicyCoversSettings | src/services/ai-plan.ts:45-60 | The policy fingerprint stands for exactly the settings that affect execution |
| PlanContents.InputFingerprintCovers | src/services/ai-plan.ts:113-115 | The input fingerprint stands for exactly the payload and the policy fingerprint |
| PlanContents.CompilerFingerprintCovers | src/services/ai-plan.ts:137-139 | The compiler fingerprint stands for exactly the kind and the messages |
| PlanBuilder.BudgetDoesNotReachThePlan | src/services/ai-plan.ts:45-60 | Changing the daily limit or the cache switch keeps the whole plan |
| PlanBuilder.OperationKeyIdentifiesOperation | src/services/ai-plan.ts:236-249 | Short of a collision, operation keys agree exactly for the same plan hash, kind, subjects and retry id |
| AiLedger.Limit | src/services/ai-budget.ts:279 | The limit is the largest whole number of requests within a positive setting, and none otherwise |
| AiLedger.GrantedExactlyWhenFree | src/services/ai-budget.ts:284-338 | A reservation is granted exactly to a new operation, or to one that failed before dispatch under the same plan, while the day has room; a refusal changes nothing |
| AiLedger.RecordedRequestsCountOnce | src/services/ai-budget.ts:228-256 | Recording a request adds nothing to the count its reservation already made |
| AiLedger.UsedIsExact | src/services/ai-budget.ts:228-256 | The count of a day is the number of its consumed rows and of its uncoordinated request events that are not of the future |
| AiLedger.DayLasts | src/services/ai-budget.ts:216-218 | A day is 86,400 seconds |
| AiLedger.RefusedBecause | src/services/ai-budget.ts:284-338 | Which refusal it is: another plan first, then the state of the operation, then the budget |
| AiLedger.StatusAgreesWithReservation | src/services/ai-budget.ts:482-508 | For the whole limits that settings hold, the budget status shows exhausted exactly when a reservation finds no room |
| AiLedger.Store.ReserveAiProviderAttempt | src/services/ai-budget.ts:263-386 | The transaction has the effect and result of the specified reservation: a granted one writes one row and one execution with just the plan, owner, attempt number and day of the request, a refused one nothing |
| AiLedger.Store.ReleaseAiAttemptBeforeDispatch | src/services/ai-budget.ts:391-418 | The transaction releases the row and the operation, for the owner of a dispatching operation only |
| AiLedger.Store.CompleteAiProviderExecution | src/services/ai-budget.ts:421-444 | The transaction completes the operation for its owner, whatever its state |
| AiLedger.Store.MarkAiProviderOutcomeUnknown | src/services/ai-budget.ts:447-468 | The transaction marks the outcome unknown for the owner, whatever the state |
| AiLedger.Store.RecordAiRequest | src/services/ai-budget.ts:569-582 | A request event is appended, marked as counted by the ledger |
| LedgerRun.EveryRunKeeps | src/services/ai-budget.ts:263-468 | Over all interleavings of clients, crashes and resets, whoever has not given up owns its operation and its consumed row |
| LedgerRun.AtMostOneCallPerOperation | src/services/cover-letter-ai.ts:244-263 | Any two provider calls for one operation key carry reservations from different sides of a reset |
| LedgerRun.ResetBetweenCalls | src/services/cover-letter-ai.ts:244-263 | If resets check for unsafe executions first, a reset step lies between any two provider calls for one operation key |
| LedgerRun.ResetSeparatesCallsExactly | src/services/delete-all.ts:102-118 | In every run, calls for one operation key do not repeat between a reset and the next, however the run goes on, exactly if the reset finds nobody with a reservation that has not called yet |
| LedgerRun.CallsFollowAReset | src/services/delete-all.ts:102-118 | Otherwise that client and another one that reserves the same operation anew both call after the reset |
| LedgerRun.SafeMeansNoneReserved | src/services/delete-all.ts:67-72 | A reset that finds no unsafe execution, after resets that did the same, meets that condition |
| LedgerRun.GuardedResetsForgetNothing | src/services/delete-all.ts:67-72 | If resets check for unsafe executions first, every reservation from before a reset has settled or been given up |
| LedgerAccounts.EveryRunAccounts | src/services/ai-budget.ts:345-372 | In every run each operation has one row per attempt, numbered 1 to its attempt count, and only the last can be consumed |
| LedgerAccounts.OneConsumedAttempt | src/services/ai-budget.ts:345-468 | Exactly one row is consumed while an operation is dispatching, completed or unknown, none once it is released |
| LedgerAccounts.DailyBound | src/services/ai-budget.ts:335-372 | In every run neither the consumed rows of a day nor the provider calls of that day since the last reset exceed the limit |
| LedgerAccounts.SettlementIsChargedExactlyWhenActive | src/services/ai-budget.ts:421-468 | A completion, or a mark that the outcome is unknown, keeps the operation charged exactly if it had not been released |
| LedgerAccounts.ReleasedThenCompletedIsNotCharged | src/services/ai-budget.ts:391-444 | A released and then completed reservation leaves a completed operation without a charged row |
| ExecutionRun.SettledForGood | src/services/ai-budget.ts:286-333 | Whatever other clients do, until a reset a settled operation stays as it was settled, under its plan, with its row charged |
| ExecutionRun.ExecutionRecords | src/services/cover-letter-ai.ts:244-283 | A granted execution is the steps reserve, call, settle as unknown, or reserve, call, complete, record, and leaves its operation settled and charged |
| ExecutionRun.ResetBetweenExecutions | src/services/cover-letter-ai.ts:244-283 | Between two such executions of one operation key lies a reset, whoever else acts on the ledger |
| AiCache.MetaKeyInjective | src/services/ai-cache.ts:73-79 | Result keys are told apart by kind and result id |
| AiCache.LetterRoundTrip | src/services/ai-cache.ts:178-206 | A stored letter is loaded back as it was, with or without a job |
| AiCache.Cache.StoreCoverLetterCache | src/services/ai-cache.ts:178-206 | Exactly two writes: a value that loads back as the letter, then a row with the fields asked for |
| AiCache.Cache.StoreAnalysisCache | src/services/ai-cache.ts:153-176 | Exactly two writes under the analysis's own id: the value, then the row |
| AiCache.Cache.InvalidateCache | src/services/ai-cache.ts:208-236 | The selected rows go first, then exactly their values; an empty hash selects all |
| AiCache.Cache.CheckCacheEntry | src/services/ai-cache.ts:276-322 | The first matching row alone decides: a hit exactly if it is in date and its value loads, with nothing changed; a miss found none, or deletes the row it found, with its value if it expired |
| AiCache.InvalidationKeepsBackedExactlyWithoutSharing | src/services/ai-cache.ts:208-236 | Invalidation leaves no row without its value exactly if no spared row shares its value with a deleted one |
| AiCache.ReusedAnalysisIdDangles | src/services/ai-cache.ts:153-236 | Two stores of one analysis id under different hashes, then an invalidation by one hash, strand a row |
| AiCache.FirstMatchIsUnique | src/services/ai-cache.ts:285-292 | The first matching row is one row, so what a lookup does is determined by the tables |
| AiCache.InvalidatedExactly | src/services/ai-cache.ts:208-236 | Without a hash all rows go, with one just the rows of it, each with the value under its own key; everything else stays |
| CacheRun.EveryRowIsBacked | src/services/ai-cache.ts:153-322 | With fresh result ids, after every single write of interleaved stores, expiries, invalidations, crashes and deletions, each row has its value |
| CacheRun.HitWasStored | src/services/ai-cache.ts:276-322 | A hit, even with other writes between its two reads, returns just the value stored before under the same hash, kind, provider, model, prompt version and plan hash |
| CoverLetterDraft.EqualPlanHashes | src/services/cover-letter-ai.ts:208-212 | Short of a collision, a request with the plan hash of a preview is the previewed request |
| CoverLetterDraft.AnswerIsForPreview | src/services/cover-letter-ai.ts:214-232 | A text that answered a call under the plan hash of a preview answered, short of a collision, a call for exactly the previewed request |
| CoverLetterDraft.InterleavedHitIsForPreview | src/services/cover-letter-ai.ts:214-232 | So does a text that a lookup gives while others write to the cache between its reads |
| CoverLetterDraft.OneOperationKeyPerPreview | src/services/cover-letter-ai.ts:244-245 | All executions of one preview without a retry id have one operation key |
| CoverLetterDraft.SubjectsIdentifyRecords | src/services/cover-letter-ai.ts:194-207 | The subjects of a plan tell exactly which vacancy, profile and resume it is about |
| CoverLetterDraft.FreshReservationSettles | src/services/cover-letter-ai.ts:253-263 | A settlement right after its reservation is not refused |
| CoverLetterDraft.Extension.CheckCoverLetterCache | src/services/ai-cache.ts:117-151 | A cached letter once answered a call for a valid request with the plan hash asked for; a first match that gives a letter is not missed; no other row is lost |
| CoverLetterDraft.Extension.CallUnderReservation | src/services/cover-letter-ai.ts:244-283 | The provider is called exactly if the operation is new, or failed before dispatch under this plan, and the day has room. Then the ledger goes on by the steps of one execution: the operation is completed after an answer and of unknown outcome after a throw, its row is charged, nothing else is written. Otherwise nothing changes |
| CoverLetterDraft.Extension.GenerateCoverLetterAiDraft | src/services/cover-letter-ai.ts:160-292 | A stale preview has no effect; a hit reserves nothing; short of a hit a call is made exactly if the plan stands, access is granted and the operation is free; short of a collision the request that is sent, and the request that a cached text answered, are exactly the previewed one |
| CoverLetterDraft.ResetLiesBetweenCalls | src/services/cover-letter-ai.ts:244-263 | Over any number of executions, with others acting on the ledger in between, a reset lies between any two calls for one operation key |
| CoverLetterDraft.CallStaysSettled | src/services/cover-letter-ai.ts:253-263 | Until a reset, the operation of a call is completed if it answered and of unknown outcome if it threw |
| CoverLetterDraft.RepeatIsRefused | src/services/cover-letter-ai.ts:253-261 | Until a reset, executing the same preview again without a retry id, with nothing in the cache, is never granted: it is refused as completed after an answer, as of unknown outcome after a throw |
| DeleteJob.ContainsTargetIsMention | src/services/delete-all.ts:57-65 | The search succeeds exactly if at some path an object holds a target key with one of the two ids |
| DeleteJob.NamedFieldIsMention | src/services/delete-all.ts:14-65 | Either id under any of the ten keys, in an object at any depth, is found |
| DeleteJob.MentionHasName | src/services/delete-all.ts:57-65 | Nothing is found in which neither id stands as a string |
| DeleteJob.NothingLinkedRemains | src/services/delete-all.ts:142-199 | After a deletion nothing links to the vacancy, by column or at any depth of a payload |
| DeleteJob.OtherRowsStay | src/services/delete-all.ts:178-198 | Jobs, letters, applications, events, lab actions and visit marks of other vacancies stay as they are, and only these |
| DeleteJob.OtherTimelineStays | src/services/delete-all.ts:143-192 | A timeline row goes exactly with an application of the vacancy, and stays as it is otherwise |
| DeleteJob.OtherValuesStay | src/services/delete-all.ts:157-196 | A stored value goes exactly if it is a result that mentions the vacancy |
| DeleteJob.OtherCacheRowsStay | src/services/delete-all.ts:161-193 | A cache row goes exactly if a result under its reference, analysis or letter, mentions the vacancy |
| DeleteJob.OtherOperationsStay | src/services/delete-all.ts:172-197 | A queued operation goes exactly if its payload mentions the vacancy, a mirrored entity also if it is the vacancy |
| DeleteJob.StoredLetterMentionsItsJob | src/services/ai-cache.ts:178-188 | A cached letter carries the id of its vacancy, so it goes with the vacancy |
| DeleteJob.CountsAreLosses | src/services/delete-all.ts:179-188 | Each count reported is what its table loses |
| DeleteJob.DeletionIsACascade | src/services/delete-all.ts:155-197 | Each cache row whose value goes, goes with it: the deletion is a step of a cache run and leaves no row without its value |
| DeleteJob.TimelineKeepsItsApplications | src/services/delete-all.ts:143-192 | No timeline row that stays loses its application |
| DeleteJob.LocalData.FindLinked | src/services/delete-all.ts:145-176 | The rows found are exactly the linked ones, in both directions |
| DeleteJob.LocalData.DeleteJobData | src/services/delete-all.ts:120-204 | All or nothing: refused with its reason and nothing changed, or exactly the linked rows gone and counted, and the draft and badge keys of the vacancy removed from storage |
| DeleteJob.LocalData.DeleteAllData | src/services/delete-all.ts:102-117 | A full reset is refused exactly in Standalone with an unsafe execution; otherwise tables and storage are cleared, the companion state is reset and only the default settings are left |
| Csv.NeutralIsNoFormula | src/services/export-data.ts:41-59 | A neutralised text does not begin, after blanks, with `=`, `+`, `-` or `@` |
| Csv.NeutralCollision | src/services/export-data.ts:54-59 | Two texts become one exactly if one is the other, marked, with its apostrophe |
| Csv.CellOfString | src/services/export-data.ts:38-69 | The scanning loop and the quoting compute the escaped neutral text; a blank text gets the apostrophe too |
| Csv.FieldRoundTrip | src/services/export-data.ts:60-69 | A written field is read back by the rules of section 2 of RFC 4180 before a comma, a line break or the end |
| Csv.RecordRoundTrip | src/services/export-data.ts:71-74 | A written row is read back field by field |
| Csv.FileRoundTrip | src/services/export-data.ts:215-223 | A written file is read back record by record |
| JobsCsv.CsvCell | src/services/export-data.ts:38-69 | The cell of any value is its escaped field text; it fails where JSON text does |
| JobsCsv.ExportReadsBack | src/services/export-data.ts:215-223 | The export reads back as the 23 labels and one record of 23 field texts per job, none of them from a string a formula |
| CsvContents.CellShowsProperty | src/services/export-data.ts:133-206 | Under each of twenty labels stands the property of the job with its key, or nothing |
| CsvContents.CellsMadeOfProperties | src/services/export-data.ts:133-206 | The other three columns hold the skills in one text and two parts of the score |
| CsvContents.TextsAgree | src/services/export-data.ts:40 | On a tree whose keys ascend, the JSON text is the canonical text, so it determines the meaning |
| CsvContents.TextExistsExactly | src/services/export-data.ts:40 | The JSON text of a value exists exactly without a bigint at any depth |
| CsvContents.PropertiesInTheirOrder | src/services/export-data.ts:40 | Properties are written in their order, undefined ones not at all |
| CsvContents.NeutralExactly | src/services/export-data.ts:41-59 | A string gets an apostrophe exactly if it is blank or begins, after blanks, with one of the four characters |
| Outbox.SanitizedExactly | src/db/ops-repository.ts:21-37 | A payload is accepted exactly if at no path an object has a sensitive key |
| Outbox.SensitiveFitsPattern | src/db/ops-repository.ts:18-29 | A key is sensitive exactly if it is a pairing, client, access or refresh token, an API key, or one of four words, in letters of any case |
| Outbox.DelayBounds | src/db/ops-repository.ts:177-182 | Every retry delay is between 850 ms and 345 s |
| Outbox.DelayGrowsExactlyToNine | src/db/ops-repository.ts:177-182 | The next delay is longer whatever the jitter exactly up to the ninth retry |
| Outbox.FifoOrderIsUnique | src/db/ops-repository.ts:122-128 | Increasing lists of the same entries are equal, so the delivery order is determined |
| Outbox.OutboxRepo.EnqueueEntry | src/db/ops-repository.ts:87-119 | One transaction: a pending entry that holds just what was handed in, with the next sequence, due at once, or an error and no change |
| Outbox.OutboxRepo.ListPending | src/db/ops-repository.ts:122-128 | Exactly the eligible entries, in increasing sequence |
| Outbox.OutboxRepo.Commit | src/db/ops-repository.ts:149 | The entry is removed and no other |
| Outbox.OutboxRepo.MarkDead | src/db/ops-repository.ts:152-159 | Only status and error of the entry change |
| Outbox.OutboxRepo.MarkConflict | src/db/ops-repository.ts:162-169 | Only status and error of the entry change |
| Outbox.OutboxRepo.ScheduleRetry | src/db/ops-repository.ts:172-193 | Count, error, status and time of the entry change, by the backoff for the new count |
| Outbox.OutboxRepo.RetryManual | src/db/ops-repository.ts:202-212 | The entry is pending again, due now, with its count back at zero |
| OutboxRun.EveryRunConserves | src/db/ops-repository.ts:87-213 | In every run each accepted request is queued, committed or deleted, only one of these; its entry holds exactly the command, id and key handed in, and is sanitized |
| OutboxRun.EntryIsAsAdded | src/db/ops-repository.ts:87-119 | Each queued entry comes from a step of the run that handed in just what it holds |
| OutboxRun.DueAfter | src/db/ops-repository.ts:100-212 | An accepted or reopened operation is due from then on, a dead or conflicting one never |
| OutboxRun.SequencesAreUnique | src/db/ops-repository.ts:97-117 | Sequences are unique and at most the counter in every run |
| OutboxRun.AcceptedExactly | src/db/ops-repository.ts:91-117 | In every run an operation is accepted exactly if it is well formed, sanitized and its id is new |
| OutboxRun.RetriedEntryWaits | src/db/ops-repository.ts:172-193 | A rescheduled entry is not eligible for 850 ms and is eligible after 345 s |
| LetterSanitizer.ApplyConstraints | src/services/ai-provider.ts:300-340 | The stages, in the order of the source, compute the specified text |
| LetterSanitizer.StripLeaves | src/services/ai-provider.ts:306-322 | No emoji, markup or disallowed character is left where the constraints forbid it |
| LetterSanitizer.LinkBecomesItsText | src/services/ai-provider.ts:312-318 | A link gives way to its text and only to that |
| LetterSanitizer.AcceptableIsKept | src/services/ai-provider.ts:300-340 | A letter with nothing against the constraints is kept, but for white space around it |
| LetterExact.JustForbiddenCharactersGo | src/services/ai-provider.ts:306-322 | Without `noMarkdown` the letter is fitted from exactly the characters that are not forbidden, all of them, in order; without a limit the result is the trim of these |
| LetterExact.JustMarkdownGoes | src/services/ai-provider.ts:310-322 | With `noMarkdown`, exactly the emoji and markup characters go, then links give way to their texts, then exactly the line marks go, then exactly the characters not allowed |
| LetterExact.LineMarksSelect | src/services/ai-provider.ts:316-317 | A line mark goes with the blank after it, and nothing else does |
| LetterExact.LinkGivesWay | src/services/ai-provider.ts:315 | A link, read from the left, gives way to its text |
| LetterExact.BracketWithoutLinkStays | src/services/ai-provider.ts:315 | A bracket that begins no link stays |
| LetterExact.TrimExactly | src/services/ai-provider.ts:340 | White space goes at both ends, all of it and nothing else |
| LetterExact.SliceExactly | src/services/ai-provider.ts:326 | Up to the limit nothing is changed; a character that does not fit whole leaves its high half |
| LetterExact.EndsWithSentence | src/services/ai-provider.ts:327-329 | A letter that is too long, without a hard cut, ends with the last sentence within the limit |
| LetterExact.HardCutExactly | src/services/ai-provider.ts:327-329 | A cut is hard exactly if no sentence within the limit ends late enough |
| LetterExact.EndsWithEllipsis | src/services/ai-provider.ts:330-335 | After a hard cut an ellipsis follows the last word within the limit, if it ends late enough, or else all that fits |
| LetterSanitizer.HardCutLength | src/services/ai-provider.ts:324-339 | A hard cut ends in an ellipsis; it is over the limit, by one unit, exactly without a late space and without leading white space |
| LetterSanitizer.SanitizedFits | src/services/ai-provider.ts:300-340 | The result is at most one unit over the limit, and within it without a hard cut |
| LetterValidation.SanitizedBlockers | src/services/ai-validation.ts:237-290 | A sanitized letter has no emoji or markdown blocker; without an ellipsis only "empty" is possible; with one, the remaining blockers are characterised exactly |
| LetterValidation.Validator.ValidateCoverLetter | src/services/ai-validation.ts:237-290 | The blockers in order, and the match position that the global expression keeps |
| LetterExact.BlockersMean | src/services/ai-validation.ts:237-290 | What each blocker of any letter means; a blank letter has no other than "empty" |
| LetterValidation.LookIsExactFrom | src/services/ai-validation.ts:267-272 | From any remembered position the emoji check is exact if and only if the letter has no emoji or one lies at or after that position; a check that matches nothing forgets the position |
| LetterValidation.FirstLookIsExact | src/services/ai-validation.ts:267-272 | From a fresh expression the emoji check is exact |
| LetterValidation.SecondLookMissesTheOnlyEmoji | src/services/ai-validation.ts:267-272 | A letter whose emoji was just reported is reported again exactly if it has another one |
| LetterValidation.HardCutOverTheLimit | src/services/ai-validation.ts:258-263 | One letter more than the limit, without a space or a period, is cut to one unit over the limit and blocked |
| Authority.OpsIsRecorded | src/services/migration-service.ts:280-311 | At every point of every run with crashes and toggles, authority `ops` comes after a committed import whose time, hash and counts are stored |
| Authority.ResetWhileRecording | src/services/migration-service.ts:184-211 | From every run in which a migration is recording, a reset can lead to authority `ops` without the time of its import |
| Authority.ResetIsSafeExactlyApart | src/services/migration-service.ts:184-211 | A reset keeps `ops` recorded, however the run goes on, exactly if no migration is recording |
| Authority.OpsIsOfOneImport | src/services/migration-service.ts:184-211 | If no migration goes on to record or switch after another has begun or after a reset, `ops` comes with time, hash and counts of one committed import |
| Authority.MigrationMayBeginExactlyAlone | src/services/migration-service.ts:280-311 | In every run a migration may begin, so that `ops` comes with one import however the run goes on to the next beginning or reset, exactly if no other one is under way |
| Authority.BeginningMixes | src/services/migration-service.ts:280-311 | While any migration is under way, another one that begins can give the switch of the first its own hash with other counts |
| Authority.TwoImportsMix | src/services/migration-service.ts:184-211 | From the empty store, any two imports of different hashes and counts can mix |
| Authority.OffStaysStandalone | src/services/operating-mode.ts:57-68 | From the first write of disabling on, the effective mode is Standalone until Ops is enabled again |
| Authority.OpsAnswerWasSeen | src/services/operating-mode.ts:25-49 | A mode answered as `ops` saw the intent on and then authority with the companion |
| Authority.OpsAnswerIsCurrentExactlyWithIntent | src/services/operating-mode.ts:25-49 | In any state, an `ops` answer is true of the moment it is given exactly if the intent is still on then |
| Authority.OpsAnswerIsCurrent | src/services/operating-mode.ts:25-49 | That is so in every run in which neither a disabling nor a reset falls between the two reads |
| Authority.OpsAnswerWithoutOpsMode | src/services/operating-mode.ts:25-49 | Otherwise `ops` can be answered although intent and authority never stood together |
| Authority.ModeStore.ReadMode | src/services/operating-mode.ts:25-44 | The effective mode of the two values read, and the repair of authority that the intent denies |
| Authority.ModeStore.SetOpsModeIntent | src/services/operating-mode.ts:57-68 | Every write and the result are those of the toggle that the runs take step by step, the intent first |
| Authority.ModeStore.SaveMigrationCheckpoint | src/services/migration-service.ts:184-211 | Time, hash and counts of the import are stored in this order, then its checkpoint token if it has one; these are the writes the runs take step by step |
| Authority.ModeStore.ConfirmMigration | src/services/migration-service.ts:280-311 | Every write of a migration in order, for each answer of the companion: `ops` comes last, after the whole checkpoint; without an import authority returns to Standalone |
| Companion.OneProbePerGeneration | src/services/companion-service.ts:170-193 | Two status probes under way at once began on different sides of a reset |
| Companion.CachedStatusIsCurrent | src/services/companion-service.ts:178-188 | A cached status comes from a probe that began after the last reset |
| Companion.CachedAnswerIsInDate | src/services/companion-service.ts:170-189 | In every run a detection answers from the cache exactly if it is not forced, no probe is under way, and a probe of this generation found that status less than five seconds before, with no reset, invalidation or pairing since |
| Companion.OldProbeEndsQuietly | src/services/companion-service.ts:178-192 | A probe from before a reset changes nothing when it ends |
| Companion.TokensAreCurrent | src/services/companion-service.ts:69-82 | The shared client and the load or pairing that gave it its token belong to the current generation; so does each deletion of the stored token |
| Companion.InjectionFindsItsClient | src/services/companion-service.ts:77-81 | After the generation check there is a client to give the token to |
| Companion.InvalidationHoldsExactlyWithoutProbe | src/services/companion-service.ts:53-55 | In every run an invalidated status can come back without a new detection exactly if a probe is under way and has not failed |
| Companion.EndAfterInvalidation | src/services/companion-service.ts:178-192 | Right after an invalidation a probe that ends leaves a status exactly if it is of the current generation and has a result |
| Companion.InvalidatedStatusComesBack | src/services/companion-service.ts:53-55 | Such a run from the start: a probe begins, the status is invalidated, and the probe caches what it found |
| Companion.CompanionService.ResetCompanionClientState | src/services/companion-service.ts:45-50 | A new generation without client, cache or probe |
| Companion.CompanionService.InvalidateCompanionStatusCache | src/services/companion-service.ts:53-55 | Only the cached status goes |
| Companion.CompanionService.GetOpsClient | src/services/companion-service.ts:58-63 | The shared client, made if there is none |
| Companion.CompanionService.BeginDetection | src/services/companion-service.ts:170-180 | Share a probe, answer from the cache, or start one |
| Companion.CompanionService.EndDetection | src/services/companion-service.ts:181-192 | Cache only in the generation of the probe, and clear only this probe |
| Companion.CompanionService.ReplaceClient | src/services/companion-service.ts:69-74 | A new client replaces the shared one, in any generation |
| Companion.CompanionService.InjectStoredToken | src/services/companion-service.ts:76-81 | The token is set only in the generation that began the load |
| SessionContext.NothingOutlivesAReset | entrypoints/background.ts:126-390 | Every stored entry was written by a handler that began after all clears applied so far, and carries the tab or window of its key and, for contexts, a checked vacancy |
| SessionContext.AppliedExactly | entrypoints/background.ts:126-390 | Storage holds what was put, nothing that was removed or cleared, and the rest as before |
| SessionContext.Background.NotifyContentScriptsOfReset | entrypoints/background.ts:130-134 | The generation advances and the clear is issued, without a wait between |
| SessionContext.Background.RegisterVacancyContext | entrypoints/background.ts:168-192 | It stores the context of the sender's tab exactly for a known tab and window and a vacancy checked against its page |
| SessionContext.Background.PersistContext | entrypoints/background.ts:280-313 | It stores context and binding exactly for a checked vacancy, and removes both without one; ids of the message come before the sender's |
| SessionContext.Background.OpenSidePanel | entrypoints/background.ts:358-389 | It stores context and binding exactly for a known tab and window and a checked vacancy |
| SessionContext.Background.EndResolution | entrypoints/background.ts:236-276 | After the wait it stores exactly for a checked vacancy page in the generation that began, and removes where the page cannot be checked |

## Left out

- Authority.OpsIsRecorded: resets are allowed only while no migration is recording; `ResetIsSafeExactlyApart` shows that this is exactly what it takes. Its hash and counts are each of a committed import; that they are of one is `OpsIsOfOneImport`.
- CacheRun.EveryRowIsBacked: result ids are fresh and job deletion waits for cache operations, as the write guard arranges within one process; `ReusedAnalysisIdDangles` shows what an analysis id used twice does. Two browser contexts have separate guards.
- LedgerAccounts.DailyBound: each reservation is settled at most once, as the only client does; `ReleasedThenCompletedIsNotCharged` shows what settling it twice does.
- LedgerRun.AtMostOneCallPerOperation: calls on different sides of a reset are not compared, since a reset forgets operations; `ResetBetweenCalls` orders the calls of runs whose resets check first.
- LedgerRun.ResetBetweenCalls: a reset checks and clears in one step. In the source a message to other pages is awaited in between, and a second browser context, with its own write guard, can reserve then.
- CoverLetterDraft.Extension.GenerateCoverLetterAiDraft: others act on the ledger between two executions (`OthersStep`) but not within one; interleavings within one are the runs of `LedgerRun` and `CacheRun`, which `InterleavedHitIsForPreview` joins to the calls.
- LetterValidation.SanitizedBlockers: texts have no lone surrogates, since removing a character between two halves can join them to a new one.
- DeleteJob.LocalData.DeleteJobData: events are linked by their `jobId` column only, as in the source; removing storage keys does not fail.
- DeleteJob.LocalData.DeleteAllData: the reset message to other pages between the check and the clearing is not modelled, and storage offers `clear`.
- Outbox.DelayMs: computed in reals, without the rounding of doubles.
- Dexie: a transaction is one atomic step that rolls back on error, and each lone put or delete is one step.
- A SHA-256 collision is never assumed away globally: each statement that needs it names the two trees that must not collide.
- Prompt texts, redaction, payload layout and the provider are functions or answers given to the model; their inner workings are not modelled.
- Decimal text of numbers: a finite number is given by the text JavaScript prints for it; array holes, `toJSON`, getters and prototypes of exotic objects are not modelled.
- The policy's `model.trim()` and a NaN daily limit are not modelled; the coordination tables always exist in the current schema.
- Times are integers of milliseconds, days are UTC; comparisons of ISO strings are comparisons of times.
- `releaseAiAttemptBeforeDispatch` has no caller in the source; the runs include it as the documented way to give up.
- `resolveSidePanelContext` is modelled from its last wait on: which tab it settles on is arbitrary.
- Vacancy address checks (`hh-vacancy-url.ts`), the user interface, permissions, pricing, analysis scoring, import preview and the companion program are not part of this model.
