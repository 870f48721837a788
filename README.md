# TestPilot core in Dafny

TestPilot generates unit tests for a JavaScript package. It sends prompts to a large language model and searches over those prompts. This project models the core of that search and proves properties of the model:

- **Prompts and refiners** (`prompt_crafting.dfy`, module `PromptCrafting`).
  - A prompt is a function descriptor, usage snippets, options and retrieved API signatures. `Assemble` writes the text sent to the model, fragment by fragment. Long doc comments and bodies are cut to 30 lines.
  - The refiners derive new prompts from a failed or passed test. Each of the three includers switches one option on. `RetryWithError` wraps a failing test into a retry prompt, and never wraps a retry. The API-reference refiners fire while fewer than three retrieval rounds have run.
  - `Prompt.WithProvenance` appends to a prompt's audit list. It updates that list in place.
- **Search controller** (`generate_tests.dfy`, class `GenerateTests.TestGenerator`).
  - Temperatures are tried in order. For each one the controller runs a LIFO worklist of prompts and deduplicates them by assembled text.
  - It stops at the deadline or once the token total exceeds the limit. After a temperature that produced a passing test, no further temperature is tried.
  - Each temperature's worklist starts as the seed prompt alone, so its loop always takes a first turn. `SearchAtTemperature` takes that turn itself and leaves the rest to `SearchLoop`. Every turn reads the clock (`ReadClock`), and every logged query records which reading it followed.
  - Each completion is validated once per distinct test source, then refined into further prompts.
  - The collector the controller reports to is `TestResults.ResultCollector`. Every query is written to a ghost log, and the lemmas about that log state the budget, deadline and ordering guarantees.
- **Completion providers.**
  - The cache key is `JSON.stringify([prompt, temperature])` (`completion_model.dfy`), and distinct pairs never share a key.
  - `MockCompletionModel` (`mock_model.dfy`) is a lookup table.
  - `CachedCompletionModel` (`cache_model.dfy`) counts tokens and falls back to a live model.
  - `Codex` (`codex.dfy`) merges options, parses responses and extracts the first fenced code block. It removes lines shared with the prompt and retries only on rate limiting, with at most three attempts.
- **Offline analyses of a run.**
  - `count_hallucinations.dfy` covers `hallucinationFixed` and the fixed/unfixed partition. `hallucinationFixed` is a depth-first search over test → prompt → refined prompt → test.
  - `improvement_report.dfy` covers the status of every test and prompt and the per-refiner `summary`/`instances` tallies.
  - `benchmark_reports.dfy` holds the report records and lookup maps both scripts share.
- **Support modules.**
  - `Wrappers` holds `Option`/`Result`: JavaScript's `undefined` and thrown errors.
  - `Text` holds JavaScript string semantics: `split`, `join`, `trim`, `startsWith`, `includes`, `Set` order, and decimal rendering.
  - `Syntax` passes in, as function values, the helpers of modules this model does not include: `commentOut`, `closeBrackets`, `trimCompletion` and so on.

Notes on what the code does, which the model follows:

- `Codex.completions` makes up to three attempts, not one retry.
- The cached model never writes live completions back into its map. It also calls the live model on every lenient miss, even once the token ceiling is passed; it only discards the result.
- The controller still queries when the token total equals the limit; it stops only on strictly more.
- After the deadline or the budget is passed, the controller leaves the current temperature's loop. Each further temperature then stops at its first check. A query that pushes the total over the limit is not reported to the collector.
- The API-reference refiner stores the whole ranked list. Only the prompt text shows at most three entries.

The providers do not agree with the `ICompletionModel` interface (src/completionModel.ts:11-21):

- `MockCompletionModel.completions` and `Codex.completions` take a number as their temperature (src/mockModel.ts:37-40, src/codex.ts:145-148). The interface, the controller (src/generateTests.ts:83-86) and test/mockModel.ts:8 pass `{temperature}` instead.
- The model follows the implementations: a provider is asked with a temperature. The test scenarios are stated with the temperature the test means.
- `MockCompletionModel` has no `usedTokens()`.
- src/cacheModel.ts:23 passes three arguments to the two-parameter `Codex` constructor (src/codex.ts:29-32). The cached model's live model is therefore a parameter here.
- `SimpleRAG` is imported at src/generateTests.ts:14 and used in `instanceof` checks at lines 163 and 190, but is not defined in src/promptCrafting.ts. The model treats `SimpleRAG` as a class no refiner belongs to.

## Model

| member | source | states |
|---|---|---|
| PromptCrafting.Enable | src/promptCrafting.ts:246-249 | `{...options, includeX: true}` switches on exactly that flag and keeps the others and `ragTries` |
| PromptCrafting.Include | src/promptCrafting.ts:236-253 | an includer (likewise DocCommentIncluder at 264-281 and FunctionBodyIncluder at 371-388) returns nothing exactly when its flag is on or its content is missing, else one prompt with the same function and snippets, only that flag switched on, no signatures |
| PromptCrafting.IncludeIdempotent | src/promptCrafting.ts:241-252 | applying the same includer to its own result yields nothing |
| PromptCrafting.RetryOnFailure | src/promptCrafting.ts:346-360 | nothing exactly when the prompt is a retry or the test passed; else one retry prompt with the same options, carrying the completion and the error message |
| PromptCrafting.RetryNeverNests | src/promptCrafting.ts:351-354 | a retry prompt is never wrapped again, whatever the next outcome |
| PromptCrafting.AddApiReference | src/promptCrafting.ts:408-464 | nothing unless `ragTries < 3`, the test failed and the message names a missing function or an `undefined` read; else one prompt with `ragTries + 1` and the ranked signatures |
| PromptCrafting.RetryWithApiReference | src/promptCrafting.ts:484-529 | same guard; the retry prompt keeps the options and carries "The following are available:" and the ranked signatures |
| PromptCrafting.RefinementsDescend | src/promptCrafting.ts:415-456 | every prompt a search refiner derives keeps `ragTries` in 0..3 and has a strictly smaller potential, so refinement chains are finite |
| PromptCrafting.Prompt.constructor | src/promptCrafting.ts:93-100 | a new prompt has an empty provenance list |
| PromptCrafting.Prompt.WithProvenance | src/promptCrafting.ts:196-210 | appends the entries, tags the new last entry with ` <ragTries>` when it names the API-reference refiner, returns the same object |
| PromptCrafting.ProvenanceAppendOnly | src/promptCrafting.ts:196-210 | old entries stay in place, new ones follow in order, and only the last entry may be rewritten, by the suffix |
| PromptCrafting.RepeatedTagging | src/promptCrafting.ts:198-208 | any entry naming the API-reference refiner that ends a merged list gets ` <ragTries>` of the receiving prompt; merged into a second prompt, the tagged copy gets a second suffix |
| PromptCrafting.TruncateIfLongKeepsPrefix | src/promptCrafting.ts:532-539 | a text of at most 30 lines is returned unchanged; a longer one becomes exactly its first 30 lines, each followed by a line break; the result is always a prefix |
| PromptCrafting.UsageEntryLines | src/promptCrafting.ts:146-151 | snippet k is headed by `// usage #k` (counted from 1) and each of its lines is prefixed by `// ` |
| PromptCrafting.FragmentsFollowOptions | src/promptCrafting.ts:109-154 | the snippet, doc-comment and body fragments are empty unless their option is on; the snippet block starts with the first entry |
| PromptCrafting.ApiReferenceBlock | src/promptCrafting.ts:126-136 | the API-reference block is present exactly when `0 < ragTries <= 3` and signatures exist, and then lists between one and three of them |
| PromptCrafting.AssembleFrame | src/promptCrafting.ts:160-171 | an assembled plain prompt starts with the imports; every assembled prompt ends with the test header |
| PromptCrafting.PromptData.Imports | src/promptCrafting.ts:101-105 | the import preamble; used by `AssembleFrame` and `CompleteTest` |
| PromptCrafting.PromptData.UsageSnippets | src/promptCrafting.ts:142-154 | `assembleUsageSnippets`; its shape is stated by `UsageEntryLines` and `FragmentsFollowOptions` |
| PromptCrafting.PromptData.RelevantSignatures | src/promptCrafting.ts:126-136 | the `// API Reference:` block; stated by `ApiReferenceBlock` |
| PromptCrafting.PromptData.BaseAssemble | src/promptCrafting.ts:160-171 | `Prompt.assemble`: the fragments in order; stated by `AssembleFrame`, `FragmentsFollowOptions` and `SnippetsChangeText` |
| PromptCrafting.PromptData.RetryAssemble | src/promptCrafting.ts:294-333 | `RetryPromptFailedTest.assemble`: the closed failing test, the error comment, the extra text and a fresh test header; its frame is stated by `AssembleFrame` |
| PromptCrafting.PromptData.Assemble | src/promptCrafting.ts:160-171 | the text of a prompt, dispatching on whether it is a retry prompt; stated by `AssembleFrame` and `SnippetsChangeText` |
| PromptCrafting.PromptData.CompleteTest | src/promptCrafting.ts:177-194 | `completeTest`; stated by `CompleteTestIgnoresPrompt` and `CompleteTestUndefined` |
| PromptCrafting.TruncateIfLong | src/promptCrafting.ts:532-539 | `truncateIfLong`; stated by `TruncateIfLongKeepsPrefix` |
| PromptCrafting.SnippetsChangeText | src/promptCrafting.ts:142-171 | switching on existing snippets changes the assembled text, so deduplication by text keeps both prompts |
| PromptCrafting.PromptData.Unclosed | src/promptCrafting.ts:181-190 | the text `completeTest` hands to `closeBrackets`: imports, the headers or their placeholders, the body with its first line indented; used by `CompleteTestUndefined` |
| PromptCrafting.CompleteTestIgnoresPrompt | src/promptCrafting.ts:177-194 | with stubbed headers the completed test depends only on the package and the body |
| PromptCrafting.CompleteTestUndefined | src/promptCrafting.ts:181-193 | `completeTest` is `undefined` exactly when `closeBrackets` is, on the text `Unclosed` builds |
| CompletionModel.KeyInjective | src/mockModel.ts:24-26 | distinct (prompt, temperature) pairs never share a key |
| CompletionModel.KeyShape | src/mockModel.ts:24-26 | a key is `["`, the escaped prompt, then `",<temperature>]` |
| CompletionModel.Key | src/mockModel.ts:24-26 | `JSON.stringify([prompt, temperature])`; stated by `KeyShape` and `KeyInjective` |
| CompletionModel.Load | src/mockModel.ts:14-20 | the map after loading a file's entries in order; stated by `LoadKeepsLastEntry` |
| CompletionModel.EscapedTextDelimited | src/mockModel.ts:25 | an escaped string is closed by the first unescaped quote, so it determines the string and what follows |
| CompletionModel.EscapedFirst | src/mockModel.ts:25 | equal escaped texts start with the same character and agree after it |
| CompletionModel.EscapeCons | src/mockModel.ts:25 | escaping proceeds character by character |
| CompletionModel.EscapedHead | src/mockModel.ts:25 | an escaped non-empty string never starts with a quote |
| CompletionModel.EscapeCharPrefixFree | src/mockModel.ts:25 | no escape sequence is a prefix of another one |
| CompletionModel.HexDigitInjective | src/mockModel.ts:25 | the hexadecimal digits of a `\u` escape are distinct |
| CompletionModel.LoadKeepsLastEntry | src/mockModel.ts:14-20 | after loading a file a pair is present exactly when some entry records it, and it holds the last such entry's completions (as a set) and tokens |
| CompletionModel.LastRecordIsLast | src/mockModel.ts:14-20 | the entry found is one recording the pair, and no later entry records it |
| MockModel.MockCompletionModel.constructor | src/mockModel.ts:6-8 | a new model has an empty map |
| MockModel.MockCompletionModel.FromEntries | src/mockModel.ts:10-22 | a fresh model with the given strictness whose map is `Load` of the entries |
| MockModel.Lookup | src/mockModel.ts:37-54 | the mock's answer for a pair; stated by `LookupAfterRecording`, `LookupOtherPairs`, `LoadedAnswers` and `StrictnessOnlyAffectsMisses` |
| MockModel.MockCompletionModel.AddCompletions | src/mockModel.ts:28-35 | the map gains (or replaces) the entry for the pair's key |
| MockModel.MockCompletionModel.Completions | src/mockModel.ts:37-54 | answers from the map and leaves the map unchanged |
| MockModel.LookupAfterRecording | src/mockModel.ts:34-53 | a recorded pair is answered with its completions, duplicates removed, and its tokens |
| MockModel.LookupOtherPairs | src/mockModel.ts:24-34 | recording one pair changes the answer for no other pair |
| MockModel.LoadedAnswers | src/mockModel.ts:10-22 | a loaded model answers with the last entry for a pair; an unknown pair is an error "Prompt not found at temperature T: P" when strict and an empty set with 0 tokens otherwise |
| MockModel.StrictnessOnlyAffectsMisses | src/mockModel.ts:41-53 | a strict model fails exactly on unknown pairs, a lenient one never fails, and they agree on known pairs |
| MockModel.RecordedScenarios | test/mockModel.ts:5-32 | the three scenarios of the tests: stored completions come back, strict miss fails with the exact message, lenient miss is empty |
| CacheModel.CachedCompletionModel.constructor | src/cacheModel.ts:12-24 | the map and token total are those of loading the entries; `numOfCompletions` is `n` or 1 |
| CacheModel.CachedCompletionModel.AddCompletions | src/cacheModel.ts:30-38 | the map gains the entry and the total grows by its tokens |
| CacheModel.CachedCompletionModel.Completions | src/cacheModel.ts:40-62 | the answer and new total are those of `Answer`, and the map is never changed |
| CacheModel.Answer | src/cacheModel.ts:40-62 | the cached model's answer and new token total; stated by `AnswerTokens`, `HitServesRecord`, `MissAsksForShortfall` and `StrictMissFails` |
| CacheModel.CachedCompletionModel.UsedTokens | src/cacheModel.ts:64-66 | `usedTokens()`: the running total that `AnswerTokens` bounds |
| CacheModel.AnswerTokens | src/cacheModel.ts:51-52 | the token total never decreases and only a live call raises it |
| CacheModel.HitServesRecord | src/cacheModel.ts:44-45 | a pair with enough stored completions is served from the record at no cost; no temperature reads temperature 0 |
| CacheModel.MissAsksForShortfall | src/cacheModel.ts:50-61 | a lenient miss asks the live model for exactly the shortfall, bills its tokens, and returns its completions exactly when the limit is positive and the new total is below it (a new total of 0 included), else the short record |
| CacheModel.StrictMissFails | src/cacheModel.ts:45-48 | a strict miss fails with "Prompt not found at temperature T: P", T as given |
| CodexClient.MergePrecedence | src/codex.ts:61-67 | every option is set, from the request if present, else the instance, else the defaults |
| CodexClient.OverrideAssociative | src/codex.ts:61-67 | the two spreads compose into one override |
| CodexClient.Contents | src/codex.ts:122-127 | the content of each choice, in order |
| CodexClient.ParseResponse | src/codex.ts:105-137 | success only for a 200 response with data and no error, billing the reported total; the error message is thrown when present; StarCoder yields the generated text, chat models the distinct choice contents |
| CodexClient.NextFence | src/codex.ts:157-161 | the first fence line at or after a position, or the end |
| CodexClient.BeforeNextFence | src/codex.ts:158 | a line that is not a fence is before the next fence |
| CodexClient.AtNextFence | src/codex.ts:159 | the line where the scan stops is the next fence |
| CodexClient.NonBlankLinesSnoc | src/codex.ts:163-164 | a non-blank line is appended to the kept lines, a blank one is not |
| CodexClient.NonBlankBetweenSlice | src/codex.ts:157-165 | counting kept lines by index agrees with filtering the slice |
| CodexClient.ScanOpen | src/codex.ts:158-161 | the first fence line starts the scan |
| CodexClient.ScanKeep | src/codex.ts:163-164 | after the start, each non-blank non-fence line is kept |
| CodexClient.ScanDone | src/codex.ts:157-159 | the scan ends at the second fence or the end, having kept the non-blank lines between the fences |
| CodexClient.ScanFences | src/codex.ts:154-165 | `started` exactly when a fence line exists, and then the code is the non-blank lines between the first fence and the next, each with a line break |
| CodexClient.ExtractCode | src/codex.ts:154-166 | the extracted code is `FencedCode` of the completion |
| CodexClient.FencedCode | src/codex.ts:154-166 | the code a completion yields; stated by `UnfencedCompletionKept` and `FencedCodeLines` |
| CodexClient.UnfencedCompletionKept | src/codex.ts:166 | without a fence line the completion is kept whole |
| CodexClient.FencedCodeLines | src/codex.ts:157-165 | with a fence line, the code's lines are exactly the non-blank lines strictly between the first fence and the next (text before the first fence dropped) |
| CodexClient.FencedBodyLines | src/codex.ts:154 | lines of a split text hold no line break |
| CodexClient.NonBlankTerminatedSplit | src/codex.ts:163-164 | the kept lines, each with a line break, split back into themselves |
| CodexClient.RemoveSharedPart | src/codex.ts:194-208 | the loop computes `SharedPartRemoved` |
| CodexClient.SharedPartRemoved | src/codex.ts:194-208 | `removeSharedPart`; stated by `SharedPartRemovedLines` |
| CodexClient.KeptLinesMembership | src/codex.ts:198-205 | a line is kept exactly when it is in the completion and passes the filter |
| CodexClient.SharedPartRemovedLines | src/codex.ts:194-208 | the result's lines are exactly the completion lines not in the prompt and not opening `it(` or `describe(` after trimming, in order, then the empty line after the last break |
| CodexClient.PostprocessAll | src/codex.ts:153-169 | each completion goes through fence extraction, shared-part removal and `trimCompletion` |
| CodexClient.Postprocess | src/codex.ts:153-169 | one completion through fence extraction, shared-part removal and `trimCompletion` |
| CodexClient.Codex.ProcessCompletions | src/codex.ts:151-173 | the set built from the processed completions: `PostprocessAll` with duplicates removed, first occurrences in order |
| CodexClient.Settling | src/codex.ts:149-179 | the first attempt that is not rate-limited, or the number of attempts when all are |
| CodexClient.RetryOutcome | src/codex.ts:145-191 | the answer of the retry loop; stated by `RetryOutcomeSource`, `RetryGivesUp`, `OtherErrorsAreFinal` and `SuccessAfterRetries` |
| CodexClient.Codex.Query | src/codex.ts:53-138 | one attempt: merged options sent through the transport and the response parsed by `ParseResponse` |
| CodexClient.Codex.constructor | src/codex.ts:29-32 | keeps the model flavour and the instance options |
| CodexClient.Codex.Attempts | src/codex.ts:149-152 | three attempts, each a query with `{temperature}` |
| CodexClient.Codex.Completions | src/codex.ts:145-191 | the retry loop answers `RetryOutcome` of the attempts |
| CodexClient.SettlingAt | src/codex.ts:174-179 | the settling attempt follows a run of rate-limited attempts |
| CodexClient.RetryOutcomeSource | src/codex.ts:149-191 | a non-empty answer comes only from a successful attempt preceded by rate-limited ones, processed |
| CodexClient.RetryGivesUp | src/codex.ts:187-190 | when every attempt is rate-limited, the answer is empty with 0 tokens |
| CodexClient.OtherErrorsAreFinal | src/codex.ts:180-184 | any other error ends the loop with an empty set and 0 tokens |
| CodexClient.SuccessAfterRetries | src/codex.ts:152-173 | a success after rate-limited attempts is the answer, processed |
| CodexClient.ProcessedCompletions | src/codex.ts:151-173 | the processed set is duplicate-free, no larger than the raw one, keeps its tokens, and holds exactly the processed raw completions |
| TestResults.SourceIndex | src/generateTests.ts:127-131 | the record holding a source, or none when no record does |
| TestResults.ResultCollector.constructor | src/generateTests.ts:41 | a new collector has no records and is well formed |
| TestResults.ResultCollector.RecordTestInfo | src/generateTests.ts:127-131 | a known source gains the prompt and keeps its outcome; a new source gets the next id and no outcome |
| TestResults.ResultCollector.RecordTestResult | src/generateTests.ts:148 | the record gets its outcome and nothing else changes |
| TestResults.ResultCollector.RecordPromptInfo | src/generateTests.ts:110 | the prompt log gains the query |
| TestResults.PassedSourceSettled | src/generateTests.ts:132-135 | whether a recorded source passed never changes later |
| TestResults.PassedSourceAt | src/generateTests.ts:97-99 | a source passed exactly when its record did |
| TestResults.KeepsRecordsTransitive | src/generateTests.ts:127-131 | keeping the records composes |
| GenerateTests.RefinersFor | src/generateTests.ts:26-52 | the four base refiners in order, then the API-reference refiner exactly when embeddings exist |
| GenerateTests.FirstOutcome | src/generateTests.ts:137-147 | "Empty test" for an empty completion, "Invalid syntax" when completion fails, else the validator's verdict; passing only with a validator pass |
| GenerateTests.TestSourceFor | src/generateTests.ts:127-131 | `testSource ?? completion` |
| GenerateTests.Tagged | src/generateTests.ts:169-174 | each derived prompt paired with its refiner |
| GenerateTests.SyncRefinements | src/generateTests.ts:162-176 | what `refinePrompts` derives, in refiner order; stated by `SyncStep` |
| GenerateTests.AsyncRefinements | src/generateTests.ts:189-209 | what `asyncRefinePrompts` derives; stated by `AsyncStep` |
| GenerateTests.SyncStep | src/generateTests.ts:162-176 | each synchronous refiner adds what it derives, in refiner order; the API-reference refiner is skipped |
| GenerateTests.AsyncStep | src/generateTests.ts:189-209 | only the API-reference refiner contributes to asynchronous refinement |
| GenerateTests.SyncRefiners | src/generateTests.ts:162-176 | synchronous refinement derives only through the given refiners, never through the API-reference one |
| GenerateTests.AsyncRefiners | src/generateTests.ts:189-209 | asynchronous refinement derives only through the API-reference refiner |
| GenerateTests.PushedJoin | src/generateTests.ts:101-108 | pushing the asynchronous refinements after the synchronous ones pushes their concatenation |
| GenerateTests.SourcesRecorded | src/generateTests.ts:127-131 | recording a source already held keeps the sources; a new one joins at the end |
| GenerateTests.AddedNew | src/generateTests.ts:127-131 | the sources added by a query are exactly its completions' sources not held before, with no repeats |
| GenerateTests.BelowJoin | src/generateTests.ts:174 | a bound on pushed prompts extends over successive pushes |
| GenerateTests.RefinementsStayBelow | src/generateTests.ts:162-176 | everything pushed for a prompt has a smaller potential |
| GenerateTests.PushedBelow | src/generateTests.ts:174 | pushed prompt objects inherit the bound of what was derived |
| GenerateTests.CountAtAppend | src/generateTests.ts:64 | per-potential counts add over concatenation |
| GenerateTests.CountAtAbsent | src/generateTests.ts:64 | a level no prompt has counts 0 |
| GenerateTests.WorklistDescends | src/generateTests.ts:64-111 | replacing the popped prompt by its refinements lowers its level's count and keeps higher levels |
| GenerateTests.Counts | src/generateTests.ts:64 | one count per potential level |
| GenerateTests.LexDescends | src/generateTests.ts:64 | the measure decreases when one level drops and none above changes |
| GenerateTests.LexBelowShrinks | src/generateTests.ts:64 | the lexicographic decrease of the counts is the decrease, level by level, that the search loop's termination uses |
| GenerateTests.WorklistShrinks | src/generateTests.ts:64-111 | each loop turn decreases the worklist measure, so each temperature's loop terminates |
| GenerateTests.SearchAppend | src/generateTests.ts:75-99 | querying a new text keeps the round's log in shape, and the round has a passing query exactly when an earlier one or the new one passed |
| GenerateTests.TokensAfterIsSum | src/generateTests.ts:87 | the token total after a run of queries is the start plus what they billed |
| GenerateTests.TestGenerator.constructor | src/generateTests.ts:36-53 | refiners and dehallucination follow the embedding count; totals start at 0 |
| GenerateTests.TestGenerator.LogOkStep | src/generateTests.ts:83-90 | a query that follows the log extends it |
| GenerateTests.TestGenerator.LogSent | src/generateTests.ts:65-70 | every query was sent after a reading of the clock, `clock(readIndex)`, no later than the deadline, and with the total not above the limit; each query follows a later reading than the queries before it |
| GenerateTests.TestGenerator.LogTokens | src/generateTests.ts:87 | `totalTokensUsed` is the sum of what the queries billed |
| GenerateTests.TestGenerator.LogHandled | src/generateTests.ts:88-90 | only the last query can have gone unhandled (the one that broke the budget) |
| GenerateTests.TestGenerator.LogInOrder | src/generateTests.ts:59-112 | calls follow one another, temperatures go forward, a text is queried once per temperature, and no later temperature follows a passing one |
| GenerateTests.TestGenerator.LogCallsBounded | src/generateTests.ts:58-113 | every query belongs to a call no later than the last |
| GenerateTests.TestGenerator.GenerateAndValidateTests | src/generateTests.ts:58-114 | the log only grows, by queries of this call, and the invariants hold; `rounds` temperatures are searched, in order: every query is from one of them, none before the last passed, and fewer than all are searched only when the last one searched had a passing query; round `r` began as `begun[r]` records (log position, clock reading taken during the call, token total), and its first query is the seed prompt's text unless that reading was past the deadline or that total past the limit |
| GenerateTests.TestGenerator.SearchAtTemperature | src/generateTests.ts:59-112 | starts from the seed prompt of lines 62-63 and reads the clock at least once; when its first reading is within the deadline and the total within the limit, its first query is the seed's text (`SeededAt`); the queries added belong to this temperature, and `generatedPassingTests` holds exactly when one of them produced a passing test; its loop ends with the worklist `remaining` empty, or with the last clock reading past the deadline or the total past the limit (`Exhausted`) |
| GenerateTests.TestGenerator.SeedText | src/generateTests.ts:62-63 | the text of the seed prompt: the function, `snippetMap(functionName) ?? []`, the default options, no signatures, no retry |
| GenerateTests.TestGenerator.RoundsSeededStep | src/generateTests.ts:59-63 | a further round, begun where the log ended, keeps every earlier round's first query in place, so all rounds stay seeded |
| GenerateTests.TestGenerator.SearchLoop | src/generateTests.ts:64-111 | the rest of a temperature's loop after its first turn: the round's log stays in shape, `generatedPassingTests` is exact, the round's first query stays where it was; the loop ends with the worklist `remaining` empty, or after a turn whose clock reading was past the deadline or whose total was past the limit (`Exhausted`), and a non-empty worklist gets at least one turn |
| GenerateTests.TestGenerator.ReadClock | src/generateTests.ts:65 | `performance.now()`: the next clock reading |
| GenerateTests.TestGenerator.Turn | src/generateTests.ts:64-111 | takes the next clock reading, `clock(old(clockReads))`; past the deadline or the budget it stops with nothing sent, the worklist, map and provenance unchanged; otherwise it pops the last prompt and explores it as `Explored` states, and what it pushes after the rest of the worklist is `Refined`: the refinements of each completion of the popped prompt's query, in order, tagged with their records' ids; a turn that stops leaves `Exhausted`; the log only grows, and unless it stops the worklist measure decreases (`Shrinks`) |
| GenerateTests.TestGenerator.Step | src/generateTests.ts:65-89 | given a reading `now == clock(reading)` taken after every logged query: past the deadline or the budget, stops with nothing sent, the worklist, map and provenance unchanged; otherwise pops the last prompt (the rest of the worklist is kept below what is pushed), explores it as `Explored` states, pushes what `Refined` says for the completions it handled, stops exactly when the query takes the total over the limit, and else lowers the worklist measure |
| GenerateTests.TestGenerator.Explore | src/generateTests.ts:75-89 | a repeated text sends nothing, leaves the worklist, map and token total alone, and merges the popped provenance into the earlier prompt as `withProvenance` does, no other prompt changing; a new text is recorded under its text and sent once, the log gaining that one query, and within the budget the prompts pushed are `Refined` from the model's completions |
| GenerateTests.TestGenerator.ExploreNew | src/generateTests.ts:81-110 | a new text is recorded in `generatedPrompts` and queried once, the log gaining one query of that text, handled exactly when the total stays within the limit; then the prompts pushed are exactly the refinements of the model's completions (`Refined`), all of smaller potential |
| GenerateTests.TestGenerator.LogNext | src/generateTests.ts:75-81 | a text not generated this round may be queried without breaking the order |
| GenerateTests.TestGenerator.QueryPrompt | src/generateTests.ts:83-110 | adds the billed tokens; over the limit nothing is validated, recorded or pushed; otherwise the completions are handled (the pushed prompts are `Refined` from them, the collector's new records are exactly their new sources, in order) and the prompt is reported |
| GenerateTests.TestGenerator.HandleAnswer | src/generateTests.ts:91-110 | every completion is handled as `HandleCompletions` states (the pushes are `Refined`, the new records are the new sources), then the prompt is reported once |
| GenerateTests.TestGenerator.ValidateCompletion | src/generateTests.ts:120-150 | a known source keeps its outcome; a new source gets `FirstOutcome` |
| GenerateTests.TestGenerator.HandleCompletions | src/generateTests.ts:91-109 | every completion has a record, and `passed` exactly when one of their tests passed; the prompts pushed are, completion by completion, the `Refinements` of each record's outcome with that record's id (`Refined`); the collector's sources gain exactly the completions' sources it did not hold, each once, in the order first met (`Added`) |
| GenerateTests.TestGenerator.HandleCompletion | src/generateTests.ts:92-108 | the completion's test is recorded as `info` in the collector, `passed'` extends the outcomes, and exactly its `Refinements` are pushed after the worklist; the pushes, records and sources of the completions so far each extend by this one |
| GenerateTests.TestGenerator.CheckCompletion | src/generateTests.ts:92-99 | the completion's test is recorded as `info`; `passed'` is `passed` or that test passed; the collector gains a record only for a source it did not hold, and the earlier records and pushes stay as they were |
| GenerateTests.TestGenerator.CompletionRecorded | src/generateTests.ts:92-99 | validating one more completion extends the outcomes, the completions' records and the added sources by that completion |
| GenerateTests.TestGenerator.OutcomesStep | src/generateTests.ts:92-99 | one more completion's record joins the outcomes |
| GenerateTests.TestGenerator.RefineAll | src/generateTests.ts:101-108 | pushes exactly `Refinements` after the worklist: what the synchronous refiners derive, then, only when dehallucinating, what the API-reference refiner derives; each is a fresh prompt with provenance {prompt, test id, refiner}, of smaller potential |
| GenerateTests.TestGenerator.Refinements | src/generateTests.ts:101-108 | what refining one completion pushes; stated by `RefinementsRefiners` |
| GenerateTests.TestGenerator.RefinementsRefiners | src/generateTests.ts:101-108 | everything refining a completion pushes comes from the generator's refiners; the API-reference refiner contributes only when dehallucinating, and only after every synchronous refinement |
| GenerateTests.TestGenerator.DerivationsOrigin | src/generateTests.ts:91-108 | every derivation of a query's completions belongs to one completion and carries the id of that completion's record |
| GenerateTests.TestGenerator.RefinedOrigin | src/generateTests.ts:91-108 | every prompt a query's completions pushed is a refinement of one completion's test, with provenance naming the popped prompt and that test, and the collector holds that test under the completion's source |
| GenerateTests.TestGenerator.PushedForSnoc | src/generateTests.ts:91-108 | one more completion's refinements are pushed after those of the completions before it |
| GenerateTests.TestGenerator.RecordsForStep | src/generateTests.ts:92-99 | records the collector keeps stay the completions' records, and one more joins them |
| GenerateTests.TestGenerator.SourcesStep | src/generateTests.ts:92-99 | one more completion's source joins the added sources if it is new |
| GenerateTests.TestGenerator.RefinePrompts | src/generateTests.ts:156-177 | pushes, as fresh objects, what the synchronous refiners derive, each with provenance {prompt, test id, refiner} |
| GenerateTests.TestGenerator.AsyncRefinePrompts | src/generateTests.ts:183-210 | pushes what the API-reference refiner derives from the ranked signatures, with the same provenance |
| GenerateTests.TestGenerator.NewRefined | src/generateTests.ts:169-174 | a fresh prompt object for a derived prompt, carrying the provenance {prompt, test id, refiner} |
| GenerateTests.TestGenerator.PushAll | src/generateTests.ts:169-174 | pushes one fresh prompt per derived prompt, in order, keeping the worklist before them |
| BenchmarkReports.Get | benchmark/count_hallucinations.ts:41 | `map.get(k)`: `undefined` exactly for absent keys |
| BenchmarkReports.LastNamed | benchmark/count_hallucinations.ts:82-85 | the last test report with a name |
| BenchmarkReports.TestsMapLastWins | benchmark/count_hallucinations.ts:82-85 | a name maps to the last report carrying it |
| BenchmarkReports.BuildTestsMap | benchmark/improvement_report.ts:41-44 | the `testsMap` loop |
| BenchmarkReports.LastWithId | benchmark/count_hallucinations.ts:89-92 | the last prompt report with an id |
| BenchmarkReports.PromptsMapLastWins | benchmark/count_hallucinations.ts:89-92 | an id maps to the last prompt report carrying it |
| CountHallucinations.Repeat | benchmark/count_hallucinations.ts:97 | `n` copies of an id |
| CountHallucinations.AddProvenanceLists | benchmark/count_hallucinations.ts:93-98 | one prompt's provenance adds its id once per entry naming an original prompt |
| CountHallucinations.NextPromptsLists | benchmark/count_hallucinations.ts:90-99 | `nextPrompts[o]` lists each prompt id once per provenance entry naming o, in prompt order; o is a key exactly when some entry names it |
| CountHallucinations.BuildPromptMaps | benchmark/count_hallucinations.ts:89-99 | the loop builds `promptsMap` and `nextPrompts` |
| CountHallucinations.NextPromptsOf | benchmark/count_hallucinations.ts:89-99 | the `nextPrompts` map; stated by `NextPromptsLists` |
| CountHallucinations.NextTestsMembers | benchmark/count_hallucinations.ts:50-60 | the tests of listed prompts that have a report |
| CountHallucinations.PromptTestsMembers | benchmark/count_hallucinations.ts:45-61 | the tests of prompts refined from reported prompts |
| CountHallucinations.ExpansionEdges | benchmark/count_hallucinations.ts:41-61 | expanding a test meets exactly the tests one step away; missing prompt ids are skipped |
| CountHallucinations.EdgeMentioned | benchmark/count_hallucinations.ts:55-58 | a step leads to a test some prompt report lists |
| CountHallucinations.ReachableStep | benchmark/count_hallucinations.ts:45-61 | reachability extends by one step |
| CountHallucinations.PathStaysInside | benchmark/count_hallucinations.ts:32-64 | a path from a closed set stays in it |
| CountHallucinations.ClosedHoldsReachable | benchmark/count_hallucinations.ts:32-64 | a set closed under steps holds everything reachable from its members |
| CountHallucinations.UncheckedMembers | benchmark/count_hallucinations.ts:56-58 | only unchecked tests are pushed |
| CountHallucinations.UncheckedAppend | benchmark/count_hallucinations.ts:55-58 | filtering distributes over concatenation |
| CountHallucinations.Expand | benchmark/count_hallucinations.ts:45-61 | the loops push the unchecked tests of the expansion, in visiting order |
| CountHallucinations.PushNextTests | benchmark/count_hallucinations.ts:50-60 | the inner loops push the unchecked tests of the refined prompts |
| CountHallucinations.FrontierStart | benchmark/count_hallucinations.ts:33-34 | the search starts with the start test on the stack and nothing checked |
| CountHallucinations.FrontierSkip | benchmark/count_hallucinations.ts:36-39 | popping a checked test changes nothing |
| CountHallucinations.FrontierExpand | benchmark/count_hallucinations.ts:40-61 | checking a failed test and pushing its unchecked expansion keeps the search invariant |
| CountHallucinations.FrontierExhausted | benchmark/count_hallucinations.ts:35-63 | an empty stack means no passing test is reachable |
| CountHallucinations.HallucinationFixed | benchmark/count_hallucinations.ts:32-64 | true exactly when a passing test is reachable from the start (including the start itself); each test expanded at most once |
| CountHallucinations.FixedUnfixedPartition | benchmark/count_hallucinations.ts:100-127 | every hallucination lands in exactly one list: fixed + unfixed = hallucinations |
| CountHallucinations.IsHallucination | benchmark/count_hallucinations.ts:103 | a FAILED test whose message contains "of undefined" or whose stack contains "is not a function"; used by `ReportedEntries` |
| CountHallucinations.Entry | benchmark/count_hallucinations.ts:106-116 | the entry of a hallucinated test, with `message ?? stack ?? "unknown"`; used by `ReportedEntries` |
| CountHallucinations.ReportedEntries | benchmark/count_hallucinations.ts:102-119 | only failed tests mentioning "of undefined" or "is not a function" are reported, as fixed exactly when a passing test is reachable, with `message ?? stack ?? "unknown"` |
| CountHallucinations.Report | benchmark/count_hallucinations.ts:82-119 | the script's two lists, in test order |
| ImprovementReport.TestStatuses | benchmark/improvement_report.ts:54-62 | each test is PASSED, AssertionFailed when FAILED with a stack starting "AssertionError", else FAILED; a test without a report throws |
| ImprovementReport.TestStatus | benchmark/improvement_report.ts:55-61 | the status of one test report; stated through `TestStatuses` |
| ImprovementReport.PromptStatus | benchmark/improvement_report.ts:63-69 | the status of a prompt; stated by `PromptStatusIsBest` |
| ImprovementReport.PromptStatusIsBest | benchmark/improvement_report.ts:63-69 | a prompt's status is the best of its tests', and FAILED without tests |
| ImprovementReport.PromptSuccessFails | benchmark/improvement_report.ts:53-70 | once a prompt's test lacks a report, the whole loop throws |
| ImprovementReport.PromptSuccessFailsWith | benchmark/improvement_report.ts:55 | the error is the `undefined` read of `status` |
| ImprovementReport.PromptSuccessDefined | benchmark/improvement_report.ts:53-70 | the loop succeeds exactly when every test of every prompt has a report |
| ImprovementReport.PromptSuccessLastWins | benchmark/improvement_report.ts:52-70 | each id maps to the status of the last prompt carrying it |
| ImprovementReport.PromptSuccessOf | benchmark/improvement_report.ts:52-70 | the `promptSuccess` map, or the error of the loop; stated by `PromptSuccessDefined`, `PromptSuccessLastWins` and `PromptSuccessFails` |
| ImprovementReport.BuildPromptSuccess | benchmark/improvement_report.ts:52-70 | the `promptSuccess` loop |
| ImprovementReport.ProvenanceRefiners | benchmark/improvement_report.ts:94 | the refiner of each provenance entry |
| ImprovementReport.Parents | benchmark/improvement_report.ts:124 | the original prompt of each provenance entry |
| ImprovementReport.RefinersMentioned | benchmark/improvement_report.ts:94 | a prompt's distinct refiners are exactly those its provenance names |
| ImprovementReport.AllRefinersMembers | benchmark/improvement_report.ts:93-94 | the refiners met are those some prompt's provenance names |
| ImprovementReport.NamesAreRefiners | benchmark/improvement_report.ts:94-109 | the summary names, in first-seen order, are distinct and are exactly the refiners some provenance names |
| ImprovementReport.EntryStep | benchmark/improvement_report.ts:93-143 | a prompt adds 1 to `tried` of each of its distinct refiners, and to `successful`/`improvedError` when it qualifies; other refiners are unchanged |
| ImprovementReport.InstancesStep | benchmark/improvement_report.ts:93-143 | likewise for the instance lists |
| ImprovementReport.EntryAbsent | benchmark/improvement_report.ts:95-109 | a refiner not met yet has zero counters and no instances |
| ImprovementReport.FindRefiner | benchmark/improvement_report.ts:96-115 | `find` over the summary or the instances: the first entry for a refiner, or none when no entry has it |
| ImprovementReport.NamesSnoc | benchmark/improvement_report.ts:94-109 | a refiner met again adds no entry; a new one goes last |
| ImprovementReport.PartialNew | benchmark/improvement_report.ts:95-109 | pushing fresh entries for a new refiner keeps the tallies |
| ImprovementReport.PartialCount | benchmark/improvement_report.ts:110-141 | counting at the refiner's entry keeps the tallies |
| ImprovementReport.AddRefiner | benchmark/improvement_report.ts:95-109 | entries exist for the refiner afterwards, in first-seen order |
| ImprovementReport.CountRefiner | benchmark/improvement_report.ts:95-141 | one refiner of the prompt counted at its entries |
| ImprovementReport.CountPrompt | benchmark/improvement_report.ts:116-141 | `successful` and a success instance only for a PASSED prompt none of whose parents passed; `improvedError` and an instance only for an AssertionFailed prompt whose parents all FAILED; `tried` always |
| ImprovementReport.PartialStart | benchmark/improvement_report.ts:93-94 | the tallies before a prompt |
| ImprovementReport.PartialDone | benchmark/improvement_report.ts:93-143 | the tallies after all of a prompt's refiners |
| ImprovementReport.CountRefiners | benchmark/improvement_report.ts:94-142 | the inner loop counts the prompt for each distinct refiner |
| ImprovementReport.Tally | benchmark/improvement_report.ts:93-143 | one summary and one instances entry per refiner name, in first-seen order, holding that refiner's tallies over all prompts |
| ImprovementReport.Report | benchmark/improvement_report.ts:41-143 | the script: the error when a test lacks a report, else the tallies |
| ImprovementReport.CountsBounded | benchmark/improvement_report.ts:116-141 | per refiner, successful + improvedError <= tried |
| ImprovementReport.InstancesCounted | benchmark/improvement_report.ts:122-138 | the counters equal the lengths of the instance lists |
| ImprovementReport.InstancesAreImprovements | benchmark/improvement_report.ts:116-139 | every success or improvement instance is a qualifying prompt that names the refiner, with its parents |
| Text.Split | src/codex.ts:154 | `split` on one character: at least one part, none holding the separator |
| Text.Map | src/promptCrafting.ts:149 | `map` over parts |
| Text.Take | src/promptCrafting.ts:535 | `slice(0, n)` |
| Text.TrimStartSuffix | src/codex.ts:201 | trimming the start leaves a suffix with no leading white space |
| Text.TrimEndPrefix | src/codex.ts:201 | trimming the end leaves a prefix with no trailing white space |
| Text.TrimEmpty | src/codex.ts:163 | `trim()` is empty exactly when every character is white space |
| Text.NatToString | src/promptCrafting.ts:150 | decimal digits of a number |
| Text.Dedup | src/mockModel.ts:34 | a `Set` built from a list: the same members, no duplicates, first occurrences in order |
| Text.DedupSnoc | benchmark/improvement_report.ts:94 | adding an element to a `Set` puts it last unless present |
| Text.JoinSplit | src/promptCrafting.ts:533-537 | splitting and joining with the same separator gives the text back |
| Text.SplitJoin | src/promptCrafting.ts:535 | joining separator-free parts and splitting gives the parts back |
| Text.TerminatedSplit | src/codex.ts:204 | lines each followed by a line break split into the lines and one empty line |

## Left out

- Reading and parsing files, environment variables, CLI arguments, console output and file writes. This is I/O. The scripts start from the parsed report lists; `fromFile` and the cached model's constructor start from the parsed entries.
- HTTP. `axios.post` becomes a `transport` function from attempt, prompt and options to an exchange. The 200 ms and 5 s delays and the `performance` marks are left out.
- Embedding similarity ranking (src/promptCrafting.ts:421-448, 497-523, src/embedding.ts). It uses floating point and a foreign model, so the ranked signature list is a parameter.
- The ranked signature list is the same for both API-reference refiners; the source extracts its tokens from the error message in one and from the completion in the other.
- Helpers from modules not included (`commentOut`, `closeBrackets`, `trimCompletion`, `sanitizePackageName`, `trimAndCombineDocComment`): function values. The validator, the snippet map, the completion model and the clock are function values too, so a model answers the same prompt and temperature the same way every time.
- src/testResultCollector.ts is not part of this model. `TestResults.ResultCollector` is a minimal collector: one record per distinct source and one outcome per record.
- `refinerTimes` (src/generateTests.ts:34, 191, 199): timing only.
- Concurrency: the controller awaits sequentially, so it is straight-line code.
- Temperatures are their decimal text. NaN and infinities, and number formatting of non-integral values beyond that text, are not modelled.
- CacheModel.CachedCompletionModel.constructor: the real model is a parameter, because the source calls the `Codex` constructor with three arguments where it takes two.
- CodexClient.ParseResponse: a response whose `usage` lacks `total_tokens` is treated like one without `usage` (an error). In the source that call instead yields `undefined` tokens.
- The `promptsMap` of benchmark/improvement_report.ts:48-51 is built but never read.
- The `finish_reason` content-filter counter (src/codex.ts:123-133) only logs a warning.
- Entries of the provenance lists are values. src/generateTests.ts:78 shares entry objects between the popped prompt and the earlier one, which the later in-place tagging can reach. The popped prompt is dropped right there, so nothing observable depends on the sharing.
- The summary and instances entries of benchmark/improvement_report.ts are values, updated at their index. The source changes the objects `find` returns, and each object sits in one list only.
- GenerateTests.TestGenerator.QueryPrompt: the completion model is a total function here, so it never throws. In the source, a strict mock or cached model throws "Prompt not found" on a miss (src/mockModel.ts:45, src/cacheModel.ts:48). Nothing catches that error at src/generateTests.ts:83, so `generateAndValidateTests` ends with it. The model does not capture that abort.
- GenerateTests.TestGenerator.RefinePrompts and GenerateTests.TestGenerator.AsyncRefinePrompts: because `SimpleRAG` is undefined, `refiner instanceof SimpleRAG` throws a TypeError in the source. At src/generateTests.ts:163 that happens for the first refiner that is not an `APIReferenceIncluder`, and at line 190 the same way. The model drops that throw and treats `SimpleRAG` as a class no refiner belongs to.
- GenerateAndValidateTests: its contract states the rounds, their order, the rule that a further temperature is searched exactly when no earlier one produced a passing test, and each round's seed query. What a round does after that (which prompts it pushes, that its loop runs until the worklist is empty or the deadline or budget is passed) is stated by the contracts of `SearchAtTemperature`, `SearchLoop` and `Turn` at the end of that round, and not carried across the later rounds in this contract.
