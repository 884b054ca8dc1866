# kg-nlq core in Dafny

kg-nlq answers natural-language questions about a pharmacopoeia knowledge
graph. This project models its server-side pipeline as Dafny code and proves
properties of that model.

1. A question is checked (`validateUserInput`).
2. An LLM is asked for a GraphQL query plan.
3. The plan is validated, repaired at most once and normalised.
4. The query is executed.
5. The untyped result tree is post-processed:
   - trimmed by depth and row ceiling;
   - turned into a graph of nodes and edges;
   - cut to the node and edge ceilings;
   - turned into at most six evidence rows.
6. The LLM is asked for an answer, and that step never fails.

The model also covers:
- the helpers around this pipeline: JSON extraction from LLM text, the LLM
  client's retry loop, the configuration loader, the schema-digest cache, and
  the Cypher text built by the `medicines`/`categories` resolvers;
- the two HTTP entry points, which answer 400, 500 or success;
- the pure helpers of the admin and node-detail components: pagination, page
  windows, label parsing, display names, set toggling, property ordering.

**Values.** Untyped JavaScript values are the datatype `Js.Json`:
- `JNull | JBool | JNum(int) | JStr | JArr | JObj`, where an object keeps its
  key order;
- `undefined` is `None`;
- `Truthy`, `Or` and `Nullish` give the semantics of `||` and `??`.

A property access on `null` throws a `TypeError`. It is modelled as a
`Failure` outcome wherever the source would throw.

**Oracles and state.**
- The LLM service, the query executor, `JSON.parse`/`JSON.stringify` and the
  prompt templates are oracles:
  - `Llm.Endpoint` and `Orchestrator.Executor` are classes that log every call;
  - the rest are function parameters (`Orchestrator.Oracles`).
- The module-level singletons are classes whose methods update fields:
  - the config instance is `AppConfig.ConfigHolder`;
  - the digest cache is `SchemaDigest.DigestCache`;
  - the default LLM client is `Llm.ClientRegistry`;
  - the builders that push onto arrays are `PostProcess.GraphBuilder` and the
    accumulator methods of `Validators` and `SchemaSimple`.
- Each such method is proved equal to a specification function of the old
  state. Lemmas state the source's promises about those functions.

**Modules, one per source file.** Two modules hold shared helpers:
- `Text` models JavaScript string built-ins;
- `Js` models values and `||`/`??`.

The others follow the source files:

| module | source file |
|---|---|
| `Utils` | lib/utils.ts |
| `AppConfig` | lib/config.ts |
| `Validators` | server/nlq/validators.ts |
| `PostProcess` | server/nlq/postprocess.ts |
| `Llm` | server/llm/client.ts |
| `SchemaDigest` | server/nlq/schemaDigest.ts |
| `Orchestrator` and `OrchestratorFacts` | server/nlq/orchestrator.ts |
| `SchemaSimple` | server/graphql/schema-simple.ts |
| `Routes` | both route files |
| `AdminList` | shared by NodeManager.tsx and RelationshipManager.tsx |
| `NodeManager` | components/admin/NodeManager.tsx |
| `RelationshipManager` | components/admin/RelationshipManager.tsx |
| `NodeDetail` | components/NodeDetailPanel.tsx |

`AdminList` holds the pagination arithmetic, page window, text cutting and
expansion toggle. The two admin components copy these word for word, and
only the default text limit differs.

**Behaviours of the code worth knowing.**
- **`sanitizeQueryPlan` is not idempotent.** A plan whose `safety.maxRows`
  is a truthy non-number, such as the string `"0"`, sanitises to `0` or
  `NaN`. A second pass then turns that value into 20
  (`Validators.SanitizeNotIdempotent`).
  - `Validators.SanitizeIdempotentIff` states exactly when idempotence holds.
  - `Validators.SanitizeIdempotentOnAccepted` shows that it always holds for
    the plans the orchestrator sanitises, which have passed validation.
- **`sanitizeQueryPlan` is total only on non-null plans.** On `null` or
  `undefined` the property access throws, and the model has that as its
  failure case (`Validators.SanitizeFields`).
- **Stage 1 trims the graph only above the literal limits 80 nodes and 120
  edges,** not the configured ones. The trim itself uses the configured
  ceilings (`OrchestratorFacts.Stage1GraphFacts`).

## Model

| member | source | states |
|---|---|---|
| `Text.TrimIsInfix` | server/nlq/validators.ts:57 | `trim()` removes a whitespace-only prefix and suffix and keeps the middle slice unchanged |
| `Text.TrimmedTrim` | lib/utils.ts:84 | the result of `trim()` neither starts nor ends with whitespace |
| `Text.TrimIdempotent` | lib/utils.ts:99 | trimming twice equals trimming once |
| `Text.TrimEmptyIffAllSpace` | server/nlq/validators.ts:138 | `trim()` gives "" exactly when the string is all whitespace |
| `Text.IndexOfFrom` | server/nlq/validators.ts:52 | the found index is the first occurrence at or after the start; no result means no occurrence |
| `Text.ContainsIff` | server/nlq/validators.ts:64 | `includes` holds exactly when the pattern occurs at some index |
| `Text.Split` | components/admin/NodeManager.tsx:115 | `split(sep)` gives at least one part and no part contains the separator |
| `Text.SplitJoin` | components/admin/NodeManager.tsx:114-117 | splitting the join of separator-free parts gives back the parts |
| `Text.Prefix` | lib/utils.ts:42 | `substring(0, n)` is a prefix of the string whose length is `n` clamped to `[0, length]` |
| `Text.SliceTo` | server/nlq/postprocess.ts:234 | `slice(0, n)` is a prefix; its length is `min(n, len)` for `n >= 0` and `len + n` clamped at zero for negative `n` |
| `Text.StringToNumberRadix` | server/nlq/validators.ts:75 | a `0x`, `0o` or `0b` numeral string coerces to its value in that base |
| `Text.StringToNumberSignedRadix` | server/nlq/validators.ts:75 | a sign before a `0x`, `0o` or `0b` prefix makes the coercion NaN |
| `Text.StringToNumberZeroFraction` | server/nlq/validators.ts:122 | a decimal numeral followed by ".0" coerces to the integer of its digits |
| `Text.StringToNumberFraction` | server/nlq/validators.ts:122 | a numeral with a non-zero fractional digit has no integer value and is NaN in the model |
| `Text.StringToNumberExponent` | server/nlq/validators.ts:75 | digits, "e" and exponent digits coerce to the digits' value times ten to the exponent |
| `Js.Or` | server/nlq/validators.ts:117 | `a \|\| b` is `a` when `a` is truthy, else `b`; the result is truthy exactly when `a` or `b` is |
| `Js.Nullish` | server/llm/client.ts:36-38 | `a ?? b` is `b` exactly when `a` is null or undefined; the result is nullish exactly when both are |
| `Js.LookupFinds` | server/nlq/postprocess.ts:21 | a property is found exactly when some entry has the key, and the first such entry gives the value |
| `Utils.FindFence` | lib/utils.ts:82 | the match is the leftmost opener (with its whitespace) followed by the first closing fence after it; no match means no opener has a closing fence |
| `Utils.LastIndexOf` | lib/utils.ts:94 | the greedy end of `[\s\S]*\}` is the last closer of the text |
| `Utils.FindBrackets` | lib/utils.ts:94 | the match starts at the leftmost `{` or `[` that has a later matching closer and ends at the last such closer |
| `Utils.ExtractJsonIsTrimmedSlice` | lib/utils.ts:80-100 | in every branch the result is a trimmed slice of the input |
| `Utils.JsonFenceWins` | lib/utils.ts:82-85 | a ```` ```json ```` fence wins; the result is the trimmed text up to the next fence |
| `Utils.PlainFenceWins` | lib/utils.ts:88-91 | without a json fence, the first plain fence block wins, trimmed |
| `Utils.BracketsWin` | lib/utils.ts:94-97 | without fences, the result is the bracketed span from the leftmost opener to its last closer |
| `Utils.NothingMatches` | lib/utils.ts:99 | with no strategy matching, the result is the trimmed input |
| `Utils.ExtractWrappedBody` | lib/utils.ts:82-85 | a body wrapped in a json fence on its own lines is recovered, trimmed |
| `Utils.BareObjectUnchanged` | lib/utils.ts:94-97 | text that is already one `{...}` object without fences is returned unchanged |
| `Utils.TruncateText` | lib/utils.ts:40-43 | unchanged when it fits; otherwise the kept prefix of the text followed by "..." |
| `Utils.TruncateTextLength` | lib/utils.ts:40-43 | with `maxLength >= 3` the result never exceeds `maxLength`, and is exactly `maxLength` long when cut |
| `AppConfig.GetEnvVar` | lib/config.ts:11-17 | succeeds exactly when the variable is set and non-empty, with its value; otherwise the missing-variable error naming it |
| `AppConfig.GetEnvVarWithDefault` | lib/config.ts:22-24 | the value when set and non-empty, else the default |
| `AppConfig.GetEnvNumber` | lib/config.ts:29-37 | the default when unset; otherwise it fails exactly when `parseInt(value, 10)` is NaN, with that value named in the error |
| `AppConfig.LoadConfigFacts` | lib/config.ts:42-67 | loading succeeds exactly when both secrets are set and the three numbers parse; unset ceilings default to 50/80/120 |
| `AppConfig.ConfigErrorsIff` | lib/config.ts:87-103 | no error exactly when every string is set and every ceiling is positive; one error per non-positive ceiling |
| `AppConfig.LoadedConfigValidIff` | lib/config.ts:87-103 | a loaded config fails validation only through a non-positive ceiling |
| `AppConfig.ValidateConfig` | lib/config.ts:87-107 | throws exactly when validation finds an error, with every message joined by newlines |
| `AppConfig.CheckNeo4j` | lib/config.ts:90-92 | collects the Neo4j errors in order |
| `AppConfig.CheckLlm` | lib/config.ts:94-98 | collects the LLM errors in order |
| `AppConfig.CheckCeilings` | lib/config.ts:100-102 | collects the ceiling errors in order |
| `AppConfig.ConfigHolder.GetConfig` | lib/config.ts:77-82 | returns the loaded config, fills the instance on first success and keeps an existing instance |
| `Validators.PlanCheckShape` | server/nlq/validators.ts:18-86 | for a non-null plan, the errors are the field errors, then the query-text errors, then the ceiling error; the warnings are missing variables, then the dangerous patterns |
| `Validators.CheckFields` | server/nlq/validators.ts:23-45 | accumulates the intent, language, query, variables and maxRows checks in source order |
| `Validators.CheckQueryText` | server/nlq/validators.ts:48-59 | adds the mutation error and the must-start-with-query error |
| `Validators.DangerScan` | server/nlq/validators.ts:62-67 | one warning per dangerous pattern found, in list order |
| `Validators.ValidateQueryPlan` | server/nlq/validators.ts:18-86 | equals the function `Validators.PlanCheck`; `valid` holds exactly when no error was found |
| `Validators.PlanCheckFailsIff` | server/nlq/validators.ts:23-49 | it throws exactly for a null or undefined plan, or a truthy non-string query |
| `Validators.PlanValidIff` | server/nlq/validators.ts:23-79 | `valid` exactly when intent is qa or browse, the language is graphql, the query is non-empty, has no "mutation" and starts with "query", and maxRows is a number within the ceiling |
| `Validators.WarningsAreNotices` | server/nlq/validators.ts:39-67 | every warning is the missing-variables note or a dangerous-pattern note |
| `Validators.DangerWarningsFrom` | server/nlq/validators.ts:62-67 | each dangerous-pattern warning names a listed pattern that the query contains |
| `Validators.ValidateQueryResult` | server/nlq/validators.ts:91-108 | valid exactly when the result is a non-null object or array, with the two error messages in order |
| `Validators.SanitizeFields` | server/nlq/validators.ts:113-129 | fails only on a null plan; language is graphql; defaults qa, "", {} and normal; includeEvidence unless literally false; maxRows never above the ceiling |
| `Validators.ClampAgain` | server/nlq/validators.ts:122 | re-clamping a clamped row count is stable exactly when it is a number other than 0, or the ceiling is not positive |
| `Validators.SanitizeIdempotentIff` | server/nlq/validators.ts:113-129 | sanitising the serialised result again gives the same plan exactly when the clamped row count is a number other than 0, or the ceiling is not positive |
| `Validators.SanitizeIdempotentOnAccepted` | server/nlq/validators.ts:113-129 | on plans that pass validation, sanitising twice equals sanitising once |
| `Validators.SanitizeNotIdempotent` | server/nlq/validators.ts:122 | a plan with `maxRows: "0"` is a counterexample to idempotence in general |
| `Validators.SanitizedPlanRevalidates` | server/nlq/validators.ts:113-129 | a sanitised accepted plan passes validation again and keeps its intent and query |
| `Validators.PlanToJsonFields` | server/nlq/validators.ts:116-127 | the serialised plan carries each normalised field under its own key |
| `Validators.FindWord` | server/nlq/validators.ts:152-154 | the match found is a case-insensitive whole-word occurrence with no such occurrence before it; no match means there is none |
| `Validators.WordMatchesIff` | server/nlq/validators.ts:152-154 | `/\bWORD\b/i` matches exactly when the word occurs between word boundaries |
| `Validators.PatternWarnings` | server/nlq/validators.ts:159-163 | at most one warning per pattern, each the suspicious-input note |
| `Validators.ScanPatterns` | server/nlq/validators.ts:159-163 | the loop appends exactly the warnings of the matching patterns |
| `Validators.ValidateUserInput` | server/nlq/validators.ts:134-170 | equals the function `Validators.InputCheck` of the input check |
| `Validators.PatternWarningsCount` | server/nlq/validators.ts:159-163 | the number of pattern warnings is the number of matching patterns |
| `Validators.UserInputValidIff` | server/nlq/validators.ts:138-148 | valid exactly when not all whitespace and at most 1000 characters; warnings are the short-input note plus one per matching pattern |
| `PostProcess.AddNodeConsistent` | server/nlq/postprocess.ts:18-34 | addNode keeps ids distinct and the id set exact, only appends, and records any truthy id |
| `PostProcess.AddNodeKnownIgnored` | server/nlq/postprocess.ts:25 | an already known id changes nothing: the first node wins and is not merged |
| `PostProcess.EmitNodeConsistent` | server/nlq/postprocess.ts:25-33 | emitting a well-shaped node keeps the graph consistent and only appends |
| `PostProcess.AddEdgeConsistent` | server/nlq/postprocess.ts:36-49 | addEdge between known nodes keeps edge ids distinct and in `source-type-target` form, with no dangling end |
| `PostProcess.AppendEdge` | server/nlq/postprocess.ts:39-48 | appending a fresh well-formed edge between known nodes keeps the edge invariant |
| `PostProcess.PharmacopoeiaConsistent` | server/nlq/postprocess.ts:59-77 | the pharmacopoeia node (id `id \|\| "2998"`) is added at most once and BELONGS_TO targets it |
| `PostProcess.LinkOneConsistent` | server/nlq/postprocess.ts:83-88 | a REFER_TO/RELATED item adds its node before its edge, so the edge is never dangling and its id is recorded |
| `PostProcess.LinkConsistent` | server/nlq/postprocess.ts:81-104 | linking a list of items keeps the graph consistent |
| `PostProcess.ProcessEntityConsistent` | server/nlq/postprocess.ts:51-104 | processEntity keeps the graph consistent and only appends |
| `PostProcess.TraverseConsistent` | server/nlq/postprocess.ts:161-189 | traversal of any tree keeps the graph consistent and only appends |
| `PostProcess.ExtractWellFormed` | server/nlq/postprocess.ts:12-207 | every extracted graph has distinct node ids, distinct edge ids in `source-type-target` form, and no dangling edge |
| `PostProcess.GraphBuilder.AddNode` | server/nlq/postprocess.ts:18-34 | the builder's new state is addNode of the old state |
| `PostProcess.GraphBuilder.AddEdge` | server/nlq/postprocess.ts:36-49 | the builder's new state is addEdge of the old state |
| `PostProcess.GraphBuilder.Link` | server/nlq/postprocess.ts:82-90 | the forEach over items is the item-by-item link function |
| `PostProcess.GraphBuilder.ProcessEntity` | server/nlq/postprocess.ts:51-104 | the builder's new state is processEntity of the old state |
| `PostProcess.GraphBuilder.Traverse` | server/nlq/postprocess.ts:161-189 | the recursive walk with its key loop gives the traversal function |
| `PostProcess.ExtractGraphFromResult` | server/nlq/postprocess.ts:12-207 | returns the extraction function's graph, and that graph is well formed |
| `PostProcess.ExtractArrayPrefix` | server/nlq/postprocess.ts:165-167 | extra trailing array elements only append nodes and edges |
| `PostProcess.FilterEdgesIff` | server/nlq/postprocess.ts:219-220 | an edge survives the filter exactly when both ends are kept nodes |
| `PostProcess.FilterEdgesSubsequence` | server/nlq/postprocess.ts:219-220 | the filter keeps edge order |
| `PostProcess.TrimGraphFacts` | server/nlq/postprocess.ts:212-224 | nodes are a prefix of at most maxNodes; edges are an ordered subsequence of at most maxEdges with both ends kept, and all such edges stay when they fit |
| `PostProcess.TrimGraphWellFormed` | server/nlq/postprocess.ts:212-224 | trimming a well-formed graph leaves it well formed |
| `PostProcess.RowsEvidenceLength` | server/nlq/postprocess.ts:257-267 | one evidence row per cited item |
| `PostProcess.MedicineEvidenceCount` | server/nlq/postprocess.ts:234-283 | a medicine yields one row plus at most 3 refersTo and 2 related rows; its own row cites its id and no edge |
| `PostProcess.RowsEvidenceFails` | server/nlq/postprocess.ts:257-259 | it throws exactly when a cited item is null |
| `PostProcess.MedicinesEvidenceFails` | server/nlq/postprocess.ts:234 | it throws exactly when some medicine throws, always with a TypeError |
| `PostProcess.EvidenceF` | server/nlq/postprocess.ts:229-372 | a null result throws; otherwise at most 6 rows |
| `PostProcess.GenerateEvidence` | server/nlq/postprocess.ts:229-372 | the pushing loops compute the evidence function |
| `PostProcess.PushMedicine` | server/nlq/postprocess.ts:235-283 | one medicine's pushes give its evidence rows |
| `PostProcess.PushRows` | server/nlq/postprocess.ts:257-267 | the forEach over cited items gives their rows |
| `PostProcess.MedicinesCite` | server/nlq/postprocess.ts:256-283 | every evidence edge id is one of the REFER_TO/RELATED ids of its medicine |
| `PostProcess.ItemsCoverEdges` | server/nlq/postprocess.ts:165-173 | traversing a medicines array records every edge id its evidence cites |
| `PostProcess.EvidenceCitesExtractedEdges` | server/nlq/postprocess.ts:259 | every edge id an evidence row cites (for a truthy target) is the id of an extracted edge |
| `PostProcess.TrimShape` | server/nlq/postprocess.ts:380-404 | past maxDepth, and for primitives, unchanged; arrays are cut to maxRows and trimmed element-wise; an object's fields are its `VisibleFields`, each value trimmed one level deeper (which fields those are, and in what order, is `PostProcess.VisibleAppend`/`PostProcess.VisibleOne`) |
| `PostProcess.TrimEstablishes` | server/nlq/postprocess.ts:377-407 | the trimmed tree has no array longer than maxRows and no `__` key within maxDepth |
| `PostProcess.TrimOfTrimmed` | server/nlq/postprocess.ts:377-407 | a tree already in trimmed shape is unchanged |
| `PostProcess.TrimIdempotent` | server/nlq/postprocess.ts:377-407 | trimming twice with the same depth equals trimming once, for a non-negative row ceiling |
| `PostProcess.TrimNegativeRowsNotIdempotent` | server/nlq/postprocess.ts:387 | with a negative row ceiling `slice(0, n)` keeps dropping elements, so the property needs `maxRows >= 0` |
| `PostProcess.Trim` | server/nlq/postprocess.ts:380-404 | the recursive method with its key loop equals the trim function |
| `PostProcess.TrimQueryResult` | server/nlq/postprocess.ts:377-407 | equals the trim function, and the result is in trimmed shape |
| `PostProcess.VisibleFields` | server/nlq/postprocess.ts:393-398 | every entry kept is one of the input's and has no `__` key |
| `PostProcess.VisibleAppend` | server/nlq/postprocess.ts:394-398 | the filter of a concatenation is the concatenation of the filters, so entries keep their order and multiplicity |
| `PostProcess.VisibleOne` | server/nlq/postprocess.ts:395 | a single entry survives exactly when its key does not start with `__` |
| `Llm.SettingsDefaults` | server/llm/client.ts:30-39 | temperature 0.7, maxTokens 4000 and timeout 60000 only for absent options, so an explicit 0 is kept; an empty model string falls back to the config |
| `Llm.MessagesFor` | server/llm/client.ts:106-116 | [system, user] when the system prompt is truthy, else [user]; the last message is always the user prompt |
| `Llm.Attempts` | server/llm/client.ts:154 | between 1 and maxRetries + 1 attempts |
| `Llm.RetryFacts` | server/llm/client.ts:154-188 | every attempt before the last fails; success is the first successful response; total failure uses the whole budget and throws the last error |
| `Llm.BackoffsGrow` | server/llm/client.ts:183 | each further failure appends one wait 1000 ms longer than the last; the waits are at least 1000 ms, strictly increasing, and a shorter run's waits are a prefix of a longer run's |
| `Llm.WaitsBetweenAttempts` | server/llm/client.ts:181-184 | a wait follows every failed attempt except the last, so there is one fewer wait than attempts |
| `Llm.Endpoint.Call` | server/llm/client.ts:44-101 | the oracle answers the n-th request and logs it |
| `Llm.Endpoint.Wait` | server/llm/client.ts:183 | logs one back-off wait |
| `Llm.LlmClient.constructor` | server/llm/client.ts:30-39 | the client settings are the options over the config defaults |
| `Llm.LlmClient.Chat` | server/llm/client.ts:44-101 | one request with the client settings |
| `Llm.LlmClient.Generate` | server/llm/client.ts:106-116 | one request with the built messages |
| `Llm.LlmClient.GenerateWithRetry` | server/llm/client.ts:121-189 | the loop's outcome is the retry function; it sends the request once per attempt and waits between attempts |
| `Llm.ClientRegistry.GetDefaultLlmClient` | server/llm/client.ts:195-202 | creates the client once and returns the same instance afterwards |
| `SchemaDigest.DigestCache.GetSchemaDigest` | server/nlq/schemaDigest.ts:16-21 | always the digest text; generates only when the cache is empty (or holds the falsy "") |
| `SchemaDigest.DigestCache.ClearSchemaDigestCache` | server/nlq/schemaDigest.ts:271-273 | empties the cache, so the next call regenerates the same text |
| `SchemaDigest.GetEntityTypes` | server/nlq/schemaDigest.ts:278-280 | exactly Person, Drug and Disease |
| `SchemaDigest.GetRelationshipTypes` | server/nlq/schemaDigest.ts:285-287 | exactly RESEARCHES and TREATS |
| `SchemaDigest.GetEntityFields` | server/nlq/schemaDigest.ts:292-300 | the listed four fields for the three types, otherwise ["id", "name"] |
| `Orchestrator.Executor.Execute` | server/nlq/orchestrator.ts:66 | the executor oracle answers the n-th query and logs it |
| `Orchestrator.Pipeline.FixQueryPlan` | server/nlq/orchestrator.ts:277-301 | equals the fix run: one unretried call through the default client |
| `Orchestrator.Pipeline.PlanFromResponse` | server/nlq/orchestrator.ts:233-271 | equals the run from the LLM content: extract, parse, validate, repair at most once, sanitise |
| `Orchestrator.Pipeline.PlanAfter` | server/nlq/orchestrator.ts:226-271 | an LLM failure becomes the planning error; otherwise the content is processed |
| `Orchestrator.Pipeline.PlanWith` | server/nlq/orchestrator.ts:205-271 | equals the planning run for a loaded config |
| `Orchestrator.Pipeline.GenerateQueryPlan` | server/nlq/orchestrator.ts:202-272 | equals the planning run, including every LLM call and wait |
| `Orchestrator.Pipeline.GenerateAnswer` | server/nlq/orchestrator.ts:306-363 | never fails once the config loads, and equals the answer run |
| `Orchestrator.Pipeline.ExecuteAndAnswer` | server/nlq/orchestrator.ts:64-120 | execute, trim, extract, cut, evidence and answer equal the execution run |
| `Orchestrator.Pipeline.ProcessNlq` | server/nlq/orchestrator.ts:39-121 | the whole request equals the process run, with every call to both oracles |
| `Orchestrator.Pipeline.ExecuteStage1` | server/nlq/orchestrator.ts:148-174 | stage 1 after planning equals its run and makes no LLM call |
| `Orchestrator.Pipeline.ProcessNlqStage1` | server/nlq/orchestrator.ts:126-175 | stage 1 equals the stage-1 run |
| `Orchestrator.Pipeline.ProcessNlqStage2` | server/nlq/orchestrator.ts:180-197 | stage 2 equals trimming to depth 5 and the answer run |
| `Orchestrator.PlanAfterSuccess` | server/nlq/orchestrator.ts:227-233 | after a successful LLM call, the content alone decides the plan |
| `OrchestratorFacts.SanitizedAcceptableFields` | server/nlq/orchestrator.ts:245-271 | a returned plan has language graphql, intent qa or browse, a non-empty query within the rules, and maxRows within the ceiling |
| `OrchestratorFacts.FixRunFacts` | server/nlq/orchestrator.ts:277-301 | the fix makes exactly one LLM call, no wait and no query; a plan it returns is validated and sanitised |
| `OrchestratorFacts.PlanFromContentFacts` | server/nlq/orchestrator.ts:235-264 | at most one fix call follows the planning call, and any returned plan is validated and sanitised |
| `OrchestratorFacts.PlanRunFacts` | server/nlq/orchestrator.ts:202-272 | 1 or 2 planning attempts plus at most one fix: at most 3 calls, at most one 1000 ms wait, and a returned plan is acceptable |
| `OrchestratorFacts.AnswerOfFacts` | server/nlq/orchestrator.ts:328-362 | LLM failure gives the apology and []; non-JSON gives the raw content; otherwise `answer \|\| "未能生成答案"` and `evidence \|\| []` |
| `OrchestratorFacts.AnswerCoreFacts` | server/nlq/orchestrator.ts:306-363 | the answer step always succeeds after 1 or 2 identical calls |
| `OrchestratorFacts.Stage2Facts` | server/nlq/orchestrator.ts:180-197 | stage 2 succeeds exactly when the config loads, executes nothing and makes at most 2 calls |
| `OrchestratorFacts.InvalidInputStopsEarly` | server/nlq/orchestrator.ts:43-46 | invalid input throws before any LLM call or query, in the full path and in stage 1 |
| `OrchestratorFacts.ExecuteCalls` | server/nlq/orchestrator.ts:64-71 | one query execution; a failure is rethrown with the execution prefix before any answer call |
| `OrchestratorFacts.ExecuteResponseFacts` | server/nlq/orchestrator.ts:76-120 | the response carries the plan, the raw result and the answer given on the trimmed result; warnings are undefined exactly when empty; the evidence is the LLM's when its `length` is positive (for an array: non-empty), else `generateEvidence` of the trimmed result; the graph is well formed and within the ceilings |
| `OrchestratorFacts.ProcessCallBounds` | server/nlq/orchestrator.ts:39-121 | a full request makes at most 5 LLM calls and at most 1 query |
| `OrchestratorFacts.ProcessResponseFacts` | server/nlq/orchestrator.ts:39-121 | a response means valid input, a loaded config, the planning run's acceptable plan and one execution of that plan; the warnings are the input warnings then the plan warnings, undefined when there are none; the evidence is the LLM's when its `length` is positive, else `generateEvidence` of the trimmed result |
| `OrchestratorFacts.Stage1SendsOnlyPlanning` | server/nlq/orchestrator.ts:126-175 | stage 1 sends only the planning calls |
| `OrchestratorFacts.StageExecuteCalls` | server/nlq/orchestrator.ts:148-155 | stage-1 execution runs one query and no LLM call |
| `OrchestratorFacts.StageExecuteResponse` | server/nlq/orchestrator.ts:158-174 | the stage-1 response carries the plan, the raw result, `generateEvidence` of the trimmed result, and the warnings, undefined exactly when empty |
| `OrchestratorFacts.Stage1CallBounds` | server/nlq/orchestrator.ts:126-175 | stage 1 makes at most 3 LLM calls and at most 1 query |
| `OrchestratorFacts.Stage1ResponseFacts` | server/nlq/orchestrator.ts:126-175 | a stage-1 response means valid input and the planning run's acceptable plan, and carries that plan's raw result, `generateEvidence` of the trimmed result, and the input warnings then the plan warnings, undefined when there are none |
| `OrchestratorFacts.Stage1GraphFacts` | server/nlq/orchestrator.ts:158-164 | the stage-1 graph is the extracted graph unless it exceeds 80 nodes or 120 edges, in which case it is cut to the configured ceilings |
| `SchemaSimple.Conditions` | server/graphql/schema-simple.ts:86-101 | at most three conditions, none exactly when no argument is truthy |
| `SchemaSimple.CollectConditions` | server/graphql/schema-simple.ts:86-101 | the pushes give the conditions and the parameters |
| `SchemaSimple.ParamsFor` | server/graphql/schema-simple.ts:88-101 | params hold exactly the truthy arguments with their values |
| `SchemaSimple.QueryPartsFacts` | server/graphql/schema-simple.ts:84-120 | MATCH first, WHERE only with conditions (joined by AND), the pharmacopoeia match always, refer and related pieces exactly when selected, ORDER/LIMIT last |
| `SchemaSimple.QueryTextValueIndependent` | server/graphql/schema-simple.ts:84-120 | the query text depends only on which arguments are given, not on their values |
| `SchemaSimple.QueryEndsWithLimit` | server/graphql/schema-simple.ts:120 | the query always ends with " ORDER BY m.doc_id LIMIT 20" |
| `SchemaSimple.BuildMedicineQuery` | server/graphql/schema-simple.ts:78-120 | the `+=` steps build the specified query text and parameters |
| `SchemaSimple.AppendMatches` | server/graphql/schema-simple.ts:107-115 | appends the pharmacopoeia match and the selected optional matches |
| `SchemaSimple.AppendReturns` | server/graphql/schema-simple.ts:117-120 | appends the return clause, the selected collects and the order/limit |
| `SchemaSimple.AppendWhen` | server/graphql/schema-simple.ts:118-119 | a conditional `+=` appends its piece only when needed |
| `SchemaSimple.Append` | server/graphql/schema-simple.ts:107 | one `+=` appends one piece |
| `SchemaSimple.SummaryFieldsFacts` | server/graphql/schema-simple.ts:137-143 | a truthy property is copied, anything else becomes "" |
| `SchemaSimple.PharmacopoeiaData` | server/graphql/schema-simple.ts:144-147 | an absent pharmacopoeia maps to null; a present one throws exactly when its properties are nullish |
| `SchemaSimple.PharmacopoeiaIdFallback` | server/graphql/schema-simple.ts:145 | the id falls back from identity to properties.id to "2998" |
| `SchemaSimple.LinkedSummariesFacts` | server/graphql/schema-simple.ts:152-163 | entries without properties are dropped; every kept one is summarised |
| `SchemaSimple.MapLinked` | server/graphql/schema-simple.ts:153-163 | filter-then-map equals the linked summaries |
| `SchemaSimple.MedicineDataKeys` | server/graphql/schema-simple.ts:136-179 | the record keys are the seven summaries and pharmacopoeia, plus refersTo and relatedByCategory exactly when selected |
| `SchemaSimple.MapRecord` | server/graphql/schema-simple.ts:133-181 | the per-record field assignments give the record data |
| `SchemaSimple.MapRecords` | server/graphql/schema-simple.ts:132-182 | mapping the records gives the mapped list, or the first record's error |
| `SchemaSimple.MedicinesDataLength` | server/graphql/schema-simple.ts:132-182 | one mapped entry per record, in order |
| `SchemaSimple.MedicinesDataFailsFrom` | server/graphql/schema-simple.ts:132-182 | the first failing record's error is the result |
| `SchemaSimple.VolumeNumber` | server/graphql/schema-simple.ts:229 | the volume parameter is never 0 |
| `SchemaSimple.VolumeNumberFacts` | server/graphql/schema-simple.ts:223-229 | 第一部 to 第四部 map to 1 to 4; any other name gives `parseInt`'s value when that is a number other than 0, and 1 otherwise |
| `SchemaSimple.BuildCategoriesQuery` | server/graphql/schema-simple.ts:218-232 | WHERE and the volume parameter only when a volume is given |
| `Routes.CheckBodyIff` | app/api/nlq/route.ts:20-39 | null throws; 400 for a falsy or non-string question, checked before a bad mode; otherwise the trimmed question, the mode and `context \|\| {}` |
| `Routes.NlqPostStatus` | app/api/nlq/route.ts:14-63 | 400 exactly on failed checks, 200 with processNLQ's response on success, else 500 with details only in development |
| `Routes.StagedPostStatus` | app/api/nlq-staged/route.ts:18-101 | a bad stage is 400; stage 1 rejects like the plain route; stage 2 rejects a falsy question, plan or result; each stage answers 200 exactly when its body is accepted and its orchestrator stage returns, carrying that stage's result; failures are the 500 envelope |
| `Routes.BlankQuestionIs500` | app/api/nlq-staged/route.ts:87-100 | a whitespace-only question passes the route, is refused by input validation and ends as 500 with no LLM call or query |
| `AdminList.TotalPages` | components/admin/NodeManager.tsx:295 | `ceil(total / 20)`: the smallest page count covering all entries |
| `AdminList.PageRange` | components/admin/NodeManager.tsx:295-297 | for a page in range: skip, start and end are within the total; a non-last page shows 20 items; pages tile the list; the last ends at the total |
| `AdminList.TotalPagesZero` | components/admin/NodeManager.tsx:295 | no pages exactly for an empty list |
| `AdminList.PageWindowFacts` | components/admin/NodeManager.tsx:625-635 | min(5, totalPages) consecutive pages within range that include the current page, centred when possible |
| `AdminList.CutText` | components/admin/NodeManager.tsx:300-303 | unchanged when it fits; otherwise the first maxLength characters plus "..." |
| `AdminList.CutTextBound` | components/admin/RelationshipManager.tsx:345-348 | the result is at most maxLength + 3 long and stable under a second cut at that length |
| `AdminList.Toggled` | components/admin/NodeManager.tsx:240-250 | flips the membership of one id and leaves every other id unchanged |
| `AdminList.ToggleTwice` | components/admin/RelationshipManager.tsx:280-290 | toggling twice restores the set |
| `AdminList.Expansion.Toggle` | components/admin/NodeManager.tsx:240-250 | the expanded set becomes the toggled copy of the old set, for both managers |
| `NodeManager.NonEmpty` | components/admin/NodeManager.tsx:117 | keeps exactly the non-empty strings; none are left exactly when all parts are empty; nothing is dropped when none is empty |
| `NodeManager.NonEmptyAppend` | components/admin/NodeManager.tsx:117 | the filter of a concatenation is the concatenation of the filters, so the labels keep their order and multiplicity |
| `NodeManager.NonEmptyOne` | components/admin/NodeManager.tsx:117 | a single part is kept exactly when it is non-empty |
| `NodeManager.TrimAllFacts` | components/admin/NodeManager.tsx:116 | every trimmed part has no surrounding whitespace, trimming again changes nothing, and trimming works part by part |
| `NodeManager.CreateLabels` | components/admin/NodeManager.tsx:114-122 | fails with the missing-label message exactly when no label remains |
| `NodeManager.LabelsClean` | components/admin/NodeManager.tsx:114-117 | each label is non-empty, trimmed and free of commas |
| `NodeManager.LabelsEmptyIff` | components/admin/NodeManager.tsx:119-122 | creation is refused exactly when every comma-separated part is whitespace |
| `NodeManager.LabelsReparse` | components/admin/NodeManager.tsx:114-117 | parsing the comma-joined labels gives the same labels |
| `NodeManager.FirstTruthyKey` | components/admin/NodeManager.tsx:316-321 | the first key with a truthy property, or none exactly when all are falsy |
| `NodeManager.GetNodeDisplayName` | components/admin/NodeManager.tsx:314-323 | the loop with early return gives the display name |
| `NodeManager.DisplayNamePrecedence` | components/admin/NodeManager.tsx:317-320 | the first truthy of name, title, label, doc_id, id is shown as a string |
| `NodeManager.DisplayNameFallback` | components/admin/NodeManager.tsx:322 | "节点 " + identity exactly when all five are falsy |
| `RelationshipManager.CheckForm` | components/admin/RelationshipManager.tsx:157-160 | creation proceeds exactly when all three fields are non-empty |
| `RelationshipManager.InfoNameIsFirstTruthy` | components/admin/RelationshipManager.tsx:340 | the `\|\|` chain is the first truthy of name, title, label, doc_id |
| `RelationshipManager.NodeInfoNameFacts` | components/admin/RelationshipManager.tsx:338-343 | missing info is "未知节点"; a non-array labels value throws; any other name ends with "]" |
| `RelationshipManager.NodeInfoNameOfStrings` | components/admin/RelationshipManager.tsx:341-342 | string labels give `name [a, b]`, or `[a, b]` without a name |
| `RelationshipManager.ElementStrings` | components/admin/RelationshipManager.tsx:341 | one string per element as `join` renders it: `null` is "", a string itself, a number its decimal form, a boolean "true"/"false", an object "[object Object]" |
| `NodeDetail.TypeColorFacts` | components/NodeDetailPanel.tsx:24-37 | the default blue is used exactly for unknown types; the four known types get distinct colours |
| `NodeDetail.FormatValueFacts` | components/NodeDetailPanel.tsx:40-47 | null or undefined is "无"; strings are cut at 500 plus "..."; objects are stringified; other values are String(value) |
| `NodeDetail.Kept` | components/NodeDetailPanel.tsx:51-53 | keeps exactly the entries whose key is not excluded |
| `NodeDetail.KeptAppend` | components/NodeDetailPanel.tsx:51-53 | the filter of a concatenation is the concatenation of the filters, so the entries keep their order and multiplicity |
| `NodeDetail.KeptOne` | components/NodeDetailPanel.tsx:52 | a single entry is kept exactly when its key is not excluded |
| `NodeDetail.Insert` | components/NodeDetailPanel.tsx:54-66 | the insertion step adds one entry to the multiset |
| `NodeDetail.SortByPriority` | components/NodeDetailPanel.tsx:54-66 | the sort is a permutation |
| `NodeDetail.InsertSorted` | components/NodeDetailPanel.tsx:54-66 | insertion keeps the list sorted by priority |
| `NodeDetail.InsertKeepsOrder` | components/NodeDetailPanel.tsx:54-66 | insertion is stable within a priority |
| `NodeDetail.SortFacts` | components/NodeDetailPanel.tsx:54-66 | the sorted list has non-decreasing priority and keeps the order of equal priorities |
| `NodeDetail.DisplayPropertiesFacts` | components/NodeDetailPanel.tsx:50-66 | no excluded key; exactly the other entries, as a permutation, sorted by priority, stable |
| `NodeDetail.RelatedGroupsFacts` | components/NodeDetailPanel.tsx:70-86 | each group is present exactly when its property is an array (or truthy, for the pharmacopoeia), in source order, with the property's nodes |
| `NodeDetail.GetRelatedNodes` | components/NodeDetailPanel.tsx:70-86 | the three conditional pushes give the related groups |

## Left out

- Network and HTTP plumbing are not modelled: `fetch`, timeouts and the response parsing in `LLMClient.chat` are the `Endpoint` oracle, and `NextRequest`/`NextResponse` are reduced to the status decision.
- The Neo4j driver and `session.run` are not modelled. The `medicines` and `categories` resolvers are modelled up to the query text, the parameters and the record mapping; the records are inputs.
- The `volumes` resolver is not modelled: it is one fixed query and a one-field mapping.
- `JSON.parse` and `JSON.stringify` (`isValidJson`, `safeJsonParse`, `formatValue`'s object case, the answer evidence) are uninterpreted function parameters rather than a JSON grammar.
- The prompt templates and the body of the schema-digest literal are opaque: the prompts are function parameters and the digest text is a constant of the cache.
- Console logging is not modelled, and neither are the React rendering, hooks and JSX of the admin and detail components. `renderPropertyValue` (a JSON.stringify rendering) is among them.
- The displayed lists (`isSearching ? searchResults : nodes`, and the same for relationships) are not modelled: each is a single conditional with nothing further to state.
- The back-off sleeps are logged as their durations, not timed.
- The commented-out Drug, Person and Disease branches of postprocess.ts are not live code and are not modelled.
- `validateConfig` is modelled, but no caller in the core invokes it, so unchecked ceilings (for example a negative `NLQ_MAX_ROWS`) flow into the pipeline as the code allows.
- Numbers are integers. Floating-point and NaN arithmetic appears only as an explicit "not a number" case: `ToNumber` and `Math.min` in the sanitiser.
- `Text.StringToNumber`: `Number(s)` is modelled for every numeral form (decimal with point and exponent, `0x`/`0o`/`0b`), but a numeral whose value is not an integer (`"1.5"`) and `"Infinity"` coerce to NaN rather than to their value. Numerals of magnitude beyond 2^53 keep their exact integer value, and past about 1.8e308 `Number` would give Infinity instead.
- Strings are sequences of Unicode scalar values, not of UTF-16 code units. A character outside the Basic Multilingual Plane (an emoji, say) counts once in the model and twice in JavaScript's `length`, and a lone surrogate cannot be written at all. Every length limit is therefore measured in characters, which agrees with the source only for text inside that plane: the 1000-character ceiling and the short-input warning of `Validators.InputCheck` (a question of 501 emoji is accepted here and refused by the source), the cuts of `Utils.TruncateText`, `AdminList.CutText` and `NodeDetail.FormatValue` (500), and the 50-character content preview of `PostProcess.WithContent`. A cut can also fall between the two halves of a surrogate pair in JavaScript, which the model cannot express. `toLowerCase` lowers ASCII letters only; other letters are kept as they are, which matters only for non-ASCII spellings of the checked keywords. Whitespace (`trim`, `\s`) is the JavaScript set of white-space and line-terminator characters, written out in `Text.IsSpace`.
- Objects are ordered lists of key/value pairs, and lookup takes the first entry with the key. Two JavaScript behaviours are not reproduced:
  - `Object.entries` lists integer-like keys first;
  - lookup on an object with duplicate keys sees the first entry, not the last.
- Keys inherited from `Object.prototype` (such as `constructor`) are not modelled in lookups on object literals:
  - `NodeDetail.Priority` gives 999 to every unlisted key, where the source's comparator would return NaN for such a key;
  - `SchemaDigest.GetEntityFields` gives ["id", "name"] for such a key, where `fieldMap[entityType]` would return the inherited function.
  - `SchemaSimple.VolumeNumber` falls back to `parseInt` and then 1 for such a key, where `volumeMap[volume]` would be the inherited function, which is truthy and would become the `volume` parameter.
- Node and edge ids are compared by value. `nodeIds.has(id)` in postprocess.ts compares object-valued ids by reference, so two distinct objects with equal contents would both be added there; the model adds only the first.
- `PostProcess.TrimIdempotent`: stated only for a non-negative row ceiling. With a negative one, `slice(0, n)` drops elements again on every pass (`PostProcess.TrimNegativeRowsNotIdempotent`).
- `Validators.SanitizeIdempotentIff`: idempotence is stated as an exact condition rather than for all plans, because a non-numeric or zero clamped `maxRows` breaks it (`Validators.SanitizeNotIdempotent`).
- `NodeDetail.FormatValueFacts`: "a string is unchanged when it fits" is stated in one direction only. A 503-character string ending in "..." is also returned unchanged even though it was cut.
- `Utils.TruncateTextLength`: the length bound is stated for `maxLength >= 3`. Below that, `substring(0, maxLength - 3)` clamps to 0 and the result is "...".
