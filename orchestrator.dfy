/** The NLQ orchestration (server/nlq/orchestrator.ts): validate the question,
    plan a query with the LLM (repairing an unusable plan at most once),
    execute it, post-process the result and ask the LLM for an answer.

    The LLM service is the `Endpoint` oracle and the query executor the
    `Executor` oracle; `JSON.parse`, `JSON.stringify` and the prompt templates
    are uninterpreted functions in `Oracles`. Each operation is a method over
    the module-level singletons (config, schema-digest cache, default client)
    and is proved equal to a `...Run` function that gives its outcome and
    every call it makes to the two oracles. */
module Orchestrator {
  import opened Wrappers
  import opened Text
  import opened Js
  import opened Utils
  import opened Validators
  import opened PostProcess
  import opened AppConfig
  import opened Llm
  import opened SchemaDigest

  /** The pure functions the orchestrator uses but does not define. */
  datatype Oracles = Oracles(
    parse: string -> Option<Json>,                // `JSON.parse`; `None` when it throws
    stringify: Json -> string,                    // `JSON.stringify(_, null, 2)`
    planPrompt: (string, string, string) -> string,
    fixPrompt: (string, string, string) -> string,
    answerPrompt: (string, QueryPlan, Value) -> string)

  /** `isValidJson`: `JSON.parse` does not throw. */
  predicate IsValidJson(o: Oracles, text: string) {
    o.parse(text).Some?
  }

  /** The question as the routes pass it on; the context is not read here. */
  datatype NlqRequest = NlqRequest(question: string, mode: string, context: Json)

  datatype Answer = Answer(answer: Json, evidence: Json)

  /** The evidence of a full response: the LLM's own, or the post-processor's. */
  datatype Evidence = LlmEvidence(llmItems: Json) | GraphEvidence(items: seq<EvidenceItem>)

  datatype NlqResponse = NlqResponse(
    plan: QueryPlan, answer: Json, evidence: Evidence, graph: GraphData,
    warnings: Option<seq<string>>, queryResult: Value)

  datatype Stage1Response = Stage1Response(
    plan: QueryPlan, queryResult: Value, graph: GraphData,
    evidence: seq<EvidenceItem>, warnings: Option<seq<string>>)

  /** The outcome of an operation together with what it sent to the LLM
      endpoint, the back-off waits, and the queries it executed. */
  datatype Run<T> = Run(out: Result<T>, sent: seq<ChatRequest>, waits: seq<int>, executed: seq<(Json, Json)>)

  /** Everything an operation depends on: the config `getConfig` loads, the
      schema digest, the two oracles and the pure functions. */
  datatype World = World(
    config: Result<Config>,
    digest: string,
    respond: (nat, ChatRequest) -> Result<LlmResponse>,
    execute: (nat, Json, Json) -> Result<Value>,
    oracles: Oracles)

  const OutputDepth: int := 5
  const StageNodeLimit: int := 80
  const StageEdgeLimit: int := 120
  const InputFailure: string := "输入验证失败: "
  const ExecutionFailure: string := "查询执行失败: "
  const NotJsonReason: string := "返回的不是有效的 JSON"
  const FormatFixedWarning: string := "LLM 返回格式不正确，已自动修复"
  const PlanFixedWarning: string := "查询计划已自动修复"
  const UnfixablePlan: string := "查询计划验证失败且无法修复: "
  const FixNotJson: string := "修复后的查询计划仍然不是有效的 JSON"
  const FixInvalid: string := "修复失败: "
  const Apology: string := "抱歉，在生成答案时遇到了问题。不过我已成功查询到相关数据，请查看下方的证据列表。"
  const NoAnswer: string := "未能生成答案"

  /** The planning client: the plan model, temperature 0.1, 2000 tokens. */
  function PlanOptions(c: Config): LlmOptions {
    LlmOptions(Some(c.llm.baseUrl), Some(c.llm.apiKey), Some(c.llm.planModel), Some(0.1), Some(2000), None)
  }

  /** The answering client: the answer model, temperature 0.3, 4000 tokens. */
  function AnswerOptions(c: Config): LlmOptions {
    LlmOptions(Some(c.llm.baseUrl), Some(c.llm.apiKey), Some(c.llm.answerModel), Some(0.3), Some(4000), None)
  }

  function PlanRequest(w: World, c: Config, question: string, mode: string): ChatRequest {
    RequestOf(SettingsFor(PlanOptions(c), c), MessagesFor(w.oracles.planPrompt(w.digest, question, mode), None))
  }

  function FixRequest(w: World, c: Config, originalPlan: string, error: string, digest: string): ChatRequest {
    RequestOf(SettingsFor(NoOptions, c), MessagesFor(w.oracles.fixPrompt(originalPlan, error, digest), None))
  }

  function AnswerRequest(w: World, c: Config, question: string, plan: QueryPlan, result: Value): ChatRequest {
    RequestOf(SettingsFor(AnswerOptions(c), c), MessagesFor(w.oracles.answerPrompt(question, plan, result), None))
  }

  /** What `generateWithRetry(prompt, undefined, maxRetries)` does, as a run. */
  function RetryRun(respond: (nat, ChatRequest) -> Result<LlmResponse>, base: nat, req: ChatRequest, maxRetries: int): Run<LlmResponse> {
    var n := Attempts(respond, base, req, Budget(maxRetries));
    var r := RetryF(respond, base, req, Budget(maxRetries), None);
    Run(r, Repeat(req, n), RunWaits(r, n, maxRetries), [])
  }

  /** The number of the next LLM call once `sent` followed the first `base` calls. */
  function CallsAfter(base: nat, sent: seq<ChatRequest>): nat {
    base + |sent|
  }

  /** A run that stops with `out`, having made the calls `sent` and waited `waits`. */
  function Stop<T>(out: Result<T>, sent: seq<ChatRequest>, waits: seq<int>): Run<T> {
    Run(out, sent, waits, [])
  }

  // ---------------------------------------------------------------------
  // fixQueryPlan

  /** `fixQueryPlan`: one unretried call of the default client; the repaired
      plan must parse and validate, and is then sanitised. */
  function FixRun(w: World, c: Config, base: nat, originalPlan: string, error: string, digest: string): Run<QueryPlan> {
    var req := FixRequest(w, c, originalPlan, error, digest);
    var response := w.respond(base, req);
    if response.Failure? then Stop(Failure(response.error), [req], [])
    else
      var parsed := w.oracles.parse(ExtractJsonFromText(response.value.content));
      if parsed.None? then Stop(Failure(FixNotJson), [req], [])
      else
        match PlanCheck(parsed, c.nlq.maxRows)
        case Failure(e) => Stop(Failure(e), [req], [])
        case Success(v) =>
          if !v.valid then Stop(Failure(FixInvalid + Join(Messages(v.errors), ", ")), [req], [])
          else Stop(Sanitize(parsed, c.nlq.maxRows), [req], [])
  }

  // ---------------------------------------------------------------------
  // generateQueryPlan

  /** The tail of `generateQueryPlan` once the planning LLM has answered `content`. */
  function PlanFromContent(w: World, c: Config, base: nat, content: string): Run<(QueryPlan, seq<string>)> {
    var parsed := w.oracles.parse(ExtractJsonFromText(content));
    if parsed.None? then
      var fix := FixRun(w, c, base, content, NotJsonReason, w.digest);
      Stop(if fix.out.Success? then Success((fix.out.value, [FormatFixedWarning])) else Failure(fix.out.error), fix.sent, [])
    else
      match PlanCheck(parsed, c.nlq.maxRows)
      case Failure(e) => Stop(Failure(e), [], [])
      case Success(v) =>
        if !v.valid then
          var fix := FixRun(w, c, base, w.oracles.stringify(parsed.value), Join(Messages(v.errors), "; "), w.digest);
          Stop(
            if fix.out.Success? then Success((fix.out.value, [PlanFixedWarning]))
            else Failure(UnfixablePlan + Join(Messages(v.errors), ", ")),
            fix.sent, [])
        else Stop(Success((Sanitize(parsed, c.nlq.maxRows).value, Messages(v.warnings))), [], [])
  }

  /** `generateQueryPlan`: the plan and the planning warnings, or the error it throws. */
  function PlanRun(w: World, base: nat, question: string, mode: string): Run<(QueryPlan, seq<string>)> {
    if w.config.Failure? then Stop(Failure(w.config.error), [], [])
    else PlanWithConfig(w, w.config.value, base, question, mode)
  }

  /** `generateQueryPlan` once `getConfig` has returned `c`: the planning
      call with one retry, then the parse, validation and repair. */
  function PlanWithConfig(w: World, c: Config, base: nat, question: string, mode: string): Run<(QueryPlan, seq<string>)> {
    PlanAfterRetry(w, c, base, RetryRun(w.respond, base, PlanRequest(w, c, question, mode), 1))
  }

  /** `generateQueryPlan` once the planning call has run as `retry`. */
  function PlanAfterRetry(w: World, c: Config, base: nat, retry: Run<LlmResponse>): Run<(QueryPlan, seq<string>)> {
    if retry.out.Failure? then
      Stop(Failure("LLM 调用失败 (" + c.llm.planModel + "): " + retry.out.error), retry.sent, retry.waits)
    else
      var rest := PlanFromContent(w, c, CallsAfter(base, retry.sent), retry.out.value.content);
      Stop(rest.out, retry.sent + rest.sent, retry.waits)
  }

  // ---------------------------------------------------------------------
  // generateAnswer

  /** The answer made of the answering LLM's outcome: the apology when it
      failed, its raw text when that holds no usable JSON (or JSON `null`,
      on which the property access throws and is caught), else the parsed
      `answer` and `evidence` with their defaults. */
  function AnswerOf(o: Oracles, response: Result<LlmResponse>): Answer {
    if response.Failure? then Answer(JStr(Apology), JArr([]))
    else
      var content := response.value.content;
      var parsed := o.parse(ExtractJsonFromText(content));
      if parsed.None? || parsed.value.JNull? then Answer(JStr(content), JArr([]))
      else Answer(Or(Get(parsed, "answer"), Some(JStr(NoAnswer))).value, Or(Get(parsed, "evidence"), Some(JArr([]))).value)
  }

  function AnswerCore(w: World, c: Config, base: nat, question: string, plan: QueryPlan, result: Value): Run<Answer> {
    var retry := RetryRun(w.respond, base, AnswerRequest(w, c, question, plan, result), 1);
    Stop(Success(AnswerOf(w.oracles, retry.out)), retry.sent, retry.waits)
  }

  /** `generateAnswer`: it throws only when `getConfig` does. */
  function AnswerRun(w: World, base: nat, question: string, plan: QueryPlan, result: Value): Run<Answer> {
    if w.config.Failure? then Stop(Failure(w.config.error), [], [])
    else AnswerCore(w, w.config.value, base, question, plan, result)
  }

  // ---------------------------------------------------------------------
  // processNLQ, processNLQStage1, processNLQStage2

  function InputError(v: Validation): string {
    InputFailure + Join(Messages(v.errors), ", ")
  }

  function WarningsOf(warnings: seq<string>): Option<seq<string>> {
    if warnings == [] then None else Some(warnings)
  }

  /** `medicines[0]` for a string, an array or an object. */
  function FirstOf(v: Json): Value {
    match v
    case JArr(items) => if items == [] then None else Some(items[0])
    case JStr(s) => if s == [] then None else Some(JStr([s[0]]))
    case JObj(fields) => Lookup(fields, "0")
    case _ => None
  }

  /** The statistics logging throws on a `null`/`undefined` result, and on a
      `null`/`undefined` first medicine of a non-empty `medicines`. */
  predicate LoggingThrows(result: Value) {
    IsNullish(result)
    || (var medicines := Get(result, "medicines");
        Truthy(medicines) && GreaterThan(LengthOf(medicines), 0) && IsNullish(FirstOf(medicines.value)))
  }

  /** `answer.evidence.length > 0 ? answer.evidence : evidence`. */
  function ChooseEvidence(answer: Answer, evidence: seq<EvidenceItem>): Evidence {
    if GreaterThan(LengthOf(Some(answer.evidence)), 0) then LlmEvidence(answer.evidence) else GraphEvidence(evidence)
  }

  /** `processNLQ` from the query execution on. */
  function ExecuteRun(w: World, c: Config, llmBase: nat, execBase: nat, question: string, plan: QueryPlan, warnings: seq<string>): Run<NlqResponse> {
    var executed := w.execute(execBase, plan.query, plan.variables);
    var calls := [(plan.query, plan.variables)];
    if executed.Failure? then Run(Failure(ExecutionFailure + executed.error), [], [], calls)
    else
      var trimmed := TrimResultF(executed.value, OutputDepth, c.nlq.maxRows);
      if LoggingThrows(executed.value) then Run(Failure(TypeError), [], [], calls)
      else
        var rawGraph := ExtractF(trimmed);
        var evidence := EvidenceF(trimmed);
        if evidence.Failure? then Run(Failure(evidence.error), [], [], calls)
        else
          var answer := AnswerCore(w, c, llmBase, question, plan, trimmed);
          var a := answer.out.value;
          Run(Success(NlqResponse(plan, a.answer, ChooseEvidence(a, evidence.value),
                                  TrimGraph(rawGraph, c.nlq.maxNodes, c.nlq.maxEdges),
                                  WarningsOf(warnings), executed.value)),
              answer.sent, answer.waits, calls)
  }

  /** `processNLQ`. */
  function ProcessRun(w: World, llmBase: nat, execBase: nat, request: NlqRequest): Run<NlqResponse> {
    var input := InputCheck(request.question);
    if !input.valid then Stop(Failure(InputError(input)), [], [])
    else
      var planned := PlanRun(w, llmBase, request.question, request.mode);
      if planned.out.Failure? then Stop(Failure(planned.out.error), planned.sent, planned.waits)
      else
        var rest := ExecuteRun(w, w.config.value, CallsAfter(llmBase, planned.sent), execBase, request.question,
                               planned.out.value.0, Messages(input.warnings) + planned.out.value.1);
        Run(rest.out, planned.sent + rest.sent, planned.waits + rest.waits, rest.executed)
  }

  /** The graph stage 1 returns: trimmed only past 80 nodes or 120 edges. */
  function StageGraph(g: GraphData, c: Config): GraphData {
    if |g.nodes| > StageNodeLimit || |g.edges| > StageEdgeLimit then TrimGraph(g, c.nlq.maxNodes, c.nlq.maxEdges) else g
  }

  /** `processNLQStage1` from the query execution on. */
  function StageExecuteRun(w: World, c: Config, execBase: nat, plan: QueryPlan, warnings: seq<string>): Run<Stage1Response> {
    var executed := w.execute(execBase, plan.query, plan.variables);
    var calls := [(plan.query, plan.variables)];
    if executed.Failure? then Run(Failure(ExecutionFailure + executed.error), [], [], calls)
    else
      var trimmed := TrimResultF(executed.value, OutputDepth, c.nlq.maxRows);
      var graph := ExtractF(trimmed);
      var evidence := EvidenceF(trimmed);
      if evidence.Failure? then Run(Failure(evidence.error), [], [], calls)
      else Run(Success(Stage1Response(plan, executed.value, StageGraph(graph, c), evidence.value, WarningsOf(warnings))), [], [], calls)
  }

  /** `processNLQStage1`. */
  function Stage1Run(w: World, llmBase: nat, execBase: nat, request: NlqRequest): Run<Stage1Response> {
    var input := InputCheck(request.question);
    if !input.valid then Stop(Failure(InputError(input)), [], [])
    else
      var planned := PlanRun(w, llmBase, request.question, request.mode);
      if planned.out.Failure? then Stop(Failure(planned.out.error), planned.sent, planned.waits)
      else
        var rest := StageExecuteRun(w, w.config.value, execBase, planned.out.value.0, Messages(input.warnings) + planned.out.value.1);
        Run(rest.out, planned.sent, planned.waits, rest.executed)
  }

  /** `processNLQStage2`: trim at depth 5, then answer. */
  function Stage2Run(w: World, llmBase: nat, question: string, plan: QueryPlan, queryResult: Value): Run<Answer> {
    if w.config.Failure? then Stop(Failure(w.config.error), [], [])
    else AnswerCore(w, w.config.value, llmBase, question, plan, TrimResultF(queryResult, OutputDepth, w.config.value.nlq.maxRows))
  }

  // ---------------------------------------------------------------------
  // The orchestrator as a program over the singletons

  /** `PlanAfterRetry` after a successful planning call. */
  lemma PlanAfterSuccess(w: World, c: Config, base: nat, retry: Run<LlmResponse>)
    requires retry.out.Success?
    ensures var rest := PlanFromContent(w, c, CallsAfter(base, retry.sent), retry.out.value.content);
      PlanAfterRetry(w, c, base, retry) == Stop(rest.out, retry.sent + rest.sent, retry.waits)
  {
  }

  lemma AppendAssoc<T>(a: seq<T>, b: seq<T>, c: seq<T>)
    ensures (a + b) + c == a + (b + c)
  {
  }

  /** `executeGraphQL`: the n-th execution's outcome is `execute(n, query, variables)`. */
  class Executor {
    const execute: (nat, Json, Json) -> Result<Value>
    var executed: seq<(Json, Json)>

    constructor(execute: (nat, Json, Json) -> Result<Value>)
      ensures this.execute == execute && executed == []
    {
      this.execute := execute;
      executed := [];
    }

    method Execute(query: Json, variables: Json) returns (r: Result<Value>)
      modifies this
      ensures r == execute(|old(executed)|, query, variables)
      ensures executed == old(executed) + [(query, variables)]
    {
      r := execute(|executed|, query, variables);
      executed := executed + [(query, variables)];
    }
  }

  class Pipeline {
    const holder: ConfigHolder
    const cache: DigestCache
    const registry: ClientRegistry
    const endpoint: Endpoint
    const executor: Executor
    const oracles: Oracles

    constructor(holder: ConfigHolder, cache: DigestCache, registry: ClientRegistry, endpoint: Endpoint, executor: Executor, oracles: Oracles)
      ensures this.holder == holder && this.cache == cache && this.registry == registry
      ensures this.endpoint == endpoint && this.executor == executor && this.oracles == oracles
    {
      this.holder := holder;
      this.cache := cache;
      this.registry := registry;
      this.endpoint := endpoint;
      this.executor := executor;
      this.oracles := oracles;
    }

    /** The singletons agree: the default client talks to the same endpoint
        and is built over the config `getConfig` loads. */
    predicate Valid()
      reads this, holder, cache, registry
    {
      holder.Valid() && cache.Valid() && registry.Valid() && registry.endpoint == endpoint
      && (LoadConfig(holder.env).Success? ==> registry.config == LoadConfig(holder.env).value)
    }

    function Current(): World {
      World(LoadConfig(holder.env), cache.text, endpoint.respond, executor.execute, oracles)
    }

    /** `fixQueryPlan`. */
    method FixQueryPlan(originalPlan: string, error: string, schemaDigest: string, ceiling: int) returns (r: Result<QueryPlan>)
      requires Valid() && LoadConfig(holder.env).Success? && ceiling == LoadConfig(holder.env).value.nlq.maxRows
      modifies registry, endpoint
      ensures Valid()
      ensures var run := FixRun(Current(), LoadConfig(holder.env).value, |old(endpoint.sent)|, originalPlan, error, schemaDigest);
        r == run.out && endpoint.sent == old(endpoint.sent) + run.sent && endpoint.waits == old(endpoint.waits)
    {
      var llmClient := registry.GetDefaultLlmClient();
      var prompt := oracles.fixPrompt(originalPlan, error, schemaDigest);
      var response := llmClient.Generate(prompt, None);
      if response.Failure? {
        return Failure(response.error);
      }
      var jsonText := ExtractJsonFromText(response.value.content);
      var fixedPlan := oracles.parse(jsonText);
      if fixedPlan.None? {
        return Failure(FixNotJson);
      }
      var validation := ValidateQueryPlan(fixedPlan, ceiling);
      if validation.Failure? {
        return Failure(validation.error);
      }
      if !validation.value.valid {
        return Failure(FixInvalid + Join(Messages(validation.value.errors), ", "));
      }
      return Sanitize(fixedPlan, ceiling);
    }

    /** The part of `generateQueryPlan` after the planning call answered. */
    method PlanFromResponse(config: Config, ghost base: nat, content: string, schemaDigest: string) returns (r: Result<(QueryPlan, seq<string>)>)
      requires Valid() && LoadConfig(holder.env) == Success(config) && |endpoint.sent| == base
      requires schemaDigest == cache.text
      modifies registry, endpoint
      ensures Valid()
      ensures var run := PlanFromContent(Current(), config, base, content);
        r == run.out && endpoint.sent == old(endpoint.sent) + run.sent && endpoint.waits == old(endpoint.waits)
    {
      var ceiling := config.nlq.maxRows;
      var jsonText := ExtractJsonFromText(content);
      var rawPlan := oracles.parse(jsonText);
      if rawPlan.None? {
        var fixedPlan := FixQueryPlan(content, NotJsonReason, schemaDigest, ceiling);
        if fixedPlan.Failure? {
          return Failure(fixedPlan.error);
        }
        return Success((fixedPlan.value, [FormatFixedWarning]));
      }
      var validation := ValidateQueryPlan(rawPlan, ceiling);
      if validation.Failure? {
        return Failure(validation.error);
      }
      if !validation.value.valid {
        var fixedPlan := FixQueryPlan(oracles.stringify(rawPlan.value), Join(Messages(validation.value.errors), "; "), schemaDigest, ceiling);
        if fixedPlan.Failure? {
          return Failure(UnfixablePlan + Join(Messages(validation.value.errors), ", "));
        }
        return Success((fixedPlan.value, [PlanFixedWarning]));
      }
      var warnings := Messages(validation.value.warnings);
      var plan := Sanitize(rawPlan, ceiling);
      return Success((plan.value, warnings));
    }

    /** `generateQueryPlan`. */
    method GenerateQueryPlan(question: string, mode: string) returns (r: Result<(QueryPlan, seq<string>)>)
      requires Valid()
      modifies holder, cache, registry, endpoint
      ensures Valid()
      ensures r.Success? ==> LoadConfig(holder.env).Success?
      ensures var run := PlanRun(Current(), |old(endpoint.sent)|, question, mode);
        r == run.out && endpoint.sent == old(endpoint.sent) + run.sent && endpoint.waits == old(endpoint.waits) + run.waits
    {
      var config := holder.GetConfig();
      if config.Failure? {
        return Failure(config.error);
      }
      r := PlanWith(config.value, question, mode);
    }

    /** The body of `generateQueryPlan` after `getConfig`. */
    method PlanWith(config: Config, question: string, mode: string) returns (r: Result<(QueryPlan, seq<string>)>)
      requires Valid() && LoadConfig(holder.env) == Success(config)
      modifies cache, registry, endpoint
      ensures Valid()
      ensures var run := PlanWithConfig(Current(), config, |old(endpoint.sent)|, question, mode);
        r == run.out && endpoint.sent == old(endpoint.sent) + run.sent && endpoint.waits == old(endpoint.waits) + run.waits
    {
      var planLlm := new LlmClient(PlanOptions(config), config, endpoint);
      var schemaDigest := cache.GetSchemaDigest();
      var prompt := oracles.planPrompt(schemaDigest, question, mode);
      ghost var req := RequestOf(planLlm.Current(), MessagesFor(prompt, None));
      assert req == PlanRequest(Current(), config, question, mode);
      var response := planLlm.GenerateWithRetry(prompt, None, 1);
      ghost var retry := RetryRun(endpoint.respond, |old(endpoint.sent)|, req, 1);
      assert response == retry.out && endpoint.waits == old(endpoint.waits) + retry.waits;
      assert PlanWithConfig(Current(), config, |old(endpoint.sent)|, question, mode) == PlanAfterRetry(Current(), config, |old(endpoint.sent)|, retry);
      r := PlanAfter(config, old(endpoint.sent), retry, response, schemaDigest);
    }

    /** `generateQueryPlan` once the planning call answered `response`. */
    method PlanAfter(config: Config, ghost before: seq<ChatRequest>, ghost retry: Run<LlmResponse>, response: Result<LlmResponse>, schemaDigest: string)
      returns (r: Result<(QueryPlan, seq<string>)>)
      requires Valid() && LoadConfig(holder.env) == Success(config) && schemaDigest == cache.text
      requires response == retry.out && endpoint.sent == before + retry.sent
      modifies registry, endpoint
      ensures Valid()
      ensures var run := PlanAfterRetry(Current(), config, |before|, retry);
        r == run.out && endpoint.sent == before + run.sent && endpoint.waits == old(endpoint.waits)
    {
      if response.Failure? {
        return Failure("LLM 调用失败 (" + config.llm.planModel + "): " + response.error);
      }
      PlanAfterSuccess(Current(), config, |before|, retry);
      r := PlanFromResponse(config, CallsAfter(|before|, retry.sent), response.value.content, schemaDigest);
      AppendAssoc(before, retry.sent, PlanFromContent(Current(), config, CallsAfter(|before|, retry.sent), response.value.content).sent);
    }

    /** `generateAnswer`. */
    method GenerateAnswer(question: string, plan: QueryPlan, queryResult: Value) returns (r: Result<Answer>)
      requires Valid()
      modifies holder, endpoint
      ensures Valid()
      ensures LoadConfig(holder.env).Success? ==> r.Success?
      ensures var run := AnswerRun(Current(), |old(endpoint.sent)|, question, plan, queryResult);
        r == run.out && endpoint.sent == old(endpoint.sent) + run.sent && endpoint.waits == old(endpoint.waits) + run.waits
    {
      var config := holder.GetConfig();
      if config.Failure? {
        return Failure(config.error);
      }
      var answerLlm := new LlmClient(AnswerOptions(config.value), config.value, endpoint);
      var prompt := oracles.answerPrompt(question, plan, queryResult);
      var response := answerLlm.GenerateWithRetry(prompt, None, 1);
      if response.Failure? {
        return Success(Answer(JStr(Apology), JArr([])));
      }
      var jsonText := ExtractJsonFromText(response.value.content);
      var parsed := oracles.parse(jsonText);
      if parsed.None? {
        return Success(Answer(JStr(response.value.content), JArr([])));
      }
      if parsed.value.JNull? {
        return Success(Answer(JStr(response.value.content), JArr([])));
      }
      return Success(Answer(Or(Get(parsed, "answer"), Some(JStr(NoAnswer))).value,
                            Or(Get(parsed, "evidence"), Some(JArr([]))).value));
    }

    /** `processNLQ` from the query execution on. */
    method ExecuteAndAnswer(question: string, plan: QueryPlan, warnings: seq<string>, ghost llmBase: nat, ghost execBase: nat)
      returns (r: Result<NlqResponse>)
      requires Valid() && LoadConfig(holder.env).Success?
      requires |endpoint.sent| == llmBase && |executor.executed| == execBase
      modifies holder, endpoint, executor
      ensures Valid()
      ensures var run := ExecuteRun(Current(), LoadConfig(holder.env).value, llmBase, execBase, question, plan, warnings);
        && r == run.out && endpoint.sent == old(endpoint.sent) + run.sent && endpoint.waits == old(endpoint.waits) + run.waits
        && executor.executed == old(executor.executed) + run.executed
    {
      var config := holder.GetConfig();
      var queryResult := executor.Execute(plan.query, plan.variables);
      if queryResult.Failure? {
        return Failure(ExecutionFailure + queryResult.error);
      }
      var trimmedResult := TrimQueryResult(queryResult.value, OutputDepth, config.value.nlq.maxRows);
      if LoggingThrows(queryResult.value) {
        return Failure(TypeError);
      }
      var rawGraph := ExtractGraphFromResult(trimmedResult);
      var graph := TrimGraph(rawGraph, config.value.nlq.maxNodes, config.value.nlq.maxEdges);
      var evidence := GenerateEvidence(trimmedResult, rawGraph);
      if evidence.Failure? {
        return Failure(evidence.error);
      }
      var answer := GenerateAnswer(question, plan, trimmedResult);
      return Success(NlqResponse(plan, answer.value.answer, ChooseEvidence(answer.value, evidence.value), graph,
                                 WarningsOf(warnings), queryResult.value));
    }

    /** `processNLQ`. */
    method ProcessNlq(request: NlqRequest) returns (r: Result<NlqResponse>)
      requires Valid()
      modifies holder, cache, registry, endpoint, executor
      ensures Valid()
      ensures var run := ProcessRun(Current(), |old(endpoint.sent)|, |old(executor.executed)|, request);
        && r == run.out && endpoint.sent == old(endpoint.sent) + run.sent && endpoint.waits == old(endpoint.waits) + run.waits
        && executor.executed == old(executor.executed) + run.executed
    {
      var inputValidation := ValidateUserInput(request.question);
      if !inputValidation.valid {
        return Failure(InputError(inputValidation));
      }
      var warnings := Messages(inputValidation.warnings);
      ghost var w := Current();
      ghost var base := |endpoint.sent|;
      var planned := GenerateQueryPlan(request.question, request.mode);
      ghost var planRun := PlanRun(w, base, request.question, request.mode);
      if planned.Failure? {
        return Failure(planned.error);
      }
      warnings := warnings + planned.value.1;
      ghost var llmBase := CallsAfter(base, planRun.sent);
      ghost var execBase := |old(executor.executed)|;
      ghost var rest := ExecuteRun(w, w.config.value, llmBase, execBase, request.question, planned.value.0, warnings);
      assert ProcessRun(w, base, execBase, request) == Run(rest.out, planRun.sent + rest.sent, planRun.waits + rest.waits, rest.executed);
      r := ExecuteAndAnswer(request.question, planned.value.0, warnings, llmBase, execBase);
      AppendAssoc(old(endpoint.sent), planRun.sent, rest.sent);
      AppendAssoc(old(endpoint.waits), planRun.waits, rest.waits);
    }

    /** `processNLQStage1`. */
    method ProcessNlqStage1(request: NlqRequest) returns (r: Result<Stage1Response>)
      requires Valid()
      modifies holder, cache, registry, endpoint, executor
      ensures Valid()
      ensures var run := Stage1Run(Current(), |old(endpoint.sent)|, |old(executor.executed)|, request);
        && r == run.out && endpoint.sent == old(endpoint.sent) + run.sent && endpoint.waits == old(endpoint.waits) + run.waits
        && executor.executed == old(executor.executed) + run.executed
    {
      var inputValidation := ValidateUserInput(request.question);
      if !inputValidation.valid {
        return Failure(InputError(inputValidation));
      }
      var warnings := Messages(inputValidation.warnings);
      ghost var w := Current();
      ghost var base := |endpoint.sent|;
      ghost var execBase := |executor.executed|;
      var planned := GenerateQueryPlan(request.question, request.mode);
      ghost var planRun := PlanRun(w, base, request.question, request.mode);
      if planned.Failure? {
        return Failure(planned.error);
      }
      warnings := warnings + planned.value.1;
      ghost var rest := StageExecuteRun(w, w.config.value, execBase, planned.value.0, warnings);
      assert Stage1Run(w, base, execBase, request) == Run(rest.out, planRun.sent, planRun.waits, rest.executed);
      r := ExecuteStage1(planned.value.0, warnings, execBase);
    }

    /** `processNLQStage1` from the query execution on. */
    method ExecuteStage1(plan: QueryPlan, warnings: seq<string>, ghost execBase: nat) returns (r: Result<Stage1Response>)
      requires Valid() && LoadConfig(holder.env).Success? && |executor.executed| == execBase
      modifies holder, executor
      ensures Valid()
      ensures var run := StageExecuteRun(Current(), LoadConfig(holder.env).value, execBase, plan, warnings);
        r == run.out && executor.executed == old(executor.executed) + run.executed
    {
      var config := holder.GetConfig();
      var queryResult := executor.Execute(plan.query, plan.variables);
      if queryResult.Failure? {
        return Failure(ExecutionFailure + queryResult.error);
      }
      var trimmedResult := TrimQueryResult(queryResult.value, OutputDepth, config.value.nlq.maxRows);
      var graph := ExtractGraphFromResult(trimmedResult);
      var evidence := GenerateEvidence(trimmedResult, graph);
      if evidence.Failure? {
        return Failure(evidence.error);
      }
      if |graph.nodes| > StageNodeLimit || |graph.edges| > StageEdgeLimit {
        graph := TrimGraph(graph, config.value.nlq.maxNodes, config.value.nlq.maxEdges);
      }
      return Success(Stage1Response(plan, queryResult.value, graph, evidence.value, WarningsOf(warnings)));
    }

    /** `processNLQStage2`. */
    method ProcessNlqStage2(question: string, plan: QueryPlan, queryResult: Value) returns (r: Result<Answer>)
      requires Valid()
      modifies holder, endpoint
      ensures Valid()
      ensures var run := Stage2Run(Current(), |old(endpoint.sent)|, question, plan, queryResult);
        r == run.out && endpoint.sent == old(endpoint.sent) + run.sent && endpoint.waits == old(endpoint.waits) + run.waits
    {
      var config := holder.GetConfig();
      if config.Failure? {
        return Failure(config.error);
      }
      var trimmedResult := TrimQueryResult(queryResult, OutputDepth, config.value.nlq.maxRows);
      r := GenerateAnswer(question, plan, trimmedResult);
    }
  }
}
