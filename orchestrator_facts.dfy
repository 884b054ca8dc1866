/** What the orchestration promises, proved of the `...Run` functions that
    the orchestrator's methods are proved equal to: the planner calls the LLM
    at most twice and repairs at most once, every plan it returns was accepted
    by the validator and normalised, invalid input makes no call at all, the
    query runs at most once, and the answer step never fails. */
module OrchestratorFacts {
  import opened Wrappers
  import opened Text
  import opened Js
  import opened Utils
  import opened Validators
  import opened PostProcess
  import opened AppConfig
  import opened Llm
  import opened Orchestrator

  /** `plan` is what `sanitizeQueryPlan` makes of a plan `validateQueryPlan` accepted. */
  ghost predicate SanitizedAcceptable(plan: QueryPlan, ceiling: int) {
    exists raw :: AcceptablePlan(raw, ceiling) && Sanitize(raw, ceiling) == Success(plan)
  }

  /** Such a plan has the GraphQL language, a known intent, a non-empty string
      query (so `plan.query.substring(0, 200)` cannot throw) that is no
      mutation and starts with `query`, and a row count within the ceiling. */
  lemma SanitizedAcceptableFields(plan: QueryPlan, ceiling: int)
    requires SanitizedAcceptable(plan, ceiling)
    ensures plan.queryLanguage == "graphql" && IsIntent(Some(plan.intent))
    ensures plan.query.JStr? && plan.query.s != ""
    ensures !Contains(ToLower(plan.query.s), "mutation") && StartsWith(Text.Trim(ToLower(plan.query.s)), "query")
    ensures plan.maxRows.Some? && plan.maxRows.value <= ceiling
  {
    var raw :| AcceptablePlan(raw, ceiling) && Sanitize(raw, ceiling) == Success(plan);
    SanitizedPlanRevalidates(raw, ceiling);
    SanitizeFields(raw, ceiling);
    PlanToJsonFields(plan);
  }

  /** `fixQueryPlan` makes exactly one call, the unretried repair request, and
      returns only a sanitised plan that passed validation. */
  lemma FixRunFacts(w: World, c: Config, base: nat, originalPlan: string, error: string, digest: string)
    ensures var run := FixRun(w, c, base, originalPlan, error, digest);
      && run.sent == [FixRequest(w, c, originalPlan, error, digest)] && run.waits == [] && run.executed == []
      && (run.out.Success? ==> SanitizedAcceptable(run.out.value, c.nlq.maxRows))
  {
    var run := FixRun(w, c, base, originalPlan, error, digest);
    var response := w.respond(base, FixRequest(w, c, originalPlan, error, digest));
    if run.out.Success? {
      var parsed := w.oracles.parse(ExtractJsonFromText(response.value.content));
      PlanValidIff(parsed, c.nlq.maxRows);
      assert AcceptablePlan(parsed, c.nlq.maxRows) && Sanitize(parsed, c.nlq.maxRows) == Success(run.out.value);
    }
  }

  /** After the planning call answered: at most one further call, a repair
      request, no wait, and a returned plan that is sanitised and accepted. */
  lemma PlanFromContentFacts(w: World, c: Config, base: nat, content: string)
    ensures var run := PlanFromContent(w, c, base, content);
      && |run.sent| <= 1 && run.waits == [] && run.executed == []
      && (run.sent != [] ==> exists p, e :: run.sent == [FixRequest(w, c, p, e, w.digest)])
      && (run.out.Success? ==> SanitizedAcceptable(run.out.value.0, c.nlq.maxRows))
  {
    var run := PlanFromContent(w, c, base, content);
    var parsed := w.oracles.parse(ExtractJsonFromText(content));
    if parsed.None? {
      FixRunFacts(w, c, base, content, NotJsonReason, w.digest);
    } else if PlanCheck(parsed, c.nlq.maxRows).Success? {
      var v := PlanCheck(parsed, c.nlq.maxRows).value;
      if !v.valid {
        FixRunFacts(w, c, base, w.oracles.stringify(parsed.value), Join(Messages(v.errors), "; "), w.digest);
      } else {
        PlanValidIff(parsed, c.nlq.maxRows);
        assert AcceptablePlan(parsed, c.nlq.maxRows) && Sanitize(parsed, c.nlq.maxRows) == Success(run.out.value.0);
      }
    }
  }

  /** `generateQueryPlan`: without a config nothing is sent; otherwise the
      planning request goes out once or twice (one retry), followed by at
      most one repair request; there is at most the one 1000 ms back-off;
      and a returned plan was accepted by the validator and sanitised. */
  lemma PlanRunFacts(w: World, base: nat, question: string, mode: string)
    ensures var run := PlanRun(w, base, question, mode);
      && (w.config.Failure? ==> run.out == Failure(w.config.error) && run.sent == [] && run.waits == [])
      && (w.config.Success? ==>
            exists n: nat, fix: seq<ChatRequest> :: 1 <= n <= 2 && |fix| <= 1
              && run.sent == Repeat(PlanRequest(w, w.config.value, question, mode), n) + fix)
      && |run.sent| <= 3
      && (run.waits == [] || run.waits == [1000])
      && run.executed == []
      && (run.out.Success? ==> w.config.Success? && SanitizedAcceptable(run.out.value.0, w.config.value.nlq.maxRows))
  {
    var run := PlanRun(w, base, question, mode);
    if w.config.Success? {
      var c := w.config.value;
      var req := PlanRequest(w, c, question, mode);
      var retry := RetryRun(w.respond, base, req, 1);
      var n := Attempts(w.respond, base, req, Budget(1));
      assert 1 <= n <= 2;
      assert |retry.waits| <= 1;
      assert retry.waits == [] || retry.waits == [1000];
      assert run == PlanAfterRetry(w, c, base, retry);
      if retry.out.Failure? {
        assert run.sent == Repeat(req, n) + [];
      } else {
        PlanAfterSuccess(w, c, base, retry);
        var rest := PlanFromContent(w, c, CallsAfter(base, retry.sent), retry.out.value.content);
        PlanFromContentFacts(w, c, CallsAfter(base, retry.sent), retry.out.value.content);
        assert run.sent == Repeat(req, n) + rest.sent;
      }
    }
  }

  /** `generateAnswer`'s result is never `null` or `undefined` in either field
      (so reading `answer.answer.length` and `answer.evidence.length` cannot
      throw): the apology after a failed call, the raw text when no usable JSON
      came back, else the parsed fields with their truthy defaults. */
  lemma AnswerOfFacts(o: Oracles, response: Result<LlmResponse>)
    ensures var a := AnswerOf(o, response);
      && !IsNullish(Some(a.answer)) && !IsNullish(Some(a.evidence))
      && (response.Failure? ==> a == Answer(JStr(Apology), JArr([])))
      && (response.Success? ==> a.answer == JStr(response.value.content) || Truthy(Some(a.answer)))
      && (a.evidence == JArr([]) || Truthy(Some(a.evidence)))
  {
    if response.Success? {
      var parsed := o.parse(ExtractJsonFromText(response.value.content));
      if !(parsed.None? || parsed.value.JNull?) {
        OrTruthy(Get(parsed, "answer"), Some(JStr(NoAnswer)));
        OrTruthy(Get(parsed, "evidence"), Some(JArr([])));
      }
    }
  }

  /** `a || b` with a truthy `b` is truthy. */
  lemma OrTruthy(a: Value, b: Value)
    requires Truthy(b)
    ensures Truthy(Or(a, b)) && Or(a, b).Some?
  {
  }

  /** The answer step never fails once the config loads: it sends the answer
      request once or twice, waits at most once, executes nothing. */
  lemma AnswerCoreFacts(w: World, c: Config, base: nat, question: string, plan: QueryPlan, result: Value)
    ensures var run := AnswerCore(w, c, base, question, plan, result);
      && run.out.Success?
      && (exists n: nat :: 1 <= n <= 2 && run.sent == Repeat(AnswerRequest(w, c, question, plan, result), n))
      && (run.waits == [] || run.waits == [1000])
      && run.executed == []
  {
    var req := AnswerRequest(w, c, question, plan, result);
    var n := Attempts(w.respond, base, req, Budget(1));
    assert 1 <= n <= 2;
    var retry := RetryRun(w.respond, base, req, 1);
    assert |retry.waits| <= 1;
  }

  /** `processNLQStage2` throws only when `getConfig` does and never runs a query. */
  lemma Stage2Facts(w: World, llmBase: nat, question: string, plan: QueryPlan, queryResult: Value)
    ensures var run := Stage2Run(w, llmBase, question, plan, queryResult);
      && (run.out.Success? <==> w.config.Success?)
      && run.executed == [] && |run.sent| <= 2
  {
    if w.config.Success? {
      AnswerCoreFacts(w, w.config.value, llmBase, question, plan, TrimResultF(queryResult, OutputDepth, w.config.value.nlq.maxRows));
    }
  }

  /** Input that `validateUserInput` rejects stops both pipelines before any
      LLM call or query execution. */
  lemma InvalidInputStopsEarly(w: World, llmBase: nat, execBase: nat, request: NlqRequest)
    requires !InputCheck(request.question).valid
    ensures var run := ProcessRun(w, llmBase, execBase, request);
      run.out == Failure(InputError(InputCheck(request.question))) && run.sent == [] && run.waits == [] && run.executed == []
    ensures var run := Stage1Run(w, llmBase, execBase, request);
      run.out == Failure(InputError(InputCheck(request.question))) && run.sent == [] && run.waits == [] && run.executed == []
  {
  }

  /** `processNLQ` from the execution on: the query runs exactly once and is
      not retried, at most two answering calls follow, and an execution
      failure is reported with its prefix before any answer is asked for. */
  lemma ExecuteCalls(w: World, c: Config, llmBase: nat, execBase: nat, question: string, plan: QueryPlan, warnings: seq<string>)
    ensures var run := ExecuteRun(w, c, llmBase, execBase, question, plan, warnings);
      var executed := w.execute(execBase, plan.query, plan.variables);
      && run.executed == [(plan.query, plan.variables)]
      && |run.sent| <= 2
      && (executed.Failure? ==> run.out == Failure(ExecutionFailure + executed.error) && run.sent == [])
  {
    var executed := w.execute(execBase, plan.query, plan.variables);
    if executed.Success? {
      AnswerCoreFacts(w, c, llmBase, question, plan, TrimResultF(executed.value, OutputDepth, c.nlq.maxRows));
    }
  }

  /** A `processNLQ` response carries the plan, the untrimmed result, the
      warnings when there are any (else none), a well-formed graph within
      the node and edge ceilings, the answer the LLM gave on the trimmed
      result, and as evidence the LLM's own when its `length` is positive,
      else what `generateEvidence` made of the trimmed result. */
  lemma ExecuteResponseFacts(w: World, c: Config, llmBase: nat, execBase: nat, question: string, plan: QueryPlan, warnings: seq<string>)
    ensures var run := ExecuteRun(w, c, llmBase, execBase, question, plan, warnings);
      var executed := w.execute(execBase, plan.query, plan.variables);
      run.out.Success? ==>
        && executed.Success? && run.out.value.queryResult == executed.value && run.out.value.plan == plan
        && (run.out.value.warnings.None? <==> warnings == [])
        && (run.out.value.warnings.Some? ==> run.out.value.warnings.value == warnings)
        && WellFormed(run.out.value.graph)
        && (0 <= c.nlq.maxNodes ==> |run.out.value.graph.nodes| <= c.nlq.maxNodes)
        && (0 <= c.nlq.maxEdges ==> |run.out.value.graph.edges| <= c.nlq.maxEdges)
        && var trimmed := TrimResultF(executed.value, OutputDepth, c.nlq.maxRows);
           var a := AnswerCore(w, c, llmBase, question, plan, trimmed).out.value;
           && EvidenceF(trimmed).Success?
           && run.out.value.answer == a.answer
           && (GreaterThan(LengthOf(Some(a.evidence)), 0) ==> run.out.value.evidence == LlmEvidence(a.evidence))
           && (!GreaterThan(LengthOf(Some(a.evidence)), 0) ==> run.out.value.evidence == GraphEvidence(EvidenceF(trimmed).value))
           && (a.evidence.JArr? ==> (run.out.value.evidence.LlmEvidence? <==> a.evidence.items != []))
  {
    var run := ExecuteRun(w, c, llmBase, execBase, question, plan, warnings);
    var executed := w.execute(execBase, plan.query, plan.variables);
    if run.out.Success? {
      var trimmed := TrimResultF(executed.value, OutputDepth, c.nlq.maxRows);
      var a := AnswerCore(w, c, llmBase, question, plan, trimmed).out.value;
      var graph := TrimGraph(ExtractF(trimmed), c.nlq.maxNodes, c.nlq.maxEdges);
      assert run.out.value == NlqResponse(plan, a.answer, ChooseEvidence(a, EvidenceF(trimmed).value), graph,
                                          WarningsOf(warnings), executed.value);
      ExtractWellFormed(trimmed);
      TrimGraphWellFormed(ExtractF(trimmed), c.nlq.maxNodes, c.nlq.maxEdges);
      TrimGraphFacts(ExtractF(trimmed), c.nlq.maxNodes, c.nlq.maxEdges);
    }
  }

  /** `processNLQ` makes at most five LLM calls (two planning attempts, one
      repair, two answering attempts) and at most one query execution. */
  lemma ProcessCallBounds(w: World, llmBase: nat, execBase: nat, request: NlqRequest)
    ensures var run := ProcessRun(w, llmBase, execBase, request);
      |run.sent| <= 5 && |run.executed| <= 1
  {
    var input := InputCheck(request.question);
    if input.valid {
      var planned := PlanRun(w, llmBase, request.question, request.mode);
      PlanRunFacts(w, llmBase, request.question, request.mode);
      if planned.out.Success? {
        var warnings := Messages(input.warnings) + planned.out.value.1;
        ExecuteCalls(w, w.config.value, CallsAfter(llmBase, planned.sent), execBase, request.question, planned.out.value.0, warnings);
      }
    }
  }

  /** A `processNLQ` response exists only for valid input and a loaded config;
      its plan is the planning run's, accepted and sanitised, and that plan's
      query is the one query executed; its warnings are the input warnings
      followed by the plan warnings (none when both are empty); its evidence
      is the answering LLM's when that has a positive `length`, else what
      `generateEvidence` made of the trimmed result. */
  lemma ProcessResponseFacts(w: World, llmBase: nat, execBase: nat, request: NlqRequest)
    ensures var run := ProcessRun(w, llmBase, execBase, request);
      run.out.Success? ==>
        && InputCheck(request.question).valid && w.config.Success?
        && SanitizedAcceptable(run.out.value.plan, w.config.value.nlq.maxRows)
        && run.executed == [(run.out.value.plan.query, run.out.value.plan.variables)]
        && var planned := PlanRun(w, llmBase, request.question, request.mode);
           && planned.out.Success?
           && run.out.value.plan == planned.out.value.0
           && run.out.value.warnings == WarningsOf(Messages(InputCheck(request.question).warnings) + planned.out.value.1)
           && var c := w.config.value;
              var trimmed := TrimResultF(run.out.value.queryResult, OutputDepth, c.nlq.maxRows);
              var a := AnswerCore(w, c, CallsAfter(llmBase, planned.sent), request.question, run.out.value.plan, trimmed).out.value;
              && EvidenceF(trimmed).Success?
              && (GreaterThan(LengthOf(Some(a.evidence)), 0) ==> run.out.value.evidence == LlmEvidence(a.evidence))
              && (!GreaterThan(LengthOf(Some(a.evidence)), 0) ==> run.out.value.evidence == GraphEvidence(EvidenceF(trimmed).value))
  {
    var input := InputCheck(request.question);
    if input.valid {
      var planned := PlanRun(w, llmBase, request.question, request.mode);
      PlanRunFacts(w, llmBase, request.question, request.mode);
      if planned.out.Success? {
        var warnings := Messages(input.warnings) + planned.out.value.1;
        ExecuteCalls(w, w.config.value, CallsAfter(llmBase, planned.sent), execBase, request.question, planned.out.value.0, warnings);
        ExecuteResponseFacts(w, w.config.value, CallsAfter(llmBase, planned.sent), execBase, request.question, planned.out.value.0, warnings);
      }
    }
  }

  /** `processNLQStage1` asks for no answer: its only LLM calls are the
      planning run's. */
  lemma Stage1SendsOnlyPlanning(w: World, llmBase: nat, execBase: nat, request: NlqRequest)
    ensures var run := Stage1Run(w, llmBase, execBase, request);
      run.sent == (if InputCheck(request.question).valid then PlanRun(w, llmBase, request.question, request.mode).sent else [])
  {
  }

  /** Stage 1 from the execution on runs the plan's query once and calls no LLM. */
  lemma StageExecuteCalls(w: World, c: Config, execBase: nat, plan: QueryPlan, warnings: seq<string>)
    ensures var run := StageExecuteRun(w, c, execBase, plan, warnings);
      run.sent == [] && run.waits == [] && run.executed == [(plan.query, plan.variables)]
  {
  }

  /** Stage 1 from the execution on returns the plan, the untrimmed result,
      the warnings when there are any (else none), and as evidence what
      `generateEvidence` made of the trimmed result. */
  lemma StageExecuteResponse(w: World, c: Config, execBase: nat, plan: QueryPlan, warnings: seq<string>)
    ensures var run := StageExecuteRun(w, c, execBase, plan, warnings);
      run.out.Success? ==>
        && run.out.value.plan == plan && Success(run.out.value.queryResult) == w.execute(execBase, plan.query, plan.variables)
        && (run.out.value.warnings.None? <==> warnings == [])
        && (run.out.value.warnings.Some? ==> run.out.value.warnings.value == warnings)
        && var trimmed := TrimResultF(run.out.value.queryResult, OutputDepth, c.nlq.maxRows);
           Success(run.out.value.evidence) == EvidenceF(trimmed)
  {
  }

  /** `processNLQStage1` makes at most three LLM calls and executes at most one query. */
  lemma Stage1CallBounds(w: World, llmBase: nat, execBase: nat, request: NlqRequest)
    ensures var run := Stage1Run(w, llmBase, execBase, request);
      |run.sent| <= 3 && |run.executed| <= 1
  {
    Stage1SendsOnlyPlanning(w, llmBase, execBase, request);
    if InputCheck(request.question).valid {
      var planned := PlanRun(w, llmBase, request.question, request.mode);
      PlanRunFacts(w, llmBase, request.question, request.mode);
      if planned.out.Success? {
        var warnings := Messages(InputCheck(request.question).warnings) + planned.out.value.1;
        StageExecuteCalls(w, w.config.value, execBase, planned.out.value.0, warnings);
      }
    }
  }

  /** A stage-1 response exists only for valid input and a loaded config; its
      plan is the planning run's, accepted and sanitised; its `queryResult` is
      the untrimmed outcome of executing that plan; its warnings are the input
      warnings followed by the plan warnings (none when both are empty); its
      evidence is what `generateEvidence` made of the trimmed result. */
  lemma Stage1ResponseFacts(w: World, llmBase: nat, execBase: nat, request: NlqRequest)
    ensures var run := Stage1Run(w, llmBase, execBase, request);
      run.out.Success? ==>
        && w.config.Success? && InputCheck(request.question).valid
        && SanitizedAcceptable(run.out.value.plan, w.config.value.nlq.maxRows)
        && Success(run.out.value.queryResult) == w.execute(execBase, run.out.value.plan.query, run.out.value.plan.variables)
        && var planned := PlanRun(w, llmBase, request.question, request.mode);
           && planned.out.Success?
           && run.out.value.plan == planned.out.value.0
           && run.out.value.warnings == WarningsOf(Messages(InputCheck(request.question).warnings) + planned.out.value.1)
           && Success(run.out.value.evidence) == EvidenceF(TrimResultF(run.out.value.queryResult, OutputDepth, w.config.value.nlq.maxRows))
  {
    if InputCheck(request.question).valid {
      var planned := PlanRun(w, llmBase, request.question, request.mode);
      PlanRunFacts(w, llmBase, request.question, request.mode);
      if planned.out.Success? {
        var warnings := Messages(InputCheck(request.question).warnings) + planned.out.value.1;
        StageExecuteResponse(w, w.config.value, execBase, planned.out.value.0, warnings);
      }
    }
  }

  /** The stage-1 graph is well formed and trimmed only past 80 nodes or 120
      edges: a smaller extracted graph is returned whole. */
  lemma Stage1GraphFacts(w: World, llmBase: nat, execBase: nat, request: NlqRequest)
    ensures var run := Stage1Run(w, llmBase, execBase, request);
      run.out.Success? ==>
        var c := w.config.value;
        var raw := ExtractF(TrimResultF(run.out.value.queryResult, OutputDepth, c.nlq.maxRows));
        && WellFormed(run.out.value.graph)
        && (|raw.nodes| <= StageNodeLimit && |raw.edges| <= StageEdgeLimit ==> run.out.value.graph == raw)
        && (|raw.nodes| > StageNodeLimit || |raw.edges| > StageEdgeLimit ==>
              run.out.value.graph == TrimGraph(raw, c.nlq.maxNodes, c.nlq.maxEdges))
  {
    var run := Stage1Run(w, llmBase, execBase, request);
    if run.out.Success? {
      var c := w.config.value;
      var raw := ExtractF(TrimResultF(run.out.value.queryResult, OutputDepth, c.nlq.maxRows));
      ExtractWellFormed(TrimResultF(run.out.value.queryResult, OutputDepth, c.nlq.maxRows));
      TrimGraphWellFormed(raw, c.nlq.maxNodes, c.nlq.maxEdges);
    }
  }
}
