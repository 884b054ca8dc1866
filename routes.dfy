/** The two HTTP entry points (app/api/nlq/route.ts and
    app/api/nlq-staged/route.ts) as the decision each makes: reject the body
    with 400, answer with the orchestrator's result, or turn whatever was
    thrown into the 500 envelope. The orchestrator stages are parameters; the
    parsed body is `Success(json)`, or the error `request.json()` threw. */
module Routes {
  import opened Wrappers
  import opened Text
  import opened Js
  import opened Validators
  import opened Orchestrator

  const QuestionMissing: string := "缺少 question 字段或格式不正确"
  const ModeInvalid: string := "mode 必须是 'qa' 或 'browse'"
  const Stage2Missing: string := "阶段 2 需要 question, plan, queryResult 字段"
  const StageInvalid: string := "stage 参数必须是 '1' 或 '2'"
  const ProcessingFailed: string := "查询处理失败"
  const UnknownError: string := "未知错误"

  /** What a handler sends: a success payload, a 400 with its error text, or
      the 500 envelope `{error, message, details}`. */
  datatype Reply<T> =
    | Ok(payload: T)
    | BadRequest(error: string)
    | ServerError(error: string, message: string, details: Option<string>)

  function Status<T>(r: Reply<T>): int {
    match r
    case Ok(_) => 200
    case BadRequest(_) => 400
    case ServerError(_, _, _) => 500
  }

  /** The `catch` block: `message` is `error.message || "未知错误"`, and the
      stack is exposed only when `NODE_ENV` is "development". */
  function Envelope<T>(message: string, development: bool, stack: string): Reply<T> {
    ServerError(ProcessingFailed, if message == "" then UnknownError else message, if development then Some(stack) else None)
  }

  /** The outcome of the body checks shared by `/api/nlq` and stage 1. */
  datatype Gate = Pass(request: NlqRequest) | Reject(error: string) | Throw(error: string)

  /** `!body.question || typeof body.question !== "string"`, then
      `!body.mode || !["qa", "browse"].includes(body.mode)`, then the request
      with the trimmed question and `body.context || {}`. A `null` body makes
      the first property access throw. */
  function CheckBody(body: Json): Gate {
    if body.JNull? then Throw(TypeError)
    else
      var question := Get(Some(body), "question");
      var mode := Get(Some(body), "mode");
      if !Truthy(question) || !question.value.JStr? then Reject(QuestionMissing)
      else if !Truthy(mode) || !(mode.value == JStr("qa") || mode.value == JStr("browse")) then Reject(ModeInvalid)
      else Pass(NlqRequest(Trim(question.value.s), mode.value.s, Or(Get(Some(body), "context"), Some(JObj([]))).value))
  }

  /** A question the route lets through: a non-empty string. */
  predicate QuestionOk(body: Json) {
    var question := Get(Some(body), "question");
    question.Some? && question.value.JStr? && question.value.s != ""
  }

  predicate ModeOk(body: Json) {
    Get(Some(body), "mode") in {Some(JStr("qa")), Some(JStr("browse"))}
  }

  /** The body checks, stated on their own: a body passes exactly when it is
      not `null`, its question is a non-empty string and its mode is "qa" or
      "browse"; the question is checked first; a passing body becomes the
      request with the trimmed question, the mode, and the context or `{}`. */
  lemma CheckBodyIff(body: Json)
    ensures CheckBody(body).Throw? <==> body.JNull?
    ensures CheckBody(body).Pass? <==> !body.JNull? && QuestionOk(body) && ModeOk(body)
    ensures CheckBody(body) == Reject(QuestionMissing) <==> !body.JNull? && !QuestionOk(body)
    ensures CheckBody(body) == Reject(ModeInvalid) <==> !body.JNull? && QuestionOk(body) && !ModeOk(body)
    ensures CheckBody(body).Pass? ==>
      var q := Get(Some(body), "question").value.s;
      && CheckBody(body).request.question == Trim(q)
      && Some(JStr(CheckBody(body).request.mode)) == Get(Some(body), "mode")
      && Truthy(Some(CheckBody(body).request.context))
      && (Truthy(Get(Some(body), "context")) ==> Some(CheckBody(body).request.context) == Get(Some(body), "context"))
  {
    if !body.JNull? && QuestionOk(body) && ModeOk(body) {
      var mode := Get(Some(body), "mode");
      assert mode == Some(JStr("qa")) || mode == Some(JStr("browse"));
    }
  }

  // ---------------------------------------------------------------------
  // POST /api/nlq

  /** `POST /api/nlq`: parse, check, call `processNLQ`; anything thrown on
      the way becomes the 500 envelope. */
  function NlqPost(body: Result<Json>, process: NlqRequest -> Result<NlqResponse>, development: bool, stack: string): Reply<NlqResponse> {
    if body.Failure? then Envelope(body.error, development, stack)
    else
      match CheckBody(body.value)
      case Throw(e) => Envelope(e, development, stack)
      case Reject(e) => BadRequest(e)
      case Pass(request) =>
        var response := process(request);
        if response.Failure? then Envelope(response.error, development, stack) else Ok(response.value)
  }

  /** 400 exactly for a parsed body that fails the checks; 200 with
      `processNLQ`'s own response exactly when the checks pass and it
      returns; otherwise 500, with details only in development. */
  lemma NlqPostStatus(body: Result<Json>, process: NlqRequest -> Result<NlqResponse>, development: bool, stack: string)
    ensures var r := NlqPost(body, process, development, stack);
      && (Status(r) == 400 <==> body.Success? && CheckBody(body.value).Reject?)
      && (Status(r) == 200 <==> body.Success? && CheckBody(body.value).Pass? && process(CheckBody(body.value).request).Success?)
      && (r.Ok? ==> r.payload == process(CheckBody(body.value).request).value)
      && (r.ServerError? ==> r.error == ProcessingFailed && r.message != "" && (r.details.Some? <==> development))
      && (Status(r) == 200 || Status(r) == 400 || Status(r) == 500)
  {
  }

  // ---------------------------------------------------------------------
  // POST /api/nlq-staged

  datatype StagedPayload = Stage1Payload(stage1: Stage1Response) | Stage2Payload(stage2: Answer)

  /** `{stage: 1 | 2, ...}`: the stage number the reply carries. */
  function StageOf(p: StagedPayload): int {
    if p.Stage1Payload? then 1 else 2
  }

  /** `!body.question || !body.plan || !body.queryResult` (after the `null`
      check the property access implies). */
  predicate Stage2BodyOk(body: Json) {
    Truthy(Get(Some(body), "question")) && Truthy(Get(Some(body), "plan")) && Truthy(Get(Some(body), "queryResult"))
  }

  /** `POST /api/nlq-staged?stage=…`: any stage other than "1" or "2" is a
      400 before the body is read; stage 1 runs the shared checks and
      `processNLQStage1`, stage 2 needs a truthy question, plan and result
      and passes them to `processNLQStage2` as they are. */
  function StagedPost(
    stage: Option<string>, body: Result<Json>,
    stage1: NlqRequest -> Result<Stage1Response>,
    stage2: (Json, Json, Json) -> Result<Answer>,
    development: bool, stack: string): Reply<StagedPayload>
  {
    if stage == Some("1") then
      if body.Failure? then Envelope(body.error, development, stack)
      else
        match CheckBody(body.value)
        case Throw(e) => Envelope(e, development, stack)
        case Reject(e) => BadRequest(e)
        case Pass(request) =>
          var response := stage1(request);
          if response.Failure? then Envelope(response.error, development, stack) else Ok(Stage1Payload(response.value))
    else if stage == Some("2") then
      if body.Failure? then Envelope(body.error, development, stack)
      else if body.value.JNull? then Envelope(TypeError, development, stack)
      else if !Stage2BodyOk(body.value) then BadRequest(Stage2Missing)
      else
        var b := Some(body.value);
        var response := stage2(Get(b, "question").value, Get(b, "plan").value, Get(b, "queryResult").value);
        if response.Failure? then Envelope(response.error, development, stack) else Ok(Stage2Payload(response.value))
    else BadRequest(StageInvalid)
  }

  /** The staged route's decision: a bad stage is a 400 whatever the body;
      for stage 1 a 400 is exactly a failed body check; for stage 2 exactly a
      falsy question, plan or result; a success carries the stage it ran and
      that stage's own result; every failure is the 500 envelope with
      details only in development. */
  lemma StagedPostStatus(
    stage: Option<string>, body: Result<Json>,
    stage1: NlqRequest -> Result<Stage1Response>,
    stage2: (Json, Json, Json) -> Result<Answer>,
    development: bool, stack: string)
    ensures var r := StagedPost(stage, body, stage1, stage2, development, stack);
      && (stage != Some("1") && stage != Some("2") ==> r == BadRequest(StageInvalid))
      && (stage == Some("1") ==>
            && (Status(r) == 400 <==> body.Success? && CheckBody(body.value).Reject?)
            && (r.Ok? <==> body.Success? && CheckBody(body.value).Pass? && stage1(CheckBody(body.value).request).Success?)
            && (r.Ok? ==> r.payload == Stage1Payload(stage1(CheckBody(body.value).request).value)))
      && (stage == Some("2") ==>
            && (Status(r) == 400 <==> body.Success? && !body.value.JNull? && !Stage2BodyOk(body.value))
            && (r.Ok? <==> body.Success? && !body.value.JNull? && Stage2BodyOk(body.value)
                           && stage2(Get(Some(body.value), "question").value, Get(Some(body.value), "plan").value,
                                     Get(Some(body.value), "queryResult").value).Success?)
            && (r.Ok? ==> r.payload == Stage2Payload(stage2(Get(Some(body.value), "question").value, Get(Some(body.value), "plan").value,
                                                            Get(Some(body.value), "queryResult").value).value))
            && (r.Ok? ==> r.payload.Stage2Payload? && StageOf(r.payload) == 2))
      && (r.Ok? ==> (StageOf(r.payload) == 1 <==> stage == Some("1")) && (StageOf(r.payload) == 2 <==> stage == Some("2")))
      && (r.ServerError? ==> r.error == ProcessingFailed && r.message != "" && (r.details.Some? <==> development))
  {
  }

  /** A question of spaces passes the route's own check but, trimmed to "",
      is refused by `validateUserInput` in stage 1: the reply is the 500
      envelope carrying the input error, and no LLM call or query is made. */
  lemma BlankQuestionIs500(w: World, llmBase: nat, execBase: nat, body: Json, development: bool, stack: string,
                           stage2: (Json, Json, Json) -> Result<Answer>)
    requires CheckBody(body).Pass? && AllSpace(Get(Some(body), "question").value.s)
    ensures var request := CheckBody(body).request;
      && request.question == ""
      && Stage1Run(w, llmBase, execBase, request).sent == [] && Stage1Run(w, llmBase, execBase, request).executed == []
      && StagedPost(Some("1"), Success(body), req => Stage1Run(w, llmBase, execBase, req).out, stage2, development, stack)
         == ServerError(ProcessingFailed, InputError(InputCheck("")), if development then Some(stack) else None)
  {
    CheckBodyIff(body);
    TrimEmptyIffAllSpace(Get(Some(body), "question").value.s);
    assert !InputCheck("").valid;
  }
}
