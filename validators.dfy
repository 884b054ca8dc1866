/** Plan, result and user-input validation, and plan normalisation
    (server/nlq/validators.ts). The configured row ceiling is a parameter;
    a JavaScript TypeError (property access on `null`, `toLowerCase` on a
    non-string) is a `Failure`. */
module Validators {
  import opened Wrappers
  import opened Text
  import opened Js

  /** One entry of a validation's error or warning list; `Message` gives the
      text the source pushes for it. */
  datatype Issue =
    | MissingIntent
    | InvalidIntent(intent: Value)
    | MissingLanguage
    | UnsupportedLanguage(language: Value)
    | MissingQuery
    | MissingVariables
    | BadMaxRows
    | MutationForbidden
    | MustStartWithQuery
    | DangerousPattern(pattern: string)
    | OverCeiling(maxRows: Value, ceiling: int)
    | EmptyResult
    | NotAnObject
    | EmptyQuestion
    | QuestionTooLong
    | QuestionTooShort
    | SuspiciousInput

  function Message(issue: Issue): string {
    match issue
    case MissingIntent => "缺少 intent 字段"
    case InvalidIntent(intent) => "无效的 intent: " + ToJsString(intent) + "，必须是 \"qa\" 或 \"browse\""
    case MissingLanguage => "缺少 query_language 字段"
    case UnsupportedLanguage(language) => "当前只支持 GraphQL，不支持: " + ToJsString(language)
    case MissingQuery => "缺少 query 字段"
    case MissingVariables => "缺少 variables 字段（建议使用变量化查询）"
    case BadMaxRows => "缺少或无效的 safety.maxRows 字段"
    case MutationForbidden => "查询中不允许包含 mutation 操作"
    case MustStartWithQuery => "GraphQL 查询必须以 'query' 关键字开头"
    case DangerousPattern(pattern) => "查询中包含可能的危险模式: " + pattern
    case OverCeiling(maxRows, ceiling) =>
      "maxRows (" + ToJsString(maxRows) + ") 超过系统限制 (" + IntToString(ceiling) + ")"
    case EmptyResult => "查询结果为空"
    case NotAnObject => "查询结果不是有效的对象"
    case EmptyQuestion => "问题不能为空"
    case QuestionTooLong => "问题长度不能超过 1000 个字符"
    case QuestionTooShort => "问题过短，建议提供更详细的描述"
    case SuspiciousInput => "检测到可疑输入模式，已标记"
  }

  /** The messages of a list of issues, in order. */
  function Messages(issues: seq<Issue>): (r: seq<string>)
    ensures |r| == |issues|
    ensures forall i :: 0 <= i < |issues| ==> r[i] == Message(issues[i])
  {
    seq(|issues|, i requires 0 <= i < |issues| => Message(issues[i]))
  }

  datatype Validation = Validation(valid: bool, errors: seq<Issue>, warnings: seq<Issue>)

  const DangerousPatterns: seq<string> := ["__schema", "__type", "delete", "drop", "remove"]

  predicate IsIntent(v: Value) {
    v == Some(JStr("qa")) || v == Some(JStr("browse"))
  }

  // ---------------------------------------------------------------------
  // validateQueryPlan

  /** One warning per dangerous pattern the lower-cased query contains, in list order. */
  function DangerWarnings(lower: string, patterns: seq<string>): (w: seq<Issue>)
    ensures |w| <= |patterns|
  {
    if patterns == [] then []
    else
      var last := patterns[|patterns| - 1];
      DangerWarnings(lower, patterns[..|patterns| - 1])
        + (if Contains(lower, last) then [DangerousPattern(last)] else [])
  }

  function IntentErrors(plan: Value): seq<Issue> {
    var intent := Get(plan, "intent");
    if !Truthy(intent) then [MissingIntent]
    else if !IsIntent(intent) then [InvalidIntent(intent)]
    else []
  }

  function LanguageErrors(plan: Value): seq<Issue> {
    var language := Get(plan, "query_language");
    if !Truthy(language) then [MissingLanguage]
    else if language != Some(JStr("graphql")) then [UnsupportedLanguage(language)]
    else []
  }

  predicate HasNumericMaxRows(plan: Value) {
    var safety := Get(plan, "safety");
    Truthy(safety) && Get(safety, "maxRows").Some? && Get(safety, "maxRows").value.JNum?
  }

  /** Errors about the text of a (string) query, lower-cased. */
  function QueryTextErrors(lower: string): seq<Issue> {
    (if Contains(lower, "mutation") then [MutationForbidden] else [])
    + (if !StartsWith(Trim(lower), "query") then [MustStartWithQuery] else [])
  }

  function CeilingErrors(plan: Value, ceiling: int): seq<Issue> {
    var safety := Get(plan, "safety");
    if Truthy(safety) && GreaterThan(Get(safety, "maxRows"), ceiling) then
      [OverCeiling(Get(safety, "maxRows"), ceiling)]
    else []
  }

  /** The lower-cased query text, or "" when the query is falsy. */
  function QueryLower(plan: Value): string {
    var query := Get(plan, "query");
    if Truthy(query) && query.value.JStr? then ToLower(query.value.s) else ""
  }

  /** What `validateQueryPlan` returns (or throws) for `plan`. */
  function PlanCheck(plan: Value, ceiling: int): Result<Validation> {
    var query := Get(plan, "query");
    if IsNullish(plan) || (Truthy(query) && !IsString(query)) then Failure(TypeError)
    else
      var lower := QueryLower(plan);
      var errors :=
        IntentErrors(plan) + LanguageErrors(plan)
        + (if !Truthy(query) then [MissingQuery] else [])
        + (if !HasNumericMaxRows(plan) then [BadMaxRows] else [])
        + (if Truthy(query) then QueryTextErrors(lower) else [])
        + CeilingErrors(plan, ceiling);
      var warnings :=
        (if !Truthy(Get(plan, "variables")) then [MissingVariables] else [])
        + (if Truthy(query) then DangerWarnings(lower, DangerousPatterns) else []);
      Success(Validation(errors == [], errors, warnings))
  }

  /** The errors `validateQueryPlan` records before it looks at the query text. */
  function FieldErrors(plan: Value): seq<Issue> {
    IntentErrors(plan) + LanguageErrors(plan)
    + (if !Truthy(Get(plan, "query")) then [MissingQuery] else [])
    + (if !HasNumericMaxRows(plan) then [BadMaxRows] else [])
  }

  lemma PlanCheckShape(plan: Value, ceiling: int)
    requires !IsNullish(plan) && !(Truthy(Get(plan, "query")) && !IsString(Get(plan, "query")))
    ensures PlanCheck(plan, ceiling) == Success(Validation(
      FieldErrors(plan) + (if Truthy(Get(plan, "query")) then QueryTextErrors(QueryLower(plan)) else [])
        + CeilingErrors(plan, ceiling) == [],
      FieldErrors(plan) + (if Truthy(Get(plan, "query")) then QueryTextErrors(QueryLower(plan)) else [])
        + CeilingErrors(plan, ceiling),
      (if !Truthy(Get(plan, "variables")) then [MissingVariables] else [])
        + (if Truthy(Get(plan, "query")) then DangerWarnings(QueryLower(plan), DangerousPatterns) else [])))
  {
  }

  /** The field checks of `validateQueryPlan`, in source order. */
  method CheckFields(plan: Value) returns (errors: seq<Issue>, warnings: seq<Issue>)
    ensures errors == FieldErrors(plan)
    ensures warnings == if !Truthy(Get(plan, "variables")) then [MissingVariables] else []
  {
    errors := [];
    warnings := [];
    var intent := Get(plan, "intent");
    if !Truthy(intent) {
      errors := errors + [MissingIntent];
    } else if !IsIntent(intent) {
      errors := errors + [InvalidIntent(intent)];
    }
    assert errors == IntentErrors(plan);
    var language := Get(plan, "query_language");
    if !Truthy(language) {
      errors := errors + [MissingLanguage];
    } else if language != Some(JStr("graphql")) {
      errors := errors + [UnsupportedLanguage(language)];
    }
    assert errors == IntentErrors(plan) + LanguageErrors(plan);
    if !Truthy(Get(plan, "query")) {
      errors := errors + [MissingQuery];
    }
    ghost var known := errors;
    if !Truthy(Get(plan, "variables")) {
      warnings := warnings + [MissingVariables];
    }
    var safety := Get(plan, "safety");
    if !Truthy(safety) || !(Get(safety, "maxRows").Some? && Get(safety, "maxRows").value.JNum?) {
      errors := errors + [BadMaxRows];
    }
    assert errors == known + (if !HasNumericMaxRows(plan) then [BadMaxRows] else []);
  }

  /** The checks on the lower-cased query text. */
  method CheckQueryText(lower: string) returns (errors: seq<Issue>)
    ensures errors == QueryTextErrors(lower)
  {
    errors := [];
    if Contains(lower, "mutation") {
      errors := errors + [MutationForbidden];
    }
    if !StartsWith(Trim(lower), "query") {
      errors := errors + [MustStartWithQuery];
    }
  }

  /** `validateQueryPlan`: checks the fields in source order, accumulating errors
      and warnings; `valid` is whether no error was recorded. */
  method ValidateQueryPlan(plan: Value, ceiling: int) returns (r: Result<Validation>)
    ensures r == PlanCheck(plan, ceiling)
    ensures r.Success? ==> (r.value.valid <==> r.value.errors == [])
  {
    if IsNullish(plan) {
      return Failure(TypeError);
    }
    var errors, warnings := CheckFields(plan);
    ghost var fieldErrors := errors;
    ghost var fieldWarnings := warnings;
    var query := Get(plan, "query");
    if Truthy(query) {
      if !query.value.JStr? {
        return Failure(TypeError);
      }
      var lower := ToLower(query.value.s);
      assert lower == QueryLower(plan);
      var textErrors := CheckQueryText(lower);
      errors := errors + textErrors;
      var found := DangerScan(lower);
      warnings := warnings + found;
    }
    var safety := Get(plan, "safety");
    if Truthy(safety) && GreaterThan(Get(safety, "maxRows"), ceiling) {
      errors := errors + [OverCeiling(Get(safety, "maxRows"), ceiling)];
    }
    ghost var textPart := if Truthy(query) then QueryTextErrors(QueryLower(plan)) else [];
    assert errors == fieldErrors + textPart + CeilingErrors(plan, ceiling);
    assert warnings == fieldWarnings
      + (if Truthy(query) then DangerWarnings(QueryLower(plan), DangerousPatterns) else []);
    PlanCheckShape(plan, ceiling);
    return Success(Validation(|errors| == 0, errors, warnings));
  }

  /** The loop over the dangerous patterns: one warning per pattern `lower` contains. */
  method DangerScan(lower: string) returns (found: seq<Issue>)
    ensures found == DangerWarnings(lower, DangerousPatterns)
  {
    found := [];
    var i := 0;
    while i < |DangerousPatterns|
      invariant 0 <= i <= |DangerousPatterns|
      invariant found == DangerWarnings(lower, DangerousPatterns[..i])
    {
      DangerWarningsStep(lower, DangerousPatterns, i);
      if Contains(lower, DangerousPatterns[i]) {
        found := found + [DangerousPattern(DangerousPatterns[i])];
      }
      i := i + 1;
    }
    assert DangerousPatterns[..i] == DangerousPatterns;
  }

  lemma DangerWarningsStep(lower: string, patterns: seq<string>, i: nat)
    requires i < |patterns|
    ensures DangerWarnings(lower, patterns[..i + 1])
         == DangerWarnings(lower, patterns[..i])
            + (if Contains(lower, patterns[i]) then [DangerousPattern(patterns[i])] else [])
  {
    assert patterns[..i + 1][..i] == patterns[..i];
  }

  /** Independent statement of what an acceptable plan is: a known intent, the
      GraphQL language, a non-empty string query that is not a mutation and
      starts with `query`, and a numeric `safety.maxRows` within the ceiling.
      Variables and the dangerous patterns play no part. */
  predicate AcceptablePlan(plan: Value, ceiling: int) {
    var query := Get(plan, "query");
    var maxRows := Get(Get(plan, "safety"), "maxRows");
    !IsNullish(plan)
    && IsIntent(Get(plan, "intent"))
    && Get(plan, "query_language") == Some(JStr("graphql"))
    && query.Some? && query.value.JStr? && query.value.s != ""
    && !Contains(ToLower(query.value.s), "mutation")
    && StartsWith(Trim(ToLower(query.value.s)), "query")
    && Truthy(Get(plan, "safety"))
    && maxRows.Some? && maxRows.value.JNum? && maxRows.value.n <= ceiling
  }

  /** `validateQueryPlan` throws exactly for `null`/`undefined` plans and for a
      truthy query that is not a string. */
  lemma PlanCheckFailsIff(plan: Value, ceiling: int)
    ensures PlanCheck(plan, ceiling).Failure? <==>
      (IsNullish(plan) || (Truthy(Get(plan, "query")) && !IsString(Get(plan, "query"))))
  {
  }

  /** A plan is valid exactly when it is acceptable. */
  lemma PlanValidIff(plan: Value, ceiling: int)
    requires PlanCheck(plan, ceiling).Success?
    ensures PlanCheck(plan, ceiling).value.valid <==> AcceptablePlan(plan, ceiling)
  {
    var query := Get(plan, "query");
    if Truthy(query) {
      assert QueryLower(plan) == ToLower(query.value.s);
    }
  }

  /** The warnings never affect validity: they are the missing-variables notice
      followed by one notice per dangerous pattern found. */
  lemma WarningsAreNotices(plan: Value, ceiling: int)
    requires PlanCheck(plan, ceiling).Success?
    ensures forall w :: w in PlanCheck(plan, ceiling).value.warnings ==>
      w == MissingVariables || exists p :: p in DangerousPatterns && w == DangerousPattern(p)
  {
    var lower := QueryLower(plan);
    DangerWarningsFrom(lower, DangerousPatterns);
  }

  lemma {:induction false} DangerWarningsFrom(lower: string, patterns: seq<string>)
    ensures forall w :: w in DangerWarnings(lower, patterns) ==>
      exists p :: p in patterns && w == DangerousPattern(p) && Contains(lower, p)
  {
    if patterns != [] {
      DangerWarningsFrom(lower, patterns[..|patterns| - 1]);
      forall w | w in DangerWarnings(lower, patterns)
        ensures exists p :: p in patterns && w == DangerousPattern(p) && Contains(lower, p)
      {
        if w in DangerWarnings(lower, patterns[..|patterns| - 1]) {
          var p :| p in patterns[..|patterns| - 1] && w == DangerousPattern(p) && Contains(lower, p);
          assert p in patterns;
        } else {
          assert patterns[|patterns| - 1] in patterns;
        }
      }
    }
  }

  // ---------------------------------------------------------------------
  // validateQueryResult


  /** `validateQueryResult`: `undefined` fails both checks, `null` only the first
      (`typeof null` is "object"), other primitives only the second. */
  method ValidateQueryResult(result: Value) returns (r: Validation)
    ensures r.valid <==> (result.Some? && (result.value.JArr? || result.value.JObj?))
    ensures r.valid <==> r.errors == []
    ensures r.errors == (if IsNullish(result) then [EmptyResult] else [])
                        + (if !IsObjectType(result) then [NotAnObject] else [])
    ensures r.warnings == []
  {
    var errors: seq<Issue> := [];
    if IsNullish(result) {
      errors := errors + [EmptyResult];
    }
    if !IsObjectType(result) {
      errors := errors + [NotAnObject];
    }
    return Validation(|errors| == 0, errors, []);
  }

  // ---------------------------------------------------------------------
  // sanitizeQueryPlan

  /** The normalised plan. `maxRows` is `None` when it is `NaN`. */
  datatype QueryPlan = QueryPlan(
    intent: Json,
    queryLanguage: string,
    query: Json,
    variables: Json,
    maxRows: Option<int>,
    tone: Json,
    includeEvidence: bool)

  /** The plan as a JavaScript object, as it travels on (and as `JSON.stringify`
      writes it: a `NaN` row count becomes `null`). */
  function PlanToJson(p: QueryPlan): Json {
    JObj([
      ("intent", p.intent),
      ("query_language", JStr(p.queryLanguage)),
      ("query", p.query),
      ("variables", p.variables),
      ("safety", JObj([("maxRows", if p.maxRows.Some? then JNum(p.maxRows.value) else JNull)])),
      ("answer_style", JObj([("tone", p.tone), ("includeEvidence", JBool(p.includeEvidence))]))
    ])
  }

  /** Reading the fields back out of `PlanToJson`. */
  lemma PlanToJsonFields(p: QueryPlan)
    ensures Get(Some(PlanToJson(p)), "intent") == Some(p.intent)
    ensures Get(Some(PlanToJson(p)), "query_language") == Some(JStr(p.queryLanguage))
    ensures Get(Some(PlanToJson(p)), "query") == Some(p.query)
    ensures Get(Some(PlanToJson(p)), "variables") == Some(p.variables)
    ensures Get(Get(Some(PlanToJson(p)), "safety"), "maxRows")
         == Some(if p.maxRows.Some? then JNum(p.maxRows.value) else JNull)
    ensures Truthy(Get(Some(PlanToJson(p)), "safety"))
    ensures Get(Get(Some(PlanToJson(p)), "answer_style"), "tone") == Some(p.tone)
    ensures Get(Get(Some(PlanToJson(p)), "answer_style"), "includeEvidence") == Some(JBool(p.includeEvidence))
  {
    var f := PlanToJson(p).fields;
    assert Lookup(f, "query_language") == Lookup(f[1..], "query_language");
    assert Lookup(f, "query") == Lookup(f[1..], "query") == Lookup(f[2..], "query");
    assert Lookup(f, "variables") == Lookup(f[1..], "variables") == Lookup(f[2..], "variables")
        == Lookup(f[3..], "variables");
    assert Lookup(f, "safety") == Lookup(f[1..], "safety") == Lookup(f[2..], "safety")
        == Lookup(f[3..], "safety") == Lookup(f[4..], "safety");
    assert Lookup(f, "answer_style") == Lookup(f[1..], "answer_style") == Lookup(f[2..], "answer_style")
        == Lookup(f[3..], "answer_style") == Lookup(f[4..], "answer_style") == Lookup(f[5..], "answer_style");
    var style := [("tone", p.tone), ("includeEvidence", JBool(p.includeEvidence))];
    assert Lookup(style, "includeEvidence") == Lookup(style[1..], "includeEvidence");
  }

  /** `Math.min(v || 20, ceiling)`: `NaN` when `v || 20` does not coerce. */
  function ClampRows(v: Value, ceiling: int): Option<int> {
    var n := ToNumber(Or(v, Some(JNum(20))));
    if n.Some? then Some(Min(n.value, ceiling)) else None
  }

  /** `sanitizeQueryPlan`: fills defaults, fixes the language and clamps the row count. */
  function Sanitize(plan: Value, ceiling: int): Result<QueryPlan> {
    if IsNullish(plan) then Failure(TypeError)
    else
      var style := Get(plan, "answer_style");
      Success(QueryPlan(
        Or(Get(plan, "intent"), Some(JStr("qa"))).value,
        "graphql",
        Or(Get(plan, "query"), Some(JStr(""))).value,
        Or(Get(plan, "variables"), Some(JObj([]))).value,
        ClampRows(Get(Get(plan, "safety"), "maxRows"), ceiling),
        Or(Get(style, "tone"), Some(JStr("normal"))).value,
        Get(style, "includeEvidence") != Some(JBool(false))))
  }

  /** What `sanitizeQueryPlan` guarantees: it throws only on a nullish plan;
      otherwise every field is the plan's own or its default, the language is
      GraphQL and the row count does not exceed the ceiling. */
  lemma SanitizeFields(plan: Value, ceiling: int)
    ensures var r := Sanitize(plan, ceiling);
      && (r.Failure? <==> IsNullish(plan))
      && (r.Success? ==> r.value.queryLanguage == "graphql")
      && (r.Success? ==> Some(r.value.intent) == Or(Get(plan, "intent"), Some(JStr("qa"))))
      && (r.Success? ==> Some(r.value.query) == Or(Get(plan, "query"), Some(JStr(""))))
      && (r.Success? ==> Some(r.value.variables) == Or(Get(plan, "variables"), Some(JObj([]))))
      && (r.Success? ==> Some(r.value.tone) == Or(Get(Get(plan, "answer_style"), "tone"), Some(JStr("normal"))))
      && (r.Success? ==> (r.value.includeEvidence <==> Get(Get(plan, "answer_style"), "includeEvidence") != Some(JBool(false))))
      && (r.Success? && r.value.maxRows.Some? ==> r.value.maxRows.value <= ceiling)
  {
  }

  /** The coerced `maxRows || 20` of a plan, before clamping. */
  function RowsBeforeClamp(plan: Value): Option<int> {
    ToNumber(Or(Get(Get(plan, "safety"), "maxRows"), Some(JNum(20))))
  }

  /** Clamping an already clamped row count again: only `NaN`, and 0 under a
      positive ceiling, fail to come back unchanged. */
  lemma ClampAgain(n: Option<int>, ceiling: int)
    ensures var m := if n.Some? then Some(Min(n.value, ceiling)) else None;
      ClampRows(Some(if m.Some? then JNum(m.value) else JNull), ceiling) == m
      <==> (n.Some? && (n.value != 0 || ceiling <= 0))
  {
  }

  /** Sanitising a sanitised plan again changes it exactly when the first pass
      produced `NaN`, or produced 0 from a truthy non-number under a positive
      ceiling: both are falsy, so the second pass falls back to 20. */
  lemma SanitizeIdempotentIff(plan: Value, ceiling: int)
    requires !IsNullish(plan)
    ensures Sanitize(Some(PlanToJson(Sanitize(plan, ceiling).value)), ceiling) == Sanitize(plan, ceiling)
      <==> (RowsBeforeClamp(plan).Some? && (RowsBeforeClamp(plan).value != 0 || ceiling <= 0))
  {
    var p := Sanitize(plan, ceiling).value;
    PlanToJsonFields(p);
    ClampAgain(RowsBeforeClamp(plan), ceiling);
  }

  /** On the plans the orchestrator sanitises (validated ones), sanitising is idempotent. */
  lemma SanitizeIdempotentOnAccepted(plan: Value, ceiling: int)
    requires AcceptablePlan(plan, ceiling)
    ensures Sanitize(Some(PlanToJson(Sanitize(plan, ceiling).value)), ceiling) == Sanitize(plan, ceiling)
  {
    SanitizeIdempotentIff(plan, ceiling);
  }

  /** A counterexample to unconditional idempotence: `maxRows: "0"` becomes 0,
      which the second pass replaces by 20. */
  lemma SanitizeNotIdempotent()
    ensures var plan := Some(JObj([("safety", JObj([("maxRows", JStr("0"))]))]));
      Sanitize(Some(PlanToJson(Sanitize(plan, 50).value)), 50) != Sanitize(plan, 50)
  {
    var plan := Some(JObj([("safety", JObj([("maxRows", JStr("0"))]))]));
    assert StringToNumber("0") == Some(0) by {
      assert Trim("0") == "0";
      assert DigitRun("0") == 1;
      assert DecimalValue("0") == DecimalValue("") * 10 + DigitValue('0');
    }
    assert RowsBeforeClamp(plan) == Some(0);
    SanitizeIdempotentIff(plan, 50);
  }

  /** Sanitising an acceptable plan yields an acceptable plan with the same intent and query. */
  lemma SanitizedPlanRevalidates(plan: Value, ceiling: int)
    requires AcceptablePlan(plan, ceiling)
    ensures AcceptablePlan(Some(PlanToJson(Sanitize(plan, ceiling).value)), ceiling)
    ensures Some(Sanitize(plan, ceiling).value.intent) == Get(plan, "intent")
    ensures Some(Sanitize(plan, ceiling).value.query) == Get(plan, "query")
  {
    var p := Sanitize(plan, ceiling).value;
    PlanToJsonFields(p);
    var j := Some(PlanToJson(p));
    var m := Get(Get(plan, "safety"), "maxRows").value.n;
    assert p.maxRows == Some(Min(if m != 0 then m else 20, ceiling));
    assert Get(j, "query") == Get(plan, "query");
    assert IsIntent(Get(j, "intent"));
  }

  // ---------------------------------------------------------------------
  // validateUserInput

  const MaxQuestionLength: nat := 1000

  /** A suspicious-input regular expression, matched case-insensitively:
      `\bWORD\b` or a plain substring. */
  datatype Pattern = Word(w: string) | Substring(s: string)

  const SuspiciousPatterns: seq<Pattern> :=
    [Word("drop"), Word("delete"), Word("remove"), Substring("<script"), Substring("javascript:")]

  /** A word boundary before index `i` (ASCII word characters, as `\b` uses). */
  predicate BoundaryAt(s: string, i: int) {
    0 <= i <= |s| &&
    ((i == 0 || !IsWordChar(s[i - 1])) != (i == |s| || !IsWordChar(s[i])))
  }

  /** `\bw\b` occurs in `lower` at `i`. */
  predicate WordAt(lower: string, w: string, i: int) {
    OccursAt(lower, w, i) && BoundaryAt(lower, i) && BoundaryAt(lower, i + |w|)
  }

  /** Searches for `\bw\b` in `lower` from index `from` on. */
  function FindWord(lower: string, w: string, from: nat): (r: Option<nat>)
    decreases |lower| - from
    ensures r.Some? ==> from <= r.value && WordAt(lower, w, r.value)
    ensures r.Some? ==> forall i :: from <= i < r.value ==> !WordAt(lower, w, i)
    ensures r.None? ==> forall i :: from <= i ==> !WordAt(lower, w, i)
  {
    if from + |w| > |lower| then None
    else if WordAt(lower, w, from) then Some(from)
    else FindWord(lower, w, from + 1)
  }

  /** `pattern.test(question)`, on the lower-cased question: the patterns are
      lower-case ASCII, so ASCII folding decides case-insensitive matching. */
  predicate Matches(pattern: Pattern, question: string) {
    match pattern
    case Word(w) => FindWord(ToLower(question), w, 0).Some?
    case Substring(s) => Contains(ToLower(question), s)
  }

  /** A whole-word pattern matches exactly when the word occurs with a word
      boundary on both sides. */
  lemma WordMatchesIff(w: string, question: string)
    ensures Matches(Word(w), question) <==> exists i :: WordAt(ToLower(question), w, i)
  {
    var lower := ToLower(question);
    var found := FindWord(lower, w, 0);
    assert Matches(Word(w), question) <==> found.Some?;
    if found.Some? {
      var i: int := found.value;
      assert WordAt(ToLower(question), w, i);
      assert exists j :: WordAt(ToLower(question), w, j);
    } else {
      assert forall i :: !WordAt(lower, w, i);
    }
  }

  /** One warning per matching pattern, in list order. */
  function PatternWarnings(question: string, patterns: seq<Pattern>): (w: seq<Issue>)
    ensures |w| <= |patterns|
    ensures forall k :: 0 <= k < |w| ==> w[k] == SuspiciousInput
  {
    if patterns == [] then []
    else
      PatternWarnings(question, patterns[..|patterns| - 1])
        + (if Matches(patterns[|patterns| - 1], question) then [SuspiciousInput] else [])
  }

  /** What `validateUserInput` returns for `question`. */
  function InputCheck(question: string): Validation {
    var errors :=
      (if question == "" || |Trim(question)| == 0 then [EmptyQuestion] else [])
      + (if |question| > MaxQuestionLength then [QuestionTooLong] else []);
    var warnings :=
      (if |question| < 3 then [QuestionTooShort] else [])
      + PatternWarnings(question, SuspiciousPatterns);
    Validation(errors == [], errors, warnings)
  }

  lemma PatternWarningsStep(question: string, patterns: seq<Pattern>, i: nat)
    requires i < |patterns|
    ensures PatternWarnings(question, patterns[..i + 1])
         == PatternWarnings(question, patterns[..i])
            + (if Matches(patterns[i], question) then [SuspiciousInput] else [])
  {
    assert patterns[..i + 1][..i] == patterns[..i];
  }

  /** The loop over the suspicious patterns: one warning pushed onto
      `warnings` per pattern that matches, in list order. */
  method ScanPatterns(question: string, patterns: seq<Pattern>, warnings: seq<Issue>) returns (out: seq<Issue>)
    ensures out == warnings + PatternWarnings(question, patterns)
  {
    out := warnings;
    for i := 0 to |patterns|
      invariant out == warnings + PatternWarnings(question, patterns[..i])
    {
      PatternWarningsStep(question, patterns, i);
      if Matches(patterns[i], question) {
        out := out + [SuspiciousInput];
      }
    }
    assert patterns[..|patterns|] == patterns;
  }

  /** `validateUserInput`: length and emptiness checks, then one warning per
      matching suspicious pattern. */
  method ValidateUserInput(question: string) returns (r: Validation)
    ensures r == InputCheck(question)
  {
    var errors: seq<Issue> := [];
    var warnings: seq<Issue> := [];
    if question == "" || |Trim(question)| == 0 {
      errors := errors + [EmptyQuestion];
    }
    if |question| > MaxQuestionLength {
      errors := errors + [QuestionTooLong];
    }
    assert errors == (if question == "" || |Trim(question)| == 0 then [EmptyQuestion] else [])
      + (if |question| > MaxQuestionLength then [QuestionTooLong] else []);
    if |question| < 3 {
      warnings := warnings + [QuestionTooShort];
    }
    warnings := ScanPatterns(question, SuspiciousPatterns, warnings);
    return Validation(|errors| == 0, errors, warnings);
  }

  /** The number of patterns in `patterns` that match. */
  function MatchCount(question: string, patterns: seq<Pattern>): nat {
    if patterns == [] then 0
    else MatchCount(question, patterns[1..]) + (if Matches(patterns[0], question) then 1 else 0)
  }

  lemma {:induction false} PatternWarningsCount(question: string, patterns: seq<Pattern>)
    ensures |PatternWarnings(question, patterns)| == MatchCount(question, patterns)
  {
    if patterns != [] {
      var init := patterns[..|patterns| - 1];
      PatternWarningsCount(question, init);
      if |patterns| == 1 {
        assert init == [];
        assert patterns[1..] == [];
      } else {
        MatchCountSnoc(question, init, patterns[|patterns| - 1]);
        assert patterns == init + [patterns[|patterns| - 1]];
      }
    }
  }

  lemma {:induction false} MatchCountSnoc(question: string, init: seq<Pattern>, last: Pattern)
    ensures MatchCount(question, init + [last])
         == MatchCount(question, init) + (if Matches(last, question) then 1 else 0)
  {
    if init != [] {
      assert (init + [last])[1..] == init[1..] + [last];
      MatchCountSnoc(question, init[1..], last);
    } else {
      assert ([last])[1..] == [];
    }
  }

  /** Input is valid exactly when it has a non-whitespace character and at most
      1000 characters; shortness and suspicious patterns only add warnings, one
      per matching pattern. */
  lemma UserInputValidIff(question: string)
    ensures InputCheck(question).valid <==> (!AllSpace(question) && |question| <= MaxQuestionLength)
    ensures |InputCheck(question).warnings|
         == (if |question| < 3 then 1 else 0) + MatchCount(question, SuspiciousPatterns)
  {
    TrimEmptyIffAllSpace(question);
    PatternWarningsCount(question, SuspiciousPatterns);
  }
}
