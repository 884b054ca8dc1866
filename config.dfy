/** Configuration loading and validation (lib/config.ts). The process
    environment is a map from variable names to values; a thrown error is a
    `Failure` carrying its message. */
module AppConfig {
  import opened Wrappers
  import opened Text

  type Env = map<string, string>

  datatype Neo4jConfig = Neo4jConfig(uri: string, user: string, password: string)
  datatype LlmConfig = LlmConfig(baseUrl: string, apiKey: string, model: string, planModel: string, answerModel: string)
  datatype NlqConfig = NlqConfig(maxRows: int, maxNodes: int, maxEdges: int)
  datatype Config = Config(neo4j: Neo4jConfig, llm: LlmConfig, nlq: NlqConfig)

  const DefaultMaxRows: int := 50
  const DefaultMaxNodes: int := 80
  const DefaultMaxEdges: int := 120

  /** `process.env[name]` is truthy: present and not the empty string. */
  predicate IsSet(env: Env, name: string) {
    name in env && env[name] != ""
  }

  /** `getEnvVar`: the value, or an error naming the variable when it is absent or empty. */
  function GetEnvVar(env: Env, name: string): (r: Result<string>)
    ensures r.Success? <==> IsSet(env, name)
    ensures r.Success? ==> r.value == env[name] && r.value != ""
    ensures r.Failure? ==> r.error == "缺少必需的环境变量: " + name + "，请检查 .env 文件配置"
  {
    if !IsSet(env, name) then Failure("缺少必需的环境变量: " + name + "，请检查 .env 文件配置")
    else Success(env[name])
  }

  /** `getEnvVarWithDefault`: `process.env[name] || defaultValue`. */
  function GetEnvVarWithDefault(env: Env, name: string, defaultValue: string): (r: string)
    ensures IsSet(env, name) ==> r == env[name]
    ensures !IsSet(env, name) ==> r == defaultValue
    ensures r != "" <==> IsSet(env, name) || defaultValue != ""
  {
    if IsSet(env, name) then env[name] else defaultValue
  }

  /** `getEnvNumber`: the default when absent or empty, `parseInt(value, 10)`
      when that is a number, and an error when it is `NaN`. */
  function GetEnvNumber(env: Env, name: string, defaultValue: int): (r: Result<int>)
    ensures !IsSet(env, name) ==> r == Success(defaultValue)
    ensures IsSet(env, name) ==> (r.Success? <==> ParseInt10(env[name]).Some?)
    ensures IsSet(env, name) && r.Success? ==> r.value == ParseInt10(env[name]).value
    ensures r.Failure? ==> r.error == "环境变量 " + name + " 必须是有效的数字，当前值: " + env[name]
  {
    if !IsSet(env, name) then Success(defaultValue)
    else
      var parsed := ParseInt10(env[name]);
      if parsed.None? then Failure("环境变量 " + name + " 必须是有效的数字，当前值: " + env[name])
      else Success(parsed.value)
  }

  /** `loadConfig`: the object literal is evaluated field by field, so the
      first variable that throws decides the error. */
  function LoadConfig(env: Env): Result<Config> {
    var uri := GetEnvVarWithDefault(env, "NEO4J_URI", "bolt://localhost:7687");
    var user := GetEnvVarWithDefault(env, "NEO4J_USER", "neo4j");
    var password :- GetEnvVar(env, "NEO4J_PASSWORD");
    var baseUrl := GetEnvVarWithDefault(env, "LLM_BASE_URL", "https://dashscope.aliyuncs.com/compatible-mode/v1");
    var apiKey :- GetEnvVar(env, "LLM_API_KEY");
    var model := GetEnvVarWithDefault(env, "LLM_MODEL", "qwen-turbo");
    var planModel := GetEnvVarWithDefault(env, "LLM_PLAN_MODEL", "qwen-flash");
    var answerModel := GetEnvVarWithDefault(env, "LLM_ANSWER_MODEL", "qwen-plus");
    var maxRows :- GetEnvNumber(env, "NLQ_MAX_ROWS", DefaultMaxRows);
    var maxNodes :- GetEnvNumber(env, "NLQ_MAX_NODES", DefaultMaxNodes);
    var maxEdges :- GetEnvNumber(env, "NLQ_MAX_EDGES", DefaultMaxEdges);
    Success(Config(
      Neo4jConfig(uri, user, password),
      LlmConfig(baseUrl, apiKey, model, planModel, answerModel),
      NlqConfig(maxRows, maxNodes, maxEdges)))
  }

  /** A numeric variable is absent, empty, or parses as an integer. */
  predicate NumberUsable(env: Env, name: string) {
    !IsSet(env, name) || ParseInt10(env[name]).Some?
  }

  /** Loading succeeds exactly when both secrets are set and every numeric
      variable is usable; the ceilings left unset are 50, 80 and 120, and
      every string of a loaded config is non-empty. */
  lemma LoadConfigFacts(env: Env)
    ensures LoadConfig(env).Success? <==>
      IsSet(env, "NEO4J_PASSWORD") && IsSet(env, "LLM_API_KEY")
      && NumberUsable(env, "NLQ_MAX_ROWS") && NumberUsable(env, "NLQ_MAX_NODES") && NumberUsable(env, "NLQ_MAX_EDGES")
    ensures LoadConfig(env).Success? ==>
      var c := LoadConfig(env).value;
      && (!IsSet(env, "NLQ_MAX_ROWS") ==> c.nlq.maxRows == DefaultMaxRows)
      && (!IsSet(env, "NLQ_MAX_NODES") ==> c.nlq.maxNodes == DefaultMaxNodes)
      && (!IsSet(env, "NLQ_MAX_EDGES") ==> c.nlq.maxEdges == DefaultMaxEdges)
      && StringsSet(c)
    ensures !IsSet(env, "NEO4J_PASSWORD") ==> LoadConfig(env) == GetEnvVar(env, "NEO4J_PASSWORD").PropagateFailure()
  {
  }

  predicate StringsSet(c: Config) {
    && c.neo4j.uri != "" && c.neo4j.user != "" && c.neo4j.password != ""
    && c.llm.baseUrl != "" && c.llm.apiKey != "" && c.llm.model != ""
    && c.llm.planModel != "" && c.llm.answerModel != ""
  }

  predicate CeilingsPositive(c: Config) {
    c.nlq.maxRows > 0 && c.nlq.maxNodes > 0 && c.nlq.maxEdges > 0
  }

  /** The complaints `validateConfig` collects, in the order it checks:
      the database, then the model service, then the ceilings. */
  function ConfigErrors(c: Config): seq<string> {
    Neo4jErrors(c.neo4j) + LlmErrors(c.llm) + CeilingErrors(c.nlq)
  }

  function Neo4jErrors(n: Neo4jConfig): seq<string> {
    (if n.uri == "" then ["Neo4j URI 未配置"] else [])
    + (if n.user == "" then ["Neo4j 用户名未配置"] else [])
    + (if n.password == "" then ["Neo4j 密码未配置"] else [])
  }

  function LlmErrors(l: LlmConfig): seq<string> {
    (if l.baseUrl == "" then ["LLM Base URL 未配置"] else [])
    + (if l.apiKey == "" then ["LLM API Key 未配置"] else [])
    + (if l.model == "" then ["LLM 模型未配置"] else [])
    + (if l.planModel == "" then ["LLM 计划模型未配置"] else [])
    + (if l.answerModel == "" then ["LLM 答案模型未配置"] else [])
  }

  function CeilingErrors(n: NlqConfig): seq<string> {
    (if n.maxRows <= 0 then ["NLQ_MAX_ROWS 必须大于 0"] else [])
    + (if n.maxNodes <= 0 then ["NLQ_MAX_NODES 必须大于 0"] else [])
    + (if n.maxEdges <= 0 then ["NLQ_MAX_EDGES 必须大于 0"] else [])
  }

  /** `validateConfig` accepts exactly the configs with every string set and
      every ceiling positive, and it lists one complaint per failed check. */
  lemma ConfigErrorsIff(c: Config)
    ensures ConfigErrors(c) == [] <==> StringsSet(c) && CeilingsPositive(c)
    ensures StringsSet(c) ==>
      |ConfigErrors(c)| == (if c.nlq.maxRows <= 0 then 1 else 0) + (if c.nlq.maxNodes <= 0 then 1 else 0) + (if c.nlq.maxEdges <= 0 then 1 else 0)
  {
  }

  /** A loaded config can fail validation only through its ceilings. */
  lemma LoadedConfigValidIff(env: Env)
    requires LoadConfig(env).Success?
    ensures ConfigErrors(LoadConfig(env).value) == [] <==> CeilingsPositive(LoadConfig(env).value)
  {
    LoadConfigFacts(env);
    ConfigErrorsIff(LoadConfig(env).value);
  }

  /** `validateConfig`: `None` when it returns, else the message it throws. */
  method ValidateConfig(c: Config) returns (thrown: Option<string>)
    ensures thrown.None? <==> StringsSet(c) && CeilingsPositive(c)
    ensures thrown.Some? ==> thrown.value == "配置验证失败:\n" + Join(ConfigErrors(c), "\n")
  {
    var errors := CheckNeo4j(c.neo4j);
    var more := CheckLlm(c.llm);
    errors := errors + more;
    more := CheckCeilings(c.nlq);
    errors := errors + more;
    ConfigErrorsIff(c);
    if |errors| > 0 {
      return Some("配置验证失败:\n" + Join(errors, "\n"));
    }
    return None;
  }

  /** The database checks of `validateConfig`, pushed one by one. */
  method CheckNeo4j(n: Neo4jConfig) returns (errors: seq<string>)
    ensures errors == Neo4jErrors(n)
  {
    errors := [];
    if n.uri == "" { errors := errors + ["Neo4j URI 未配置"]; }
    if n.user == "" { errors := errors + ["Neo4j 用户名未配置"]; }
    if n.password == "" { errors := errors + ["Neo4j 密码未配置"]; }
  }

  /** The model-service checks of `validateConfig`. */
  method CheckLlm(l: LlmConfig) returns (errors: seq<string>)
    ensures errors == LlmErrors(l)
  {
    errors := [];
    if l.baseUrl == "" { errors := errors + ["LLM Base URL 未配置"]; }
    if l.apiKey == "" { errors := errors + ["LLM API Key 未配置"]; }
    if l.model == "" { errors := errors + ["LLM 模型未配置"]; }
    assert errors == (if l.baseUrl == "" then ["LLM Base URL 未配置"] else [])
      + (if l.apiKey == "" then ["LLM API Key 未配置"] else [])
      + (if l.model == "" then ["LLM 模型未配置"] else []);
    if l.planModel == "" { errors := errors + ["LLM 计划模型未配置"]; }
    if l.answerModel == "" { errors := errors + ["LLM 答案模型未配置"]; }
  }

  /** The ceiling checks of `validateConfig`. */
  method CheckCeilings(n: NlqConfig) returns (errors: seq<string>)
    ensures errors == CeilingErrors(n)
  {
    errors := [];
    if n.maxRows <= 0 { errors := errors + ["NLQ_MAX_ROWS 必须大于 0"]; }
    if n.maxNodes <= 0 { errors := errors + ["NLQ_MAX_NODES 必须大于 0"]; }
    if n.maxEdges <= 0 { errors := errors + ["NLQ_MAX_EDGES 必须大于 0"]; }
  }

  /** The module-level `configInstance` singleton behind `getConfig`, over
      the environment it reads. */
  class ConfigHolder {
    const env: Env
    var instance: Option<Config>

    constructor(env: Env)
      ensures this.env == env && instance.None?
    {
      this.env := env;
      instance := None;
    }

    /** A filled instance is the config the environment loads to. */
    predicate Valid()
      reads this
    {
      instance.Some? ==> LoadConfig(env) == Success(instance.value)
    }

    /** `getConfig`: loads on the first call, then returns the stored config;
        a load that throws stores nothing. */
    method GetConfig() returns (r: Result<Config>)
      requires Valid()
      modifies this
      ensures Valid()
      ensures r == LoadConfig(env)
      ensures old(instance).Some? ==> instance == old(instance)
      ensures instance == if r.Success? then Some(r.value) else None
    {
      if instance.None? {
        var loaded := LoadConfig(env);
        if loaded.Success? {
          instance := Some(loaded.value);
        }
        return loaded;
      }
      return Success(instance.value);
    }
  }
}
