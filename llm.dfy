/** The chat-completions client (server/llm/client.ts). The remote service is
    an oracle: `Endpoint.respond` gives the outcome of the n-th call for the
    request sent, and the endpoint logs every request and every back-off wait. */
module Llm {
  import opened Wrappers
  import opened AppConfig

  datatype ChatMessage = ChatMessage(role: string, content: string)

  /** A completion; token usage is not modelled. */
  datatype LlmResponse = LlmResponse(content: string)

  /** What one call sends: the client's settings and the messages. */
  datatype ChatRequest = ChatRequest(
    baseUrl: string, apiKey: string, model: string,
    temperature: real, maxTokens: int, messages: seq<ChatMessage>)

  /** Client options; `None` is an option that is `undefined` or `null`. */
  datatype LlmOptions = LlmOptions(
    baseUrl: Option<string>, apiKey: Option<string>, model: Option<string>,
    temperature: Option<real>, maxTokens: Option<int>, timeout: Option<int>)

  /** `new LLMClient()` with no options. */
  const NoOptions: LlmOptions := LlmOptions(None, None, None, None, None, None)

  datatype Settings = Settings(
    baseUrl: string, apiKey: string, model: string,
    temperature: real, maxTokens: int, timeout: int)

  const DefaultTemperature: real := 0.7
  const DefaultMaxTokens: int := 4000
  const DefaultTimeout: int := 60000
  const GenericFailure: string := "LLM 调用失败"

  /** `option || fallback` for a string option. */
  function OrString(option: Option<string>, fallback: string): string {
    if option.Some? && option.value != "" then option.value else fallback
  }

  /** `option ?? fallback`. */
  function OrDefault<T>(option: Option<T>, fallback: T): T {
    if option.Some? then option.value else fallback
  }

  /** The settings the constructor assigns: strings fall back to the config
      when falsy, numbers to 0.7, 4000 and 60000 only when nullish. */
  function SettingsFor(options: LlmOptions, config: Config): Settings {
    Settings(
      OrString(options.baseUrl, config.llm.baseUrl),
      OrString(options.apiKey, config.llm.apiKey),
      OrString(options.model, config.llm.model),
      OrDefault(options.temperature, DefaultTemperature),
      OrDefault(options.maxTokens, DefaultMaxTokens),
      OrDefault(options.timeout, DefaultTimeout))
  }

  /** The defaults apply exactly when an option is missing, so an explicit 0
      is kept, while an empty string falls back to the config. */
  lemma SettingsDefaults(options: LlmOptions, config: Config)
    ensures var s := SettingsFor(options, config);
      && (options.temperature.None? ==> s.temperature == DefaultTemperature)
      && (options.temperature.Some? ==> s.temperature == options.temperature.value)
      && (options.temperature == Some(0.0) ==> s.temperature == 0.0)
      && (options.maxTokens == Some(0) ==> s.maxTokens == 0)
      && (options.timeout == Some(0) ==> s.timeout == 0)
      && (options.model == Some("") ==> s.model == config.llm.model)
      && (options == NoOptions ==>
            s == Settings(config.llm.baseUrl, config.llm.apiKey, config.llm.model,
                          DefaultTemperature, DefaultMaxTokens, DefaultTimeout))
  {
  }

  /** The messages `generate` sends: a system message when the system prompt
      is truthy, then the user prompt. */
  function MessagesFor(prompt: string, systemPrompt: Option<string>): (m: seq<ChatMessage>)
    ensures 1 <= |m| <= 2
    ensures m[|m| - 1] == ChatMessage("user", prompt)
    ensures |m| == 2 <==> systemPrompt.Some? && systemPrompt.value != ""
    ensures |m| == 2 ==> m[0] == ChatMessage("system", systemPrompt.value)
  {
    (if systemPrompt.Some? && systemPrompt.value != "" then [ChatMessage("system", systemPrompt.value)] else [])
    + [ChatMessage("user", prompt)]
  }

  function RequestOf(s: Settings, messages: seq<ChatMessage>): ChatRequest {
    ChatRequest(s.baseUrl, s.apiKey, s.model, s.temperature, s.maxTokens, messages)
  }

  /** The number of attempts the `for` loop makes: `maxRetries + 1`, or none. */
  function Budget(maxRetries: int): nat {
    if maxRetries < 0 then 0 else maxRetries + 1
  }

  /** The calls made by a run of at most `budget` attempts starting at call
      number `base`, which stops at the first success. */
  function Attempts(respond: (nat, ChatRequest) -> Result<LlmResponse>, base: nat, req: ChatRequest, budget: nat): (n: nat)
    ensures n <= budget
    ensures budget > 0 ==> n >= 1
    decreases budget
  {
    if budget == 0 then 0
    else if respond(base, req).Success? then 1
    else 1 + Attempts(respond, base + 1, req, budget - 1)
  }

  /** The outcome of the attempts: the first success, else the last error
      (or the generic one when no attempt was made). */
  function RetryF(respond: (nat, ChatRequest) -> Result<LlmResponse>, base: nat, req: ChatRequest, budget: nat, lastError: Option<string>): Result<LlmResponse>
    decreases budget
  {
    if budget == 0 then Failure(lastError.GetOr(GenericFailure))
    else
      var r := respond(base, req);
      if r.Success? then r
      else RetryF(respond, base + 1, req, budget - 1, Some(r.error))
  }

  /** A run succeeds with the response of its last call, every earlier call
      having failed; it fails only after using the whole budget, every call
      having failed, with the error of the last one. */
  lemma {:induction false} RetryFacts(respond: (nat, ChatRequest) -> Result<LlmResponse>, base: nat, req: ChatRequest, budget: nat, lastError: Option<string>)
    ensures var n := Attempts(respond, base, req, budget);
      var r := RetryF(respond, base, req, budget, lastError);
      && (forall j :: base <= j < base + n - 1 ==> respond(j, req).Failure?)
      && (r.Success? ==> n >= 1 && r == respond(base + n - 1, req))
      && (r.Failure? ==> n == budget && (forall j :: base <= j < base + n ==> respond(j, req).Failure?))
      && (r.Failure? && budget > 0 ==> r.error == respond(base + n - 1, req).error)
      && (budget == 0 ==> r == Failure(lastError.GetOr(GenericFailure)))
    decreases budget
  {
    if budget > 0 && respond(base, req).Failure? {
      RetryFacts(respond, base + 1, req, budget - 1, Some(respond(base, req).error));
    }
  }

  /** The waits `1000 * (i + 1)` ms after the failed attempts `i < count`. */
  function Backoffs(count: nat): (w: seq<int>)
    ensures |w| == count
    ensures forall i :: 0 <= i < count ==> w[i] == 1000 * (i + 1)
  {
    seq(count, i => 1000 * (i + 1))
  }

  /** Each further failure appends one wait, 1000 ms longer than the one
      before it: the waits grow strictly, and a shorter run's waits are a
      prefix of a longer run's. */
  lemma BackoffsGrow(c: nat, d: nat)
    ensures Backoffs(c + 1) == Backoffs(c) + [1000 * (c + 1)]
    ensures forall i, j :: 0 <= i < j < c ==> Backoffs(c)[i] < Backoffs(c)[j]
    ensures forall i :: 0 <= i < c ==> Backoffs(c)[i] >= 1000
    ensures c <= d ==> Backoffs(c) == Backoffs(d)[..c]
  {
    assert Backoffs(c + 1)[..c] == Backoffs(c);
    if c <= d {
      assert Backoffs(d)[..c] == Backoffs(c);
    }
  }

  /** Failed attempts are followed by a wait unless they were the last allowed. */
  function WaitCount(failures: nat, maxRetries: int): nat {
    if maxRetries < 0 then 0 else if failures <= maxRetries then failures else maxRetries
  }

  /** The waits of a run that made `n` attempts and ended with `r`: one per
      failed attempt that was not the last allowed. */
  function RunWaits(r: Result<LlmResponse>, n: nat, maxRetries: int): seq<int> {
    Backoffs(WaitCount(if r.Success? && n > 0 then n - 1 else n, maxRetries))
  }

  /** A run waits once between consecutive attempts and never after its last one. */
  lemma WaitsBetweenAttempts(respond: (nat, ChatRequest) -> Result<LlmResponse>, base: nat, req: ChatRequest, maxRetries: int)
    ensures var n := Attempts(respond, base, req, Budget(maxRetries));
      var r := RetryF(respond, base, req, Budget(maxRetries), None);
      |RunWaits(r, n, maxRetries)| == if n == 0 then 0 else n - 1
  {
    RetryFacts(respond, base, req, Budget(maxRetries), None);
  }

  function Repeat<T>(x: T, n: nat): (r: seq<T>)
    ensures |r| == n && forall i :: 0 <= i < n ==> r[i] == x
  {
    seq(n, _ => x)
  }

  /** The remote chat-completions service and the clock the back-off waits on. */
  class Endpoint {
    const respond: (nat, ChatRequest) -> Result<LlmResponse>
    var sent: seq<ChatRequest>
    var waits: seq<int>

    constructor(respond: (nat, ChatRequest) -> Result<LlmResponse>)
      ensures this.respond == respond && sent == [] && waits == []
    {
      this.respond := respond;
      sent := [];
      waits := [];
    }

    /** One HTTP call; every failure of `chat` is the oracle's `Failure`. */
    method Call(req: ChatRequest) returns (r: Result<LlmResponse>)
      modifies this
      ensures r == respond(|old(sent)|, req)
      ensures sent == old(sent) + [req] && waits == old(waits)
    {
      r := respond(|sent|, req);
      sent := sent + [req];
    }

    method Wait(ms: int)
      modifies this
      ensures waits == old(waits) + [ms] && sent == old(sent)
    {
      waits := waits + [ms];
    }
  }

  class LlmClient {
    const baseUrl: string
    const apiKey: string
    const model: string
    const temperature: real
    const maxTokens: int
    const timeout: int
    const endpoint: Endpoint

    /** `new LLMClient(options)` over the loaded config. */
    constructor(options: LlmOptions, config: Config, endpoint: Endpoint)
      ensures Current() == SettingsFor(options, config) && this.endpoint == endpoint
    {
      var s := SettingsFor(options, config);
      baseUrl := s.baseUrl;
      apiKey := s.apiKey;
      model := s.model;
      temperature := s.temperature;
      maxTokens := s.maxTokens;
      timeout := s.timeout;
      this.endpoint := endpoint;
    }

    function Current(): Settings {
      Settings(baseUrl, apiKey, model, temperature, maxTokens, timeout)
    }

    /** `chat`: one request with this client's settings. */
    method Chat(messages: seq<ChatMessage>) returns (r: Result<LlmResponse>)
      modifies endpoint
      ensures r == endpoint.respond(|old(endpoint.sent)|, RequestOf(Current(), messages))
      ensures endpoint.sent == old(endpoint.sent) + [RequestOf(Current(), messages)]
      ensures endpoint.waits == old(endpoint.waits)
    {
      r := endpoint.Call(RequestOf(Current(), messages));
    }

    /** `generate`: the messages are pushed one by one, then sent in one call. */
    method Generate(prompt: string, systemPrompt: Option<string>) returns (r: Result<LlmResponse>)
      modifies endpoint
      ensures r == endpoint.respond(|old(endpoint.sent)|, RequestOf(Current(), MessagesFor(prompt, systemPrompt)))
      ensures endpoint.sent == old(endpoint.sent) + [RequestOf(Current(), MessagesFor(prompt, systemPrompt))]
      ensures endpoint.waits == old(endpoint.waits)
    {
      var messages: seq<ChatMessage> := [];
      if systemPrompt.Some? && systemPrompt.value != "" {
        messages := messages + [ChatMessage("system", systemPrompt.value)];
      }
      messages := messages + [ChatMessage("user", prompt)];
      assert messages == MessagesFor(prompt, systemPrompt);
      r := Chat(messages);
    }

    /** `generateWithRetry`: up to `maxRetries + 1` attempts, returning the
        first success, waiting after each failed attempt but the last allowed,
        and throwing the last error when all fail. */
    method GenerateWithRetry(prompt: string, systemPrompt: Option<string>, maxRetries: int) returns (r: Result<LlmResponse>)
      modifies endpoint
      ensures var req := RequestOf(Current(), MessagesFor(prompt, systemPrompt));
        var base := |old(endpoint.sent)|;
        var n := Attempts(endpoint.respond, base, req, Budget(maxRetries));
        && r == RetryF(endpoint.respond, base, req, Budget(maxRetries), None)
        && endpoint.sent == old(endpoint.sent) + Repeat(req, n)
        && endpoint.waits == old(endpoint.waits) + RunWaits(r, n, maxRetries)
    {
      ghost var req := RequestOf(Current(), MessagesFor(prompt, systemPrompt));
      ghost var base := |endpoint.sent|;
      ghost var budget := Budget(maxRetries);
      var lastError: Option<string> := None;
      var i := 0;
      while i <= maxRetries
        invariant 0 <= i <= budget
        invariant maxRetries < 0 ==> i == 0
        invariant endpoint.sent == old(endpoint.sent) + Repeat(req, i)
        invariant endpoint.waits == old(endpoint.waits) + Backoffs(WaitCount(i, maxRetries))
        invariant RetryF(endpoint.respond, base, req, budget, None) == RetryF(endpoint.respond, base + i, req, budget - i, lastError)
        invariant Attempts(endpoint.respond, base, req, budget) == i + Attempts(endpoint.respond, base + i, req, budget - i)
        decreases maxRetries - i
      {
        var response := Generate(prompt, systemPrompt);
        if response.Success? {
          return response;
        }
        lastError := Some(response.error);
        if i < maxRetries {
          endpoint.Wait(1000 * (i + 1));
          assert Backoffs(WaitCount(i, maxRetries)) + [1000 * (i + 1)] == Backoffs(WaitCount(i + 1, maxRetries));
        }
        i := i + 1;
      }
      return Failure(lastError.GetOr(GenericFailure));
    }
  }

  /** The module-level `defaultClient` singleton. */
  class ClientRegistry {
    const config: Config
    const endpoint: Endpoint
    var defaultClient: LlmClient?

    constructor(config: Config, endpoint: Endpoint)
      ensures this.config == config && this.endpoint == endpoint && defaultClient == null
    {
      this.config := config;
      this.endpoint := endpoint;
      defaultClient := null;
    }

    /** A stored client was built from no options over this config and endpoint. */
    predicate Valid()
      reads this
    {
      defaultClient != null ==>
        defaultClient.endpoint == endpoint && defaultClient.Current() == SettingsFor(NoOptions, config)
    }

    /** `getDefaultLLMClient`: creates the client once, then returns that same client. */
    method GetDefaultLlmClient() returns (c: LlmClient)
      requires Valid()
      modifies this
      ensures Valid() && defaultClient == c
      ensures old(defaultClient) != null ==> c == old(defaultClient)
      ensures old(defaultClient) == null ==> fresh(c)
      ensures c.endpoint == endpoint && c.Current() == SettingsFor(NoOptions, config)
    {
      if defaultClient == null {
        defaultClient := new LlmClient(NoOptions, config, endpoint);
      }
      c := defaultClient;
    }
  }
}
