/** The records every provider adapter shares: the generation request and
    response, the abstract outcome of one HTTP exchange, and the guarded,
    retried `Generate` each adapter wraps around its single attempt.

    JSON encoding and decoding, header transport and the HTTP client are
    not modelled: one attempt's exchange is a value that says at which stage
    it failed, or what status and body came back and whether that body
    decodes as the vendor's error envelope and as its success body. */
module AiCore {
  import opened Errors
  import opened Text
  import opened Config
  import opened Retry

  /** `ai.Request`. */
  datatype Request = Request(prompt: string, systemPrompt: string, model: string, maxTokens: int, temperature: real)

  /** The price tiers the adapters choose between by model name. */
  datatype PriceTier =
    | ClaudeHaiku | ClaudeSonnet | ClaudeOpus
    | Gpt4oMini | Gpt4o | Gpt4Turbo | Gpt35Turbo

  /** The cost estimate: zero for the free adapters, otherwise a tier and
      the token counts it is applied to. */
  datatype Cost = NoCost | Priced(tier: PriceTier, inputTokens: int, outputTokens: int)

  /** A value of the `Metadata` map. */
  datatype MetaValue = MetaInt(i: int) | MetaString(s: string)

  /** `ai.Response`. */
  datatype Response = Response(content: string, tokensUsed: int, model: string, provider: string,
                               cost: Cost, metadata: map<string, MetaValue>)

  /** US dollars per million input and output tokens. */
  function Rates(tier: PriceTier): (r: (real, real))
    ensures 0.0 < r.0 < r.1
  {
    match tier
    case ClaudeHaiku => (0.80, 4.00)
    case ClaudeSonnet => (3.00, 15.00)
    case ClaudeOpus => (15.00, 75.00)
    case Gpt4oMini => (0.150, 0.600)
    case Gpt4o => (2.50, 10.00)
    case Gpt4Turbo => (10.00, 30.00)
    case Gpt35Turbo => (0.50, 1.50)
  }

  /** `RequestFromConfig`: a request for `prompt` using the configured model,
      token limit and temperature, with no system prompt. */
  function RequestFromConfig(cfg: Config, prompt: string): (r: Request)
    ensures r.prompt == prompt && r.systemPrompt == ""
    ensures r.model == cfg.ai.model && r.maxTokens == cfg.ai.maxTokens && r.temperature == cfg.ai.temperature
  {
    Request(prompt, "", cfg.ai.model, cfg.ai.maxTokens, cfg.ai.temperature)
  }

  /** An HTTP request as an adapter builds it: URL, headers and the payload
      that is marshalled into the body. */
  datatype HttpRequest<P> = HttpRequest(url: string, headers: map<string, string>, payload: P)

  const StatusOK: int := 200

  /** The steps of one attempt that can fail before a status is known. */
  datatype Stage = Marshal | Build | Send | Read

  /** The outcome of one exchange with the vendor: a failure at some stage,
      or a reply with its status, raw body and the result of decoding that
      body as the error envelope `E` and as the success body `B`. */
  datatype Exchange<E, B> =
    | Failed(stage: Stage, cause: Error)
    | Replied(status: int, body: string, envelope: Result<E>, decoded: Result<B>)

  /** The error of a failed stage; `sendContext` is the adapter's wording for
      a failed send. */
  function StageError(stage: Stage, cause: Error, sendContext: string): (e: Error)
    ensures e.Wrap? && e.cause == Some(cause)
  {
    match stage
    case Marshal => Wrap("failed to marshal request", Some(cause))
    case Build => Wrap("failed to create request", Some(cause))
    case Send => Wrap(sendContext, Some(cause))
    case Read => Wrap("failed to read response", Some(cause))
  }

  /** `fmt.Errorf("<prefix> (status %d): %s", status, body)`. */
  function StatusError(prefix: string, status: int, body: string): Error
  {
    Leaf(prefix + " (status " + IntToString(status) + "): " + body)
  }

  /** The error half of every attempt's result, as the retry engine sees it. */
  function Outcomes(once: nat -> Result<Response>): nat -> Option<Error>
  {
    (k: nat) => ErrorOf(once(k))
  }

  /** A `Generate` call: its result and how many single attempts it made. */
  datatype Generated = Generated(result: Result<Response>, calls: nat)

  /** The `Generate` method of every adapter: the configuration check comes
      first and a failure there is wrapped and returned before any attempt;
      otherwise the single attempt `once(k)` is retried under `retry`, and on
      success the response of the last, successful, attempt is returned. */
  function GenerateWithRetry(validation: Option<Error>, retry: RetryConfig,
                             once: nat -> Result<Response>, cancel: nat -> Option<Error>): (g: Generated)
    ensures validation.Some? ==> g == Generated(Err(Wrap("invalid configuration", validation)), 0)
    ensures validation.None? ==> g.calls == Run(retry, Outcomes(once), cancel).calls
    ensures validation.None? && g.result.Err? ==> Run(retry, Outcomes(once), cancel).result == Some(g.result.error)
    ensures g.result.Ok? ==> validation.None? && g.calls >= 1 && g.result == once(g.calls)
  {
    if validation.Some? then Generated(Err(Wrap("invalid configuration", validation)), 0)
    else
      var t := Run(retry, Outcomes(once), cancel);
      RunFromResult(retry, Outcomes(once), cancel, 1, None);
      match t.result
      case Some(e) => Generated(Err(e), t.calls)
      case None => Generated(once(t.calls), t.calls)
  }

  /** A first attempt that succeeds is the answer, whatever follows. */
  lemma GenerateFirstTry(retry: RetryConfig, once: nat -> Result<Response>, cancel: nat -> Option<Error>)
    requires retry.attempts >= 1 && once(1).Ok?
    ensures GenerateWithRetry(None, retry, once, cancel) == Generated(once(1), 1)
  {
    RunSucceedsAt(retry, Outcomes(once), cancel, 1);
  }

  /** When every attempt fails and nothing cancels the waits, `Generate`
      makes the configured number of attempts and reports the last one's
      error inside the "failed after N attempts" error. */
  lemma GenerateAllFail(retry: RetryConfig, once: nat -> Result<Response>, cancel: nat -> Option<Error>)
    requires retry.attempts >= 1
    requires forall k :: 1 <= k <= retry.attempts ==> once(k).Err?
    requires forall k :: 1 <= k < retry.attempts ==> cancel(k).None?
    ensures GenerateWithRetry(None, retry, once, cancel)
         == Generated(Err(FailedAfter(retry.attempts, Some(once(retry.attempts).error))), retry.attempts)
  {
    RunAlwaysFails(retry, Outcomes(once), cancel);
  }
}
