/** The Cerebras adapter: OpenAI-compatible messages and responses, no price estimate. */
module Cerebras {
  import opened Errors
  import opened Config
  import opened AiCore
  import opened Retry
  import OpenAI

  const APIURL: string := "https://api.cerebras.ai/v1/chat/completions"

  /** `CerebrasProvider`. */
  datatype Provider = Provider(apiKey: string, config: Config)

  /** `NewCerebrasProvider`: refuses an empty key and nothing else. */
  function New(apiKey: string, cfg: Config): (r: Result<Provider>)
    ensures r.Ok? <==> apiKey != ""
    ensures r.Ok? ==> r.value == Provider(apiKey, cfg)
    ensures r.Err? ==> r.error == Leaf("cerebras API key is required")
  {
    if apiKey == "" then Err(Leaf("cerebras API key is required")) else Ok(Provider(apiKey, cfg))
  }

  /** `ValidateConfig`: the key is checked before the model. */
  function ValidateConfig(p: Provider): (e: Option<Error>)
    ensures e.None? <==> p.apiKey != "" && p.config.ai.model != ""
    ensures p.apiKey == "" ==> e == Some(Leaf("cerebras API key is not set"))
    ensures p.apiKey != "" && p.config.ai.model == "" ==> e == Some(Leaf("cerebras model is not specified"))
  {
    if p.apiKey == "" then Some(Leaf("cerebras API key is not set"))
    else if p.config.ai.model == "" then Some(Leaf("cerebras model is not specified"))
    else None
  }

  /** `NewRequest`: the configured defaults, exactly as `RequestFromConfig`. */
  function NewRequest(p: Provider, prompt: string): (r: Request)
    ensures r == RequestFromConfig(p.config, prompt)
  {
    Request(prompt, "", p.config.ai.model, p.config.ai.maxTokens, p.config.ai.temperature)
  }

  function BuildHttpRequest(p: Provider, req: Request): (r: HttpRequest<OpenAI.Payload>)
    ensures r.url == APIURL && r.headers == OpenAI.BearerHeaders(p.apiKey) && r.payload == OpenAI.BuildPayload(req)
  {
    HttpRequest(APIURL, OpenAI.BearerHeaders(p.apiKey), OpenAI.BuildPayload(req))
  }

  /** What one attempt returns for the exchange it had. A refusal whose
      envelope decodes but carries no message is reported with the status
      and the raw body. */
  function Interpret(x: Exchange<OpenAI.Envelope, OpenAI.Body>): (r: Result<Response>)
    ensures r.Ok? <==> x.Replied? && x.status == StatusOK && x.decoded.Ok? && |x.decoded.value.choices| > 0
    ensures x.Failed? ==> r == Err(StageError(x.stage, x.cause, "failed to send request"))
    ensures x.Replied? && x.status != StatusOK && x.envelope.Err? ==>
              r == Err(StatusError("API error", x.status, x.body))
    ensures x.Replied? && x.status != StatusOK && x.envelope.Ok? && x.envelope.value.message == "" ==>
              r == Err(StatusError("cerebras API error", x.status, x.body))
    ensures x.Replied? && x.status != StatusOK && x.envelope.Ok? && x.envelope.value.message != "" ==>
              r == Err(Leaf("cerebras API error: " + x.envelope.value.message))
    ensures x.Replied? && x.status == StatusOK && x.decoded.Err? ==>
              r == Err(Wrap("failed to parse response", Some(x.decoded.error)))
    ensures x.Replied? && x.status == StatusOK && x.decoded.Ok? && x.decoded.value.choices == [] ==>
              r == Err(Leaf("no choices in response"))
    ensures r.Ok? ==> r.value == OpenAI.FromFirstChoice(x.decoded.value, "cerebras", NoCost)
  {
    match x
    case Failed(stage, cause) => Err(StageError(stage, cause, "failed to send request"))
    case Replied(status, body, envelope, decoded) =>
      if status != StatusOK then
        match envelope
        case Err(_) => Err(StatusError("API error", status, body))
        case Ok(env) =>
          if env.message == "" then Err(StatusError("cerebras API error", status, body))
          else Err(Leaf("cerebras API error: " + env.message))
      else
        match decoded
        case Err(cause) => Err(Wrap("failed to parse response", Some(cause)))
        case Ok(b) =>
          if |b.choices| == 0 then Err(Leaf("no choices in response"))
          else Ok(OpenAI.FromFirstChoice(b, "cerebras", NoCost))
  }

  /** `generateOnce` as the retry engine calls it: the interpreted reply to
      the request sent on attempt `k`. */
  function Attempt(p: Provider, req: Request, transport: (HttpRequest<OpenAI.Payload>, nat) -> Exchange<OpenAI.Envelope, OpenAI.Body>): nat -> Result<Response>
  {
    (k: nat) => Interpret(transport(BuildHttpRequest(p, req), k))
  }

  /** `Generate`: validation, then `generateOnce` under the retry engine. */
  function Generate(p: Provider, req: Request,
                    transport: (HttpRequest<OpenAI.Payload>, nat) -> Exchange<OpenAI.Envelope, OpenAI.Body>,
                    cancel: nat -> Option<Error>): (g: Generated)
    ensures ValidateConfig(p).Some? ==> g.calls == 0 && g.result == Err(Wrap("invalid configuration", ValidateConfig(p)))
    ensures g.result.Ok? ==> g.result == Interpret(transport(BuildHttpRequest(p, req), g.calls))
    ensures ValidateConfig(p).None? ==> g.calls == Run(p.config.ai.retry, Outcomes(Attempt(p, req, transport)), cancel).calls
    ensures ValidateConfig(p).None? && g.result.Err? ==>
              Run(p.config.ai.retry, Outcomes(Attempt(p, req, transport)), cancel).result == Some(g.result.error)
  {
    GenerateWithRetry(ValidateConfig(p), p.config.ai.retry, Attempt(p, req, transport), cancel)
  }

}
