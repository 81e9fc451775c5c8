/** The adapter for a local Ollama server: no key, a configurable base URL,
    the system prompt folded into the prompt text, and no error envelope. */
module Ollama {
  import opened Errors
  import opened Text
  import opened Config
  import opened AiCore
  import opened Retry

  const DefaultBaseURL: string := "http://localhost:11434"

  /** `OllamaProvider`: the configuration and the server it talks to. */
  datatype Provider = Provider(config: Config, baseURL: string)

  /** `NewOllamaProvider`: never fails; the base URL is `Custom["ollama_url"]`
      when present, the local default otherwise. */
  function New(cfg: Config): (r: Result<Provider>)
    ensures r.Ok? && r.value.config == cfg
    ensures r.value.baseURL == if "ollama_url" in cfg.ai.custom then cfg.ai.custom["ollama_url"] else DefaultBaseURL
  {
    var baseURL := if "ollama_url" in cfg.ai.custom then cfg.ai.custom["ollama_url"] else DefaultBaseURL;
    Ok(Provider(cfg, baseURL))
  }

  /** `ValidateConfig`: only the model is required. */
  function ValidateConfig(p: Provider): (e: Option<Error>)
    ensures e.None? <==> p.config.ai.model != ""
    ensures e.Some? ==> e == Some(Leaf("Ollama model is not specified"))
  {
    if p.config.ai.model == "" then Some(Leaf("Ollama model is not specified")) else None
  }

  /** `NewRequest`: the configured defaults, exactly as `RequestFromConfig`. */
  function NewRequest(p: Provider, prompt: string): (r: Request)
    ensures r == RequestFromConfig(p.config, prompt)
  {
    Request(prompt, "", p.config.ai.model, p.config.ai.maxTokens, p.config.ai.temperature)
  }

  /** The prompt text sent: the user prompt alone, or the system prompt and
      the user prompt in labelled paragraphs. */
  function PromptText(req: Request): (s: string)
    ensures req.systemPrompt == "" ==> s == req.prompt
    ensures req.systemPrompt != "" ==> s == "System: " + req.systemPrompt + "\n\nUser: " + req.prompt
  {
    if req.systemPrompt != "" then "System: " + req.systemPrompt + "\n\nUser: " + req.prompt else req.prompt
  }

  /** The prompt text ends with the user prompt whether or not a system
      prompt is folded in. */
  lemma PromptTextEndsWithPrompt(req: Request)
    ensures |req.prompt| <= |PromptText(req)|
    ensures PromptText(req)[|PromptText(req)| - |req.prompt|..] == req.prompt
  {
    var s := PromptText(req);
    if req.systemPrompt != "" {
      var head := "System: " + req.systemPrompt + "\n\nUser: ";
      assert s == head + req.prompt;
      assert s[|head|..] == req.prompt;
    } else {
      assert s[0..] == s;
    }
  }

  /** `ollamaRequest`: the response is asked for in one piece. */
  datatype Payload = Payload(model: string, prompt: string, stream: bool)

  /** The `generateOnce` steps that reassign the local prompt and fill the payload. */
  method BuildPayload(req: Request) returns (p: Payload)
    ensures p == Payload(req.model, PromptText(req), false)
  {
    var prompt := req.prompt;
    if req.systemPrompt != "" {
      prompt := "System: " + req.systemPrompt + "\n\nUser: " + req.prompt;
    }
    p := Payload(req.model, prompt, false);
  }

  /** The request: `<base URL>/api/generate`, JSON content, no credentials. */
  function BuildHttpRequest(p: Provider, req: Request): (r: HttpRequest<Payload>)
    ensures r.url == p.baseURL + "/api/generate"
    ensures r.headers == map["Content-Type" := "application/json"]
    ensures r.payload == Payload(req.model, PromptText(req), false)
  {
    HttpRequest(p.baseURL + "/api/generate", map["Content-Type" := "application/json"],
                Payload(req.model, PromptText(req), false))
  }

  /** `ollamaResponse`. */
  datatype Body = Body(model: string, createdAt: string, response: string, done: bool)

  /** Ollama has no error envelope; a refusal is reported with its status and body. */
  datatype NoEnvelope = NoEnvelope

  /** What one attempt returns for the exchange it had. An empty response
      text is an empty response, not an error. */
  function Interpret(x: Exchange<NoEnvelope, Body>): (r: Result<Response>)
    ensures r.Ok? <==> x.Replied? && x.status == StatusOK && x.decoded.Ok?
    ensures x.Failed? ==> r == Err(StageError(x.stage, x.cause, "failed to send request (is Ollama running?)"))
    ensures x.Replied? && x.status != StatusOK ==> r == Err(StatusError("Ollama API error", x.status, x.body))
    ensures x.Replied? && x.status == StatusOK && x.decoded.Err? ==>
              r == Err(Wrap("failed to parse response", Some(x.decoded.error)))
    ensures r.Ok? ==> var b := x.decoded.value;
              r.value == Response(b.response, 0, b.model, "ollama", NoCost, map["created_at" := MetaString(b.createdAt)])
  {
    match x
    case Failed(stage, cause) => Err(StageError(stage, cause, "failed to send request (is Ollama running?)"))
    case Replied(status, body, _, decoded) =>
      if status != StatusOK then Err(StatusError("Ollama API error", status, body))
      else
        match decoded
        case Err(cause) => Err(Wrap("failed to parse response", Some(cause)))
        case Ok(b) => Ok(Response(b.response, 0, b.model, "ollama", NoCost, map["created_at" := MetaString(b.createdAt)]))
  }

  /** `generateOnce` as the retry engine calls it: the interpreted reply to
      the request sent on attempt `k`. */
  function Attempt(p: Provider, req: Request, transport: (HttpRequest<Payload>, nat) -> Exchange<NoEnvelope, Body>): nat -> Result<Response>
  {
    (k: nat) => Interpret(transport(BuildHttpRequest(p, req), k))
  }

  /** `Generate`: validation, then `generateOnce` under the retry engine. */
  function Generate(p: Provider, req: Request, transport: (HttpRequest<Payload>, nat) -> Exchange<NoEnvelope, Body>,
                    cancel: nat -> Option<Error>): (g: Generated)
    ensures ValidateConfig(p).Some? ==> g.calls == 0 && g.result == Err(Wrap("invalid configuration", ValidateConfig(p)))
    ensures g.result.Ok? ==> g.result == Interpret(transport(BuildHttpRequest(p, req), g.calls))
    ensures ValidateConfig(p).None? ==> g.calls == Run(p.config.ai.retry, Outcomes(Attempt(p, req, transport)), cancel).calls
    ensures ValidateConfig(p).None? && g.result.Err? ==>
              Run(p.config.ai.retry, Outcomes(Attempt(p, req, transport)), cancel).result == Some(g.result.error)
  {
    GenerateWithRetry(ValidateConfig(p), p.config.ai.retry, Attempt(p, req, transport), cancel)
  }

}
