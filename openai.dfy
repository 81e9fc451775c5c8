/** The OpenAI chat-completions adapter, and the chat message and response
    records that the Cerebras and OpenRouter adapters reuse. */
module OpenAI {
  import opened Errors
  import opened Text
  import opened Config
  import opened AiCore
  import opened Retry

  const APIURL: string := "https://api.openai.com/v1/chat/completions"

  /** `OpenAIProvider`. */
  datatype Provider = Provider(apiKey: string, config: Config)

  /** `NewOpenAIProvider`: refuses an empty key and nothing else. */
  function New(apiKey: string, cfg: Config): (r: Result<Provider>)
    ensures r.Ok? <==> apiKey != ""
    ensures r.Ok? ==> r.value == Provider(apiKey, cfg)
    ensures r.Err? ==> r.error == Leaf("openAI API key is required")
  {
    if apiKey == "" then Err(Leaf("openAI API key is required")) else Ok(Provider(apiKey, cfg))
  }

  /** `ValidateConfig`: the key is checked before the model. */
  function ValidateConfig(p: Provider): (e: Option<Error>)
    ensures e.None? <==> p.apiKey != "" && p.config.ai.model != ""
    ensures p.apiKey == "" ==> e == Some(Leaf("openAI API key is not set"))
    ensures p.apiKey != "" && p.config.ai.model == "" ==> e == Some(Leaf("openAI model is not specified"))
  {
    if p.apiKey == "" then Some(Leaf("openAI API key is not set"))
    else if p.config.ai.model == "" then Some(Leaf("openAI model is not specified"))
    else None
  }

  /** `NewRequest`: the configured defaults, exactly as `RequestFromConfig`. */
  function NewRequest(p: Provider, prompt: string): (r: Request)
    ensures r == RequestFromConfig(p.config, prompt)
  {
    Request(prompt, "", p.config.ai.model, p.config.ai.maxTokens, p.config.ai.temperature)
  }

  /** `openaiMessage`. */
  datatype Message = Message(role: string, content: string)

  /** The chat messages of a request: a system message first when there is a
      system prompt, then exactly one user message holding the prompt. */
  function ChatMessages(req: Request): (m: seq<Message>)
    ensures |m| == if req.systemPrompt != "" then 2 else 1
    ensures m[|m| - 1] == Message("user", req.prompt)
    ensures req.systemPrompt != "" ==> m[0] == Message("system", req.systemPrompt)
    ensures forall i :: 0 <= i < |m| - 1 ==> m[i].role == "system"
  {
    (if req.systemPrompt != "" then [Message("system", req.systemPrompt)] else []) + [Message("user", req.prompt)]
  }

  /** The slice-appending construction of the messages in `generateOnce`. */
  method BuildMessages(req: Request) returns (messages: seq<Message>)
    ensures messages == ChatMessages(req)
  {
    messages := [];
    if req.systemPrompt != "" {
      messages := messages + [Message("system", req.systemPrompt)];
    }
    messages := messages + [Message("user", req.prompt)];
  }

  /** `openaiRequest`; a zero token limit and temperature are omitted from the JSON. */
  datatype Payload = Payload(model: string, messages: seq<Message>, maxTokens: int, temperature: real)

  /** The payload: the request model as given, with no alias mapping. */
  function BuildPayload(req: Request): (p: Payload)
    ensures p.model == req.model && p.messages == ChatMessages(req)
    ensures p.maxTokens == req.maxTokens && p.temperature == req.temperature
  {
    Payload(req.model, ChatMessages(req), req.maxTokens, req.temperature)
  }

  /** JSON content and a bearer token: the headers of all three chat adapters. */
  function BearerHeaders(apiKey: string): (h: map<string, string>)
    ensures h.Keys == {"Content-Type", "Authorization"}
    ensures h["Authorization"] == "Bearer " + apiKey && h["Content-Type"] == "application/json"
  {
    map["Content-Type" := "application/json", "Authorization" := "Bearer " + apiKey]
  }

  function BuildHttpRequest(p: Provider, req: Request): (r: HttpRequest<Payload>)
    ensures r.url == APIURL && r.headers == BearerHeaders(p.apiKey) && r.payload == BuildPayload(req)
  {
    HttpRequest(APIURL, BearerHeaders(p.apiKey), BuildPayload(req))
  }

  /** `openaiChoice`. */
  datatype Choice = Choice(message: Message, finishReason: string)

  /** `openaiResponse`, with its usage counts. */
  datatype Body = Body(id: string, model: string, choices: seq<Choice>,
                       promptTokens: int, completionTokens: int, totalTokens: int)

  /** `openaiError`: only the message is used. */
  datatype Envelope = Envelope(message: string)

  /** The response built from the first choice of a decoded body. */
  function FromFirstChoice(b: Body, provider: string, cost: Cost): (r: Response)
    requires |b.choices| > 0
    ensures r.content == b.choices[0].message.content && r.provider == provider
    ensures r.tokensUsed == b.totalTokens && r.model == b.model && r.cost == cost
    ensures "finish_reason" in r.metadata && r.metadata["finish_reason"] == MetaString(b.choices[0].finishReason)
  {
    Response(b.choices[0].message.content, b.totalTokens, b.model, provider, cost,
             map["prompt_tokens" := MetaInt(b.promptTokens), "completion_tokens" := MetaInt(b.completionTokens),
                 "finish_reason" := MetaString(b.choices[0].finishReason), "id" := MetaString(b.id)])
  }

  /** The price tier of `estimateCost`, chosen by the first substring the
      model name contains; "gpt-4o-mini" is checked before "gpt-4o", and an
      unknown model is priced as gpt-4o-mini. */
  function Tier(model: string): (t: PriceTier)
    ensures Contains(model, "gpt-4o-mini") ==> t == Gpt4oMini
    ensures t == Gpt4o ==> Contains(model, "gpt-4o") && !Contains(model, "gpt-4o-mini")
    ensures t == Gpt4Turbo ==> Contains(model, "gpt-4-turbo") && !Contains(model, "gpt-4o")
    ensures t == Gpt35Turbo ==> Contains(model, "gpt-3.5-turbo") && !Contains(model, "gpt-4o") && !Contains(model, "gpt-4-turbo")
    ensures t in {Gpt4oMini, Gpt4o, Gpt4Turbo, Gpt35Turbo}
  {
    if Contains(model, "gpt-4o-mini") then Gpt4oMini
    else if Contains(model, "gpt-4o") then Gpt4o
    else if Contains(model, "gpt-4-turbo") then Gpt4Turbo
    else if Contains(model, "gpt-3.5-turbo") then Gpt35Turbo
    else Gpt4oMini
  }

  /** Every mini model name also contains "gpt-4o", so the mini check must
      come first for mini models to get mini rates. */
  lemma MiniNamesContainGpt4o(model: string)
    requires Contains(model, "gpt-4o-mini")
    ensures Contains(model, "gpt-4o") && Tier(model) == Gpt4oMini
  {
    var k :| 0 <= k <= |model| && OccursAt(model, "gpt-4o-mini", k);
    assert model[k..k + 6] == model[k..k + 11][..6];
    assert OccursAt(model, "gpt-4o", k);
  }

  /** What one attempt returns for the exchange it had. */
  function Interpret(x: Exchange<Envelope, Body>): (r: Result<Response>)
    ensures r.Ok? <==> x.Replied? && x.status == StatusOK && x.decoded.Ok? && |x.decoded.value.choices| > 0
    ensures x.Failed? ==> r == Err(StageError(x.stage, x.cause, "failed to send request"))
    ensures x.Replied? && x.status != StatusOK ==>
              r == Err(if x.envelope.Err? then StatusError("API error", x.status, x.body)
                       else Leaf("OpenAI API error: " + x.envelope.value.message))
    ensures x.Replied? && x.status == StatusOK && x.decoded.Err? ==>
              r == Err(Wrap("failed to parse response", Some(x.decoded.error)))
    ensures x.Replied? && x.status == StatusOK && x.decoded.Ok? && x.decoded.value.choices == [] ==>
              r == Err(Leaf("no choices in response"))
    ensures r.Ok? ==> var b := x.decoded.value;
              r.value == FromFirstChoice(b, "openai", Priced(Tier(b.model), b.promptTokens, b.completionTokens))
  {
    match x
    case Failed(stage, cause) => Err(StageError(stage, cause, "failed to send request"))
    case Replied(status, body, envelope, decoded) =>
      if status != StatusOK then
        match envelope
        case Err(_) => Err(StatusError("API error", status, body))
        case Ok(env) => Err(Leaf("OpenAI API error: " + env.message))
      else
        match decoded
        case Err(cause) => Err(Wrap("failed to parse response", Some(cause)))
        case Ok(b) =>
          if |b.choices| == 0 then Err(Leaf("no choices in response"))
          else Ok(FromFirstChoice(b, "openai", Priced(Tier(b.model), b.promptTokens, b.completionTokens)))
  }

  /** `generateOnce` as the retry engine calls it: the interpreted reply to
      the request sent on attempt `k`. */
  function Attempt(p: Provider, req: Request, transport: (HttpRequest<Payload>, nat) -> Exchange<Envelope, Body>): nat -> Result<Response>
  {
    (k: nat) => Interpret(transport(BuildHttpRequest(p, req), k))
  }

  /** `Generate`: validation, then `generateOnce` under the retry engine. */
  function Generate(p: Provider, req: Request, transport: (HttpRequest<Payload>, nat) -> Exchange<Envelope, Body>,
                    cancel: nat -> Option<Error>): (g: Generated)
    ensures ValidateConfig(p).Some? ==> g.calls == 0 && g.result == Err(Wrap("invalid configuration", ValidateConfig(p)))
    ensures g.result.Ok? ==> g.result == Interpret(transport(BuildHttpRequest(p, req), g.calls))
    ensures ValidateConfig(p).None? ==> g.calls == Run(p.config.ai.retry, Outcomes(Attempt(p, req, transport)), cancel).calls
    ensures ValidateConfig(p).None? && g.result.Err? ==>
              Run(p.config.ai.retry, Outcomes(Attempt(p, req, transport)), cancel).result == Some(g.result.error)
  {
    GenerateWithRetry(ValidateConfig(p), p.config.ai.retry, Attempt(p, req, transport), cancel)
  }

}
