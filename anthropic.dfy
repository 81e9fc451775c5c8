/** The Anthropic Messages API adapter. */
module Anthropic {
  import opened Errors
  import opened Text
  import opened Config
  import opened AiCore
  import opened Retry

  const APIURL: string := "https://api.anthropic.com/v1/messages"
  const DefaultVersion: string := "2023-06-01"

  /** `AnthropicProvider`: the key and the configuration it was built with. */
  datatype Provider = Provider(apiKey: string, config: Config)

  /** `NewAnthropicProvider`: refuses an empty key and nothing else. */
  function New(apiKey: string, cfg: Config): (r: Result<Provider>)
    ensures r.Ok? <==> apiKey != ""
    ensures r.Ok? ==> r.value == Provider(apiKey, cfg)
    ensures r.Err? ==> r.error == Leaf("Anthropic API key is required")
  {
    if apiKey == "" then Err(Leaf("Anthropic API key is required")) else Ok(Provider(apiKey, cfg))
  }

  /** `ValidateConfig`: the key is checked before the model. */
  function ValidateConfig(p: Provider): (e: Option<Error>)
    ensures e.None? <==> p.apiKey != "" && p.config.ai.model != ""
    ensures p.apiKey == "" ==> e == Some(Leaf("Anthropic API key is not set"))
    ensures p.apiKey != "" && p.config.ai.model == "" ==> e == Some(Leaf("Anthropic model is not specified"))
  {
    if p.apiKey == "" then Some(Leaf("Anthropic API key is not set"))
    else if p.config.ai.model == "" then Some(Leaf("Anthropic model is not specified"))
    else None
  }

  /** The friendly names `normalizeModel` maps to dated model IDs. */
  const Aliases: map<string, string> := map[
    "claude-haiku-4-5" := "claude-3-5-haiku-20241022",
    "claude-sonnet-4-5" := "claude-3-5-sonnet-20241022",
    "claude-opus-4" := "claude-opus-4-20250514",
    "haiku" := "claude-3-5-haiku-20241022",
    "sonnet" := "claude-3-5-sonnet-20241022",
    "opus" := "claude-opus-4-20250514"
  ]

  /** `normalizeModel`: an alias becomes its dated ID, anything else is
      passed through as an ID already. */
  function NormalizeModel(model: string): (m: string)
    ensures model in Aliases ==> m == Aliases[model]
    ensures model !in Aliases ==> m == model
  {
    if model in Aliases then Aliases[model] else model
  }

  /** Normalising twice is normalising once: no dated ID is itself an alias. */
  lemma NormalizeModelIdempotent(model: string)
    ensures NormalizeModel(NormalizeModel(model)) == NormalizeModel(model)
  {
    if model in Aliases {
      assert "claude-3-5-haiku-20241022" !in Aliases;
      assert "claude-3-5-sonnet-20241022" !in Aliases;
      assert "claude-opus-4-20250514" !in Aliases;
    }
  }

  /** `anthropicMessage`. */
  datatype Message = Message(role: string, content: string)

  /** `anthropicRequest`; an empty `system` is omitted from the JSON. */
  datatype Payload = Payload(model: string, maxTokens: int, temperature: real, messages: seq<Message>, system: string)

  /** The payload of `generateOnce`: one user message holding the prompt,
      the normalised model, and the system prompt only when there is one. */
  function BuildPayload(req: Request): (p: Payload)
    ensures p.messages == [Message("user", req.prompt)]
    ensures p.model == NormalizeModel(req.model)
    ensures p.maxTokens == req.maxTokens && p.temperature == req.temperature
    ensures p.system == req.systemPrompt
  {
    var base := Payload(NormalizeModel(req.model), req.maxTokens, req.temperature, [Message("user", req.prompt)], "");
    if req.systemPrompt != "" then base.(system := req.systemPrompt) else base
  }

  /** The request headers: JSON content, the key, and the API version, which
      `Custom["anthropic_version"]` overrides. */
  function Headers(p: Provider): (h: map<string, string>)
    ensures h.Keys == {"Content-Type", "x-api-key", "anthropic-version"}
    ensures h["x-api-key"] == p.apiKey && h["Content-Type"] == "application/json"
    ensures "anthropic_version" in p.config.ai.custom ==> h["anthropic-version"] == p.config.ai.custom["anthropic_version"]
    ensures "anthropic_version" !in p.config.ai.custom ==> h["anthropic-version"] == DefaultVersion
  {
    var h := map["Content-Type" := "application/json", "x-api-key" := p.apiKey, "anthropic-version" := DefaultVersion];
    if "anthropic_version" in p.config.ai.custom then h["anthropic-version" := p.config.ai.custom["anthropic_version"]] else h
  }

  function BuildHttpRequest(p: Provider, req: Request): (r: HttpRequest<Payload>)
    ensures r.url == APIURL && r.headers == Headers(p) && r.payload == BuildPayload(req)
  {
    HttpRequest(APIURL, Headers(p), BuildPayload(req))
  }

  /** `anthropicContent`. */
  datatype ContentBlock = ContentBlock(kind: string, text: string)

  /** `anthropicResponse`, with its usage counts. */
  datatype Body = Body(id: string, content: seq<ContentBlock>, model: string, inputTokens: int, outputTokens: int)

  /** `anthropicError`: only the message is used. */
  datatype Envelope = Envelope(message: string)

  /** The text of the "text" blocks, in order; other blocks contribute nothing. */
  function TextOf(blocks: seq<ContentBlock>): string
  {
    if blocks == [] then ""
    else TextOf(blocks[..|blocks| - 1]) + (if blocks[|blocks| - 1].kind == "text" then blocks[|blocks| - 1].text else "")
  }

  /** The text of a concatenation is the concatenation of the texts. */
  lemma {:induction false} TextOfAppend(a: seq<ContentBlock>, b: seq<ContentBlock>)
    ensures TextOf(a + b) == TextOf(a) + TextOf(b)
    decreases |b|
  {
    if b == [] {
      assert a + b == a;
    } else {
      assert (a + b)[..|a + b| - 1] == a + b[..|b| - 1];
      TextOfAppend(a, b[..|b| - 1]);
    }
  }

  /** Only "text" blocks contribute: a response without any yields "". */
  lemma {:induction false} TextOfNoText(blocks: seq<ContentBlock>)
    requires forall i :: 0 <= i < |blocks| ==> blocks[i].kind != "text"
    ensures TextOf(blocks) == ""
  {
    if blocks != [] {
      TextOfNoText(blocks[..|blocks| - 1]);
    }
  }

  /** The `strings.Builder` loop of `generateOnce` over the content blocks. */
  method ConcatText(blocks: seq<ContentBlock>) returns (content: string)
    ensures content == TextOf(blocks)
  {
    content := "";
    var i := 0;
    while i < |blocks|
      invariant 0 <= i <= |blocks|
      invariant content == TextOf(blocks[..i])
    {
      var block := blocks[i];
      if block.kind == "text" {
        content := content + block.text;
      }
      assert blocks[..i + 1][..i] == blocks[..i];
      i := i + 1;
    }
    assert blocks[..i] == blocks;
  }

  /** The price tier of `estimateCost`: the first of "haiku", "sonnet" and
      "opus" the model name contains, and haiku when it contains none. */
  function Tier(model: string): (t: PriceTier)
    ensures t == ClaudeHaiku || t == ClaudeSonnet || t == ClaudeOpus
    ensures t == ClaudeSonnet ==> Contains(model, "sonnet") && !Contains(model, "haiku")
    ensures t == ClaudeOpus ==> Contains(model, "opus") && !Contains(model, "haiku") && !Contains(model, "sonnet")
    ensures Contains(model, "haiku") ==> t == ClaudeHaiku
  {
    if Contains(model, "haiku") then ClaudeHaiku
    else if Contains(model, "sonnet") then ClaudeSonnet
    else if Contains(model, "opus") then ClaudeOpus
    else ClaudeHaiku
  }

  lemma HaikuIdTier()
    ensures Tier("claude-3-5-haiku-20241022") == ClaudeHaiku
  {
    assert OccursAt("claude-3-5-haiku-20241022", "haiku", 11);
  }

  lemma SonnetIdTier()
    ensures Tier("claude-3-5-sonnet-20241022") == ClaudeSonnet
  {
    MissingCharNotContained("claude-3-5-sonnet-20241022", "haiku", 'h');
    assert OccursAt("claude-3-5-sonnet-20241022", "sonnet", 11);
  }

  lemma OpusIdTier()
    ensures Tier("claude-opus-4-20250514") == ClaudeOpus
  {
    MissingCharNotContained("claude-opus-4-20250514", "haiku", 'h');
    MissingCharNotContained("claude-opus-4-20250514", "sonnet", 'n');
    assert OccursAt("claude-opus-4-20250514", "opus", 7);
  }

  /** Every alias is priced as the family its name says. */
  lemma AliasTier(alias: string)
    requires alias in Aliases
    ensures Tier(NormalizeModel(alias)) ==
              if alias in {"claude-haiku-4-5", "haiku"} then ClaudeHaiku
              else if alias in {"claude-sonnet-4-5", "sonnet"} then ClaudeSonnet
              else ClaudeOpus
  {
    HaikuIdTier();
    SonnetIdTier();
    OpusIdTier();
  }

  /** What one attempt returns for the exchange it had; `model` is the
      normalised request model the price tier is chosen by. */
  function Interpret(model: string, x: Exchange<Envelope, Body>): (r: Result<Response>)
    ensures r.Ok? <==> x.Replied? && x.status == StatusOK && x.decoded.Ok?
    ensures x.Failed? ==> r == Err(StageError(x.stage, x.cause, "failed to send request"))
    ensures x.Replied? && x.status != StatusOK ==>
              r == Err(if x.envelope.Err? then StatusError("API error", x.status, x.body)
                       else Leaf("Anthropic API error: " + x.envelope.value.message))
    ensures x.Replied? && x.status == StatusOK && x.decoded.Err? ==>
              r == Err(Wrap("failed to parse response", Some(x.decoded.error)))
    ensures r.Ok? ==> var b := x.decoded.value;
              r.value.content == TextOf(b.content) && r.value.provider == "anthropic"
              && r.value.model == b.model && r.value.tokensUsed == b.inputTokens + b.outputTokens
              && r.value.cost == Priced(Tier(model), b.inputTokens, b.outputTokens)
  {
    match x
    case Failed(stage, cause) => Err(StageError(stage, cause, "failed to send request"))
    case Replied(status, body, envelope, decoded) =>
      if status != StatusOK then
        match envelope
        case Err(_) => Err(StatusError("API error", status, body))
        case Ok(env) => Err(Leaf("Anthropic API error: " + env.message))
      else
        match decoded
        case Err(cause) => Err(Wrap("failed to parse response", Some(cause)))
        case Ok(b) =>
          Ok(Response(TextOf(b.content), b.inputTokens + b.outputTokens, b.model, "anthropic",
                      Priced(Tier(model), b.inputTokens, b.outputTokens),
                      map["input_tokens" := MetaInt(b.inputTokens), "output_tokens" := MetaInt(b.outputTokens),
                          "id" := MetaString(b.id)]))
  }

  /** A successful reply with no content blocks is an empty response, not an error. */
  lemma EmptyContentIsNoError(model: string, status: int, body: string, envelope: Result<Envelope>, b: Body)
    requires status == StatusOK && b.content == []
    ensures var r := Interpret(model, Replied(status, body, envelope, Ok(b)));
            r.Ok? && r.value.content == ""
  {
  }

  /** `generateOnce` as the retry engine calls it: the interpreted reply to
      the request sent on attempt `k`. */
  function Attempt(p: Provider, req: Request, transport: (HttpRequest<Payload>, nat) -> Exchange<Envelope, Body>): nat -> Result<Response>
  {
    (k: nat) => Interpret(NormalizeModel(req.model), transport(BuildHttpRequest(p, req), k))
  }

  /** `Generate`: validation, then `generateOnce` under the retry engine, each
      attempt sending the same request through `transport`. */
  function Generate(p: Provider, req: Request, transport: (HttpRequest<Payload>, nat) -> Exchange<Envelope, Body>,
                    cancel: nat -> Option<Error>): (g: Generated)
    ensures ValidateConfig(p).Some? ==> g.calls == 0 && g.result == Err(Wrap("invalid configuration", ValidateConfig(p)))
    ensures g.result.Ok? ==>
              g.result == Interpret(NormalizeModel(req.model), transport(BuildHttpRequest(p, req), g.calls))
    ensures ValidateConfig(p).None? ==> g.calls == Run(p.config.ai.retry, Outcomes(Attempt(p, req, transport)), cancel).calls
    ensures ValidateConfig(p).None? && g.result.Err? ==>
              Run(p.config.ai.retry, Outcomes(Attempt(p, req, transport)), cancel).result == Some(g.result.error)
  {
    GenerateWithRetry(ValidateConfig(p), p.config.ai.retry, Attempt(p, req, transport), cancel)
  }

}
