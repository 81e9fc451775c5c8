/** The provider factory and the `Provider` interface as a sum over the
    adapters. `groq.go` is not part of this model: a Groq provider is its key
    and configuration, and what its constructor and its `Generate` return
    are parameters. */
module Providers {
  import opened Errors
  import opened Config
  import opened AiCore
  import Anthropic
  import OpenAI
  import Cerebras
  import OpenRouter
  import Ollama

  /** A value of the `ai.Provider` interface. */
  datatype Provider =
    | AnthropicProvider(anthropic: Anthropic.Provider)
    | OpenAIProvider(openai: OpenAI.Provider)
    | CerebrasProvider(cerebras: Cerebras.Provider)
    | GroqProvider(apiKey: string, config: Config)
    | OpenRouterProvider(openrouter: OpenRouter.Provider)
    | OllamaProvider(ollama: Ollama.Provider)
  {
    /** `Name()`: the provider string that selects this adapter. */
    function Name(): string
    {
      match this
      case AnthropicProvider(_) => "anthropic"
      case OpenAIProvider(_) => "openai"
      case CerebrasProvider(_) => "cerebras"
      case GroqProvider(_, _) => "groq"
      case OpenRouterProvider(_) => "openrouter"
      case OllamaProvider(_) => "ollama"
    }

    /** The API key the adapter holds; Ollama holds none. */
    function ApiKey(): string
    {
      match this
      case AnthropicProvider(a) => a.apiKey
      case OpenAIProvider(o) => o.apiKey
      case CerebrasProvider(c) => c.apiKey
      case GroqProvider(key, _) => key
      case OpenRouterProvider(o) => o.apiKey
      case OllamaProvider(_) => ""
    }

    /** The configuration the provider was built with. */
    function Config(): Config
    {
      match this
      case AnthropicProvider(a) => a.config
      case OpenAIProvider(o) => o.config
      case CerebrasProvider(c) => c.config
      case GroqProvider(_, cfg) => cfg
      case OpenRouterProvider(o) => o.config
      case OllamaProvider(o) => o.config
    }
  }

  /** What `NewGroqProvider` reports for a key and a configuration. */
  type GroqConstructor = (string, Config) -> Option<Error>

  /** Builds the adapter named `provider` from a key and a configuration; a
      name outside the six yields None. */
  function Construct(provider: string, apiKey: string, cfg: Config, newGroq: GroqConstructor): (r: Option<Result<Provider>>)
    ensures r.Some? <==> IsValidProvider(provider)
    ensures r.Some? && r.value.Ok? ==> r.value.value.Name() == provider && r.value.value.Config() == cfg
    ensures provider in {"anthropic", "openai", "cerebras", "openrouter"} ==> (r.Some? && (r.value.Ok? <==> apiKey != ""))
    ensures provider == "ollama" ==> r.Some? && r.value.Ok?
    ensures provider == "groq" ==> r.Some? && (r.value.Ok? <==> newGroq(apiKey, cfg).None?)
    ensures r.Some? && r.value.Ok? ==> r.value.value.ApiKey() == (if provider == "ollama" then "" else apiKey)
    ensures provider == "ollama" ==> r.Some? && r.value.Ok? && r.value.value.ollama == Ollama.New(cfg).value
    ensures provider == "anthropic" && apiKey == "" ==> r == Some(Err(Leaf("Anthropic API key is required")))
    ensures provider == "openai" && apiKey == "" ==> r == Some(Err(Leaf("openAI API key is required")))
    ensures provider == "cerebras" && apiKey == "" ==> r == Some(Err(Leaf("cerebras API key is required")))
    ensures provider == "openrouter" && apiKey == "" ==> r == Some(Err(Leaf("openrouter API key is required")))
    ensures provider == "groq" && newGroq(apiKey, cfg).Some? ==> r == Some(Err(newGroq(apiKey, cfg).value))
  {
    if provider == "anthropic" then
      Some(match Anthropic.New(apiKey, cfg) case Ok(p) => Ok(AnthropicProvider(p)) case Err(e) => Err(e))
    else if provider == "openai" then
      Some(match OpenAI.New(apiKey, cfg) case Ok(p) => Ok(OpenAIProvider(p)) case Err(e) => Err(e))
    else if provider == "cerebras" then
      Some(match Cerebras.New(apiKey, cfg) case Ok(p) => Ok(CerebrasProvider(p)) case Err(e) => Err(e))
    else if provider == "groq" then
      Some(match newGroq(apiKey, cfg) case None => Ok(GroqProvider(apiKey, cfg)) case Some(e) => Err(e))
    else if provider == "openrouter" then
      Some(match OpenRouter.New(apiKey, cfg) case Ok(p) => Ok(OpenRouterProvider(p)) case Err(e) => Err(e))
    else if provider == "ollama" then
      Some(match Ollama.New(cfg) case Ok(p) => Ok(OllamaProvider(p)) case Err(e) => Err(e))
    else None
  }

  /** `NewProvider`: a key lookup failure is fatal except for "ollama"; the
      switch knows five providers and refuses every other name, "openrouter"
      included. */
  function NewProvider(cfg: Config, env: map<string, string>, newGroq: GroqConstructor): (r: Result<Provider>)
    ensures GetAPIKey(cfg, env).Err? && cfg.ai.provider != "ollama" ==>
              r == Err(Wrap("failed to get API key", Some(GetAPIKey(cfg, env).error)))
    ensures r.Ok? ==> r.value.Name() == cfg.ai.provider && r.value.Config() == cfg
    ensures r.Ok? ==> cfg.ai.provider in {"anthropic", "openai", "cerebras", "groq", "ollama"}
    ensures cfg.ai.provider == "ollama" ==> r.Ok?
    ensures cfg.ai.provider !in {"anthropic", "openai", "cerebras", "groq", "ollama"} && GetAPIKey(cfg, env).Ok? ==>
              r == Err(Leaf("unsupported AI provider: " + cfg.ai.provider))
    ensures cfg.ai.provider in {"anthropic", "openai", "cerebras", "groq", "ollama"}
            && (GetAPIKey(cfg, env).Ok? || cfg.ai.provider == "ollama") ==>
              r == Construct(cfg.ai.provider, if GetAPIKey(cfg, env).Ok? then GetAPIKey(cfg, env).value else "", cfg, newGroq).value
    ensures r.Ok? && GetAPIKey(cfg, env).Ok? ==>
              r.value.ApiKey() == (if cfg.ai.provider == "ollama" then "" else GetAPIKey(cfg, env).value)
  {
    var key := GetAPIKey(cfg, env);
    if key.Err? && cfg.ai.provider != "ollama" then Err(Wrap("failed to get API key", Some(key.error)))
    else
      var apiKey := if key.Ok? then key.value else "";
      if cfg.ai.provider !in {"anthropic", "openai", "cerebras", "groq", "ollama"} then
        Err(Leaf("unsupported AI provider: " + cfg.ai.provider))
      else
        Construct(cfg.ai.provider, apiKey, cfg, newGroq).value
  }

  /** A configuration `Validate` accepts with provider "openrouter" is still
      refused by the factory. */
  lemma OpenRouterRefused(cfg: Config, env: map<string, string>, newGroq: GroqConstructor)
    requires Validate(cfg).None? && cfg.ai.provider == "openrouter"
    ensures NewProvider(cfg, env, newGroq).Err?
  {
  }

  /** For the keyed adapters the factory succeeds exactly when a key
      variable is named and set: with no variable named, the empty key is
      refused by the adapter's own constructor. */
  lemma KeyedProviderNeedsKey(cfg: Config, env: map<string, string>, newGroq: GroqConstructor)
    requires cfg.ai.provider in {"anthropic", "openai", "cerebras"}
    ensures NewProvider(cfg, env, newGroq).Ok? <==> cfg.ai.apiKeyEnv != "" && Getenv(env, cfg.ai.apiKeyEnv) != ""
  {
  }

  /** The network as the adapters see it: one transport per wire format, the
      Groq adapter's whole `Generate`, and the context's cancellations. */
  datatype Network = Network(
    anthropic: (HttpRequest<Anthropic.Payload>, nat) -> Exchange<Anthropic.Envelope, Anthropic.Body>,
    chat: (HttpRequest<OpenAI.Payload>, nat) -> Exchange<OpenAI.Envelope, OpenAI.Body>,
    ollama: (HttpRequest<Ollama.Payload>, nat) -> Exchange<Ollama.NoEnvelope, Ollama.Body>,
    groq: (string, Config, Request) -> Generated,
    cancel: nat -> Option<Error>)

  /** `Provider.Generate`, dispatched to the adapter. */
  function Generate(p: Provider, req: Request, net: Network): Generated
  {
    match p
    case AnthropicProvider(a) => Anthropic.Generate(a, req, net.anthropic, net.cancel)
    case OpenAIProvider(o) => OpenAI.Generate(o, req, net.chat, net.cancel)
    case CerebrasProvider(c) => Cerebras.Generate(c, req, net.chat, net.cancel)
    case GroqProvider(key, cfg) => net.groq(key, cfg, req)
    case OpenRouterProvider(o) => OpenRouter.Generate(o, req, net.chat, net.cancel)
    case OllamaProvider(o) => Ollama.Generate(o, req, net.ollama, net.cancel)
  }

  /** The request the workflow hands to `Generate`. The Go `Provider`
      interface declares no `NewRequest`, and the Anthropic adapter defines
      none (the Groq adapter is not part of this model); the four adapters
      that do define one build the request as `RequestFromConfig` does, and
      the model uses that same request for Anthropic and Groq. */
  function NewRequest(p: Provider, prompt: string): (r: Request)
    ensures r == RequestFromConfig(p.Config(), prompt)
  {
    match p
    case AnthropicProvider(a) => RequestFromConfig(a.config, prompt)
    case OpenAIProvider(o) => OpenAI.NewRequest(o, prompt)
    case CerebrasProvider(c) => Cerebras.NewRequest(c, prompt)
    case GroqProvider(_, cfg) => RequestFromConfig(cfg, prompt)
    case OpenRouterProvider(o) => OpenRouter.NewRequest(o, prompt)
    case OllamaProvider(o) => Ollama.NewRequest(o, prompt)
  }
}
