/** The configuration record, its defaults, validation and the resolution of
    the polish stage's provider, model and API key (internal/config/config.go).
    Durations are nanoseconds; the environment is a map from variable names to
    values. */
module Config {
  import opened Errors
  import opened Text

  datatype RetryConfig = RetryConfig(attempts: int, backoff: string, initialDelay: int)

  datatype PolishConfig = PolishConfig(
    enabled: bool,
    polishModel: string,
    polishProvider: string,
    polishApiKeyEnv: string,
    polishPrompt: string,
    polishMaxTokens: int,
    polishTemperature: real)

  datatype AIConfig = AIConfig(
    provider: string,
    model: string,
    apiKeyEnv: string,
    maxTokens: int,
    temperature: real,
    timeout: int,
    retry: RetryConfig,
    custom: map<string, string>,
    polish: PolishConfig)

  datatype OutputConfig = OutputConfig(format: string, sections: seq<string>, template: string)

  datatype FileFilters = FileFilters(includePatterns: seq<string>, excludePatterns: seq<string>, autoExcludeMeta: bool)

  datatype CommitFilters = CommitFilters(excludeAuthors: seq<string>, excludePatterns: seq<string>)

  datatype FiltersConfig = FiltersConfig(files: FileFilters, commits: CommitFilters)

  datatype Config = Config(version: string, ai: AIConfig, output: OutputConfig, filters: FiltersConfig)

  const Second: int := 1_000_000_000

  /** The six provider names that configuration accepts. */
  predicate IsValidProvider(p: string)
  {
    p in {"anthropic", "openai", "cerebras", "groq", "openrouter", "ollama"}
  }

  predicate IsValidBackoff(b: string)
  {
    b in {"exponential", "linear", "constant"}
  }

  /** The patterns excluded from the context when AutoExcludeMeta is set. */
  function MetaExclusions(): seq<string>
  {
    ["CHANGELOG.md", "README.md", ".github/**", ".vscode/**", ".idea/**",
     "*.example.*", ".promptext-notes*.yml", "**/.gitignore", "**/.*ignore"]
  }

  const DefaultRetry: RetryConfig := RetryConfig(3, "exponential", 2 * Second)
  const DefaultSections: seq<string> := ["breaking", "added", "changed", "fixed", "docs"]
  const DefaultIncludes: seq<string> := ["*.go", "*.md", "*.yml", "*.yaml", "*.json"]
  const DefaultExcludes: seq<string> := ["*_test.go", "vendor/*", "node_modules/*", ".git/*"]
  const DefaultExcludeAuthors: seq<string> := ["dependabot[bot]", "renovate[bot]"]
  const DefaultExcludePatterns: seq<string> := ["^Merge pull request", "^Merge branch"]

  /** The built-in configuration: it is valid, polish is off and it uses the
      Anthropic defaults. */
  function Default(): (c: Config)
    ensures Validate(c) == None
    ensures c.ai.provider == "anthropic" && c.ai.model == GetDefaultModel("anthropic")
    ensures c.ai.apiKeyEnv == GetDefaultAPIKeyEnv("anthropic")
    ensures !c.ai.polish.enabled && c.ai.retry == DefaultRetry
  {
    Config(
      "1",
      AIConfig("anthropic", "claude-haiku-4-5", "ANTHROPIC_API_KEY", 8000, 0.3, 30 * Second,
               DefaultRetry, map[],
               PolishConfig(false, "", "", "", "", 4000, 0.3)),
      OutputConfig("keepachangelog", DefaultSections, ""),
      FiltersConfig(
        FileFilters(DefaultIncludes, DefaultExcludes, true),
        CommitFilters(DefaultExcludeAuthors, DefaultExcludePatterns)))
  }

  /** The API key variable of each provider; Ollama and unknown names have none. */
  function GetDefaultAPIKeyEnv(provider: string): (env: string)
    ensures env != "" <==> IsValidProvider(provider) && provider != "ollama"
  {
    match provider
    case "anthropic" => "ANTHROPIC_API_KEY"
    case "openai" => "OPENAI_API_KEY"
    case "cerebras" => "CEREBRAS_API_KEY"
    case "groq" => "GROQ_API_KEY"
    case "openrouter" => "OPENROUTER_API_KEY"
    case "ollama" => ""
    case _ => ""
  }

  /** The default model of each provider; exactly the six known providers have one. */
  function GetDefaultModel(provider: string): (model: string)
    ensures model != "" <==> IsValidProvider(provider)
  {
    match provider
    case "anthropic" => "claude-haiku-4-5"
    case "openai" => "gpt-4o-mini"
    case "cerebras" => "llama-3.3-70b"
    case "groq" => "llama-3.3-70b-versatile"
    case "openrouter" => "openai/gpt-4o-mini"
    case "ollama" => "llama3.2"
    case _ => ""
  }

  /** `os.Getenv`: an unset variable reads as the empty string. */
  function Getenv(env: map<string, string>, name: string): string
  {
    if name in env then env[name] else ""
  }

  /** The main stage's API key: nothing to look up for an empty variable name,
      an error naming the variable when it is unset or empty. */
  function GetAPIKey(c: Config, env: map<string, string>): (r: Result<string>)
    ensures c.ai.apiKeyEnv == "" ==> r == Ok("")
    ensures c.ai.apiKeyEnv != "" ==> (r.Ok? <==> Getenv(env, c.ai.apiKeyEnv) != "")
    ensures r.Ok? && c.ai.apiKeyEnv != "" ==> c.ai.apiKeyEnv in env && r.value == env[c.ai.apiKeyEnv]
    ensures r.Err? ==> r.error == Leaf("API key not found in environment variable: " + c.ai.apiKeyEnv)
  {
    if c.ai.apiKeyEnv == "" then Ok("")
    else
      var key := Getenv(env, c.ai.apiKeyEnv);
      if key == "" then Err(Leaf("API key not found in environment variable: " + c.ai.apiKeyEnv))
      else Ok(key)
  }

  /** The first failing check, in the order provider, max tokens, temperature,
      backoff, polish provider; None when the configuration is valid. */
  function Validate(c: Config): (r: Option<Error>)
    ensures r == None <==>
      && IsValidProvider(c.ai.provider)
      && c.ai.maxTokens > 0
      && 0.0 <= c.ai.temperature <= 1.0
      && IsValidBackoff(c.ai.retry.backoff)
      && (c.ai.polish.enabled ==> IsValidProvider(GetPolishProvider(c)))
    ensures !IsValidProvider(c.ai.provider) ==>
      r == Some(Leaf("invalid AI provider: " + c.ai.provider + " (supported: anthropic, openai, cerebras, groq, openrouter, ollama)"))
    ensures IsValidProvider(c.ai.provider) && c.ai.maxTokens <= 0 ==>
      r == Some(Leaf("max_tokens must be positive, got: " + IntToString(c.ai.maxTokens)))
    ensures IsValidProvider(c.ai.provider) && c.ai.maxTokens > 0
            && (c.ai.temperature < 0.0 || c.ai.temperature > 1.0) ==>
      r == Some(Leaf("temperature must be between 0 and 1"))
    ensures IsValidProvider(c.ai.provider) && c.ai.maxTokens > 0 && 0.0 <= c.ai.temperature <= 1.0
            && !IsValidBackoff(c.ai.retry.backoff) ==>
      r == Some(Leaf("invalid backoff strategy: " + c.ai.retry.backoff + " (supported: exponential, linear, constant)"))
    ensures IsValidProvider(c.ai.provider) && c.ai.maxTokens > 0 && 0.0 <= c.ai.temperature <= 1.0
            && IsValidBackoff(c.ai.retry.backoff)
            && c.ai.polish.enabled && !IsValidProvider(GetPolishProvider(c)) ==>
      r == Some(Leaf("invalid polish provider: " + GetPolishProvider(c) + " (supported: anthropic, openai, cerebras, groq, openrouter, ollama)"))
  {
    if !IsValidProvider(c.ai.provider) then
      Some(Leaf("invalid AI provider: " + c.ai.provider + " (supported: anthropic, openai, cerebras, groq, openrouter, ollama)"))
    else if c.ai.maxTokens <= 0 then
      Some(Leaf("max_tokens must be positive, got: " + IntToString(c.ai.maxTokens)))
    else if c.ai.temperature < 0.0 || c.ai.temperature > 1.0 then
      Some(Leaf("temperature must be between 0 and 1"))
    else if !IsValidBackoff(c.ai.retry.backoff) then
      Some(Leaf("invalid backoff strategy: " + c.ai.retry.backoff + " (supported: exponential, linear, constant)"))
    else if c.ai.polish.enabled && !IsValidProvider(GetPolishProvider(c)) then
      Some(Leaf("invalid polish provider: " + GetPolishProvider(c) + " (supported: anthropic, openai, cerebras, groq, openrouter, ollama)"))
    else None
  }

  /** The polish provider: the polish field when set, else the main provider. */
  function GetPolishProvider(c: Config): (p: string)
    ensures c.ai.polish.polishProvider != "" ==> p == c.ai.polish.polishProvider
    ensures c.ai.polish.polishProvider == "" ==> p == c.ai.provider
  {
    if c.ai.polish.polishProvider != "" then c.ai.polish.polishProvider else c.ai.provider
  }

  /** The polish model: the polish field when set, else the main model. */
  function GetPolishModel(c: Config): (m: string)
    ensures c.ai.polish.polishModel != "" ==> m == c.ai.polish.polishModel
    ensures c.ai.polish.polishModel == "" ==> m == c.ai.model
  {
    if c.ai.polish.polishModel != "" then c.ai.polish.polishModel else c.ai.model
  }

  /** The polish key variable: the polish field when set, else the default
      variable of the polish provider; the main APIKeyEnv is never consulted. */
  function GetPolishAPIKeyEnv(c: Config): (env: string)
    ensures c.ai.polish.polishApiKeyEnv != "" ==> env == c.ai.polish.polishApiKeyEnv
    ensures c.ai.polish.polishApiKeyEnv == "" ==> env == GetDefaultAPIKeyEnv(GetPolishProvider(c))
  {
    if c.ai.polish.polishApiKeyEnv != "" then c.ai.polish.polishApiKeyEnv
    else GetDefaultAPIKeyEnv(GetPolishProvider(c))
  }

  /** The polish stage's API key. When the polish provider is the main one the
      main key is reused and PolishAPIKeyEnv is ignored; otherwise the polish
      variable is read, with its own error. */
  function GetPolishAPIKey(c: Config, env: map<string, string>): (r: Result<string>)
    ensures GetPolishProvider(c) == c.ai.provider ==> r == GetAPIKey(c, env)
    ensures GetPolishProvider(c) != c.ai.provider && GetPolishAPIKeyEnv(c) == "" ==> r == Ok("")
    ensures GetPolishProvider(c) != c.ai.provider && GetPolishAPIKeyEnv(c) != "" ==>
      (r.Ok? <==> Getenv(env, GetPolishAPIKeyEnv(c)) != "") &&
      (r.Ok? ==> r.value == Getenv(env, GetPolishAPIKeyEnv(c))) &&
      (r.Err? ==> r.error == Leaf("polish API key not found in environment variable: " + GetPolishAPIKeyEnv(c)))
  {
    var polishProvider := GetPolishProvider(c);
    if polishProvider == c.ai.provider then GetAPIKey(c, env)
    else
      var apiKeyEnv := GetPolishAPIKeyEnv(c);
      if apiKeyEnv == "" then Ok("")
      else
        var key := Getenv(env, apiKeyEnv);
        if key == "" then Err(Leaf("polish API key not found in environment variable: " + apiKeyEnv))
        else Ok(key)
  }

  /** Polish settings left empty inherit provider and model from the main stage. */
  lemma PolishInheritsMain(c: Config, env: map<string, string>)
    requires c.ai.polish.polishProvider == "" && c.ai.polish.polishModel == ""
    ensures GetPolishProvider(c) == c.ai.provider && GetPolishModel(c) == c.ai.model
    ensures GetPolishAPIKey(c, env) == GetAPIKey(c, env)
  {
  }

  // ---------------------------------------------------------------------------
  // mergeUnique

  predicate NoDuplicates(s: seq<string>)
  {
    forall i, j :: 0 <= i < j < |s| ==> s[i] != s[j]
  }

  /** The first occurrences of the elements of `s`, in order. */
  function Dedup(s: seq<string>): seq<string>
  {
    if s == [] then []
    else
      var d := Dedup(s[..|s| - 1]);
      if s[|s| - 1] in d then d else d + [s[|s| - 1]]
  }

  /** Deduplication neither loses nor invents elements. */
  lemma {:induction false} DedupElements(s: seq<string>)
    ensures forall x :: x in Dedup(s) <==> x in s
  {
    if s != [] {
      var init := s[..|s| - 1];
      DedupElements(init);
      assert s == init + [s[|s| - 1]];
    }
  }

  /** Deduplication leaves no element twice. */
  lemma {:induction false} DedupNoDuplicates(s: seq<string>)
    ensures NoDuplicates(Dedup(s))
  {
    if s != [] {
      DedupNoDuplicates(s[..|s| - 1]);
    }
  }

  /** Already duplicate-free input is returned as it is. */
  lemma {:induction false} DedupOfDistinct(s: seq<string>)
    requires NoDuplicates(s)
    ensures Dedup(s) == s
  {
    if s != [] {
      var init := s[..|s| - 1];
      DedupOfDistinct(init);
      DedupElements(init);
      assert s == init + [s[|s| - 1]];
    }
  }

  /** First-occurrence order: deduplicating `a + b` starts with the
      deduplicated `a`, so `a`'s items precede the new items of `b`. */
  lemma {:induction false} DedupPrefix(a: seq<string>, b: seq<string>)
    ensures |Dedup(a)| <= |Dedup(a + b)| && Dedup(a + b)[..|Dedup(a)|] == Dedup(a)
  {
    if b == [] {
      assert a + b == a;
    } else {
      var b' := b[..|b| - 1];
      DedupPrefix(a, b');
      assert (a + b)[..|a + b| - 1] == a + b';
    }
  }

  /** `mergeUnique`: the items of `a` and then of `b`, each kept at its first
      occurrence. */
  method MergeUnique(a: seq<string>, b: seq<string>) returns (result: seq<string>)
    ensures result == Dedup(a + b)
    ensures NoDuplicates(result)
    ensures forall x :: x in result <==> x in a || x in b
    ensures |Dedup(a)| <= |result| && result[..|Dedup(a)|] == Dedup(a)
  {
    var seen: set<string> := {};
    result := [];
    var i := 0;
    while i < |a|
      invariant 0 <= i <= |a|
      invariant result == Dedup(a[..i])
      invariant forall x :: x in seen <==> x in result
    {
      assert a[..i + 1][..i] == a[..i];
      if a[i] !in seen {
        seen := seen + {a[i]};
        result := result + [a[i]];
      }
      i := i + 1;
    }
    assert a[..|a|] == a;
    assert a + b[..0] == a;
    var j := 0;
    while j < |b|
      invariant 0 <= j <= |b|
      invariant result == Dedup(a + b[..j])
      invariant forall x :: x in seen <==> x in result
    {
      assert (a + b[..j + 1])[..|a| + j] == a + b[..j];
      if b[j] !in seen {
        seen := seen + {b[j]};
        result := result + [b[j]];
      }
      j := j + 1;
    }
    assert b[..|b|] == b;
    DedupNoDuplicates(a + b);
    DedupElements(a + b);
    DedupPrefix(a, b);
  }

  // ---------------------------------------------------------------------------
  // applyDefaults

  /** The AI part of `applyDefaults`. The provider is defaulted first and the
      key variable and model are then derived from the resulting provider; a
      zero attempt count replaces the whole retry policy; the polish settings
      and the custom map are left alone. */
  method ApplyAIDefaults(config: AIConfig) returns (ai: AIConfig)
    ensures ai.provider == if config.provider == "" then "anthropic" else config.provider
    ensures ai.maxTokens == if config.maxTokens == 0 then 8000 else config.maxTokens
    ensures ai.temperature == if config.temperature == 0.0 then 0.3 else config.temperature
    ensures ai.timeout == if config.timeout == 0 then 30 * Second else config.timeout
    ensures ai.retry == if config.retry.attempts == 0 then DefaultRetry else config.retry
    ensures ai.apiKeyEnv == if config.apiKeyEnv == "" then GetDefaultAPIKeyEnv(ai.provider) else config.apiKeyEnv
    ensures ai.model == if config.model == "" then GetDefaultModel(ai.provider) else config.model
    ensures ai.custom == config.custom && ai.polish == config.polish
  {
    ai := ApplyLimitDefaults(config);
    if ai.provider == "" {
      ai := ai.(provider := "anthropic");
    }
    if ai.apiKeyEnv == "" {
      ai := ai.(apiKeyEnv := GetDefaultAPIKeyEnv(ai.provider));
    }
    if ai.model == "" {
      ai := ai.(model := GetDefaultModel(ai.provider));
    }
  }

  /** The token limit, temperature, timeout and retry policy defaults of
      `applyDefaults`; a zero attempt count replaces the whole retry policy. */
  method ApplyLimitDefaults(config: AIConfig) returns (ai: AIConfig)
    ensures ai == config.(maxTokens := if config.maxTokens == 0 then 8000 else config.maxTokens,
                          temperature := if config.temperature == 0.0 then 0.3 else config.temperature,
                          timeout := if config.timeout == 0 then 30 * Second else config.timeout,
                          retry := if config.retry.attempts == 0 then DefaultRetry else config.retry)
  {
    ai := config;
    if ai.maxTokens == 0 {
      ai := ai.(maxTokens := 8000);
    }
    if ai.temperature == 0.0 {
      ai := ai.(temperature := 0.3);
    }
    if ai.timeout == 0 {
      ai := ai.(timeout := 30 * Second);
    }
    if ai.retry.attempts == 0 {
      ai := ai.(retry := DefaultRetry);
    }
  }

  /** The file-filter part of `applyDefaults`: empty lists take the defaults,
      and with AutoExcludeMeta the meta patterns are merged into the
      exclusions without duplicates; without it the exclusions stay as they are. */
  method ApplyFileDefaults(config: FileFilters) returns (files: FileFilters)
    ensures files.includePatterns == if |config.includePatterns| == 0 then DefaultIncludes else config.includePatterns
    ensures files.autoExcludeMeta == config.autoExcludeMeta
    ensures var base := if |config.excludePatterns| == 0 then DefaultExcludes else config.excludePatterns;
            files.excludePatterns == if config.autoExcludeMeta then Dedup(base + MetaExclusions()) else base
  {
    files := config;
    if |files.includePatterns| == 0 {
      files := files.(includePatterns := DefaultIncludes);
    }
    if |files.excludePatterns| == 0 {
      files := files.(excludePatterns := DefaultExcludes);
    }
    if files.autoExcludeMeta {
      var merged := MergeUnique(files.excludePatterns, MetaExclusions());
      files := files.(excludePatterns := merged);
    }
  }

  /** The output part of `applyDefaults`: the format and the section list
      take their defaults when empty; the template is left alone. */
  method ApplyOutputDefaults(config: OutputConfig) returns (output: OutputConfig)
    ensures output.format == if config.format == "" then "keepachangelog" else config.format
    ensures output.sections == if |config.sections| == 0 then DefaultSections else config.sections
    ensures output.template == config.template
  {
    output := config;
    if output.format == "" {
      output := output.(format := "keepachangelog");
    }
    if |output.sections| == 0 {
      output := output.(sections := DefaultSections);
    }
  }

  /** The commit-filter part of `applyDefaults`: empty lists take the defaults. */
  method ApplyCommitDefaults(config: CommitFilters) returns (commits: CommitFilters)
    ensures commits.excludeAuthors == if |config.excludeAuthors| == 0 then DefaultExcludeAuthors else config.excludeAuthors
    ensures commits.excludePatterns == if |config.excludePatterns| == 0 then DefaultExcludePatterns else config.excludePatterns
  {
    commits := config;
    if |commits.excludeAuthors| == 0 {
      commits := commits.(excludeAuthors := DefaultExcludeAuthors);
    }
    if |commits.excludePatterns| == 0 {
      commits := commits.(excludePatterns := DefaultExcludePatterns);
    }
  }

  /** `applyDefaults`: fills in the zero or empty fields of the record and
      changes nothing else. */
  method ApplyDefaults(config: Config) returns (c: Config)
    ensures c.version == if config.version == "" then "1" else config.version
    ensures c.ai.provider == if config.ai.provider == "" then "anthropic" else config.ai.provider
    ensures c.ai.maxTokens == if config.ai.maxTokens == 0 then 8000 else config.ai.maxTokens
    ensures c.ai.temperature == if config.ai.temperature == 0.0 then 0.3 else config.ai.temperature
    ensures c.ai.timeout == if config.ai.timeout == 0 then 30 * Second else config.ai.timeout
    ensures c.ai.retry == if config.ai.retry.attempts == 0 then DefaultRetry else config.ai.retry
    ensures c.ai.apiKeyEnv == if config.ai.apiKeyEnv == "" then GetDefaultAPIKeyEnv(c.ai.provider) else config.ai.apiKeyEnv
    ensures c.ai.model == if config.ai.model == "" then GetDefaultModel(c.ai.provider) else config.ai.model
    ensures c.ai.custom == config.ai.custom && c.ai.polish == config.ai.polish
    ensures c.output.format == if config.output.format == "" then "keepachangelog" else config.output.format
    ensures c.output.sections == if |config.output.sections| == 0 then DefaultSections else config.output.sections
    ensures c.output.template == config.output.template
    ensures c.filters.files.includePatterns ==
      if |config.filters.files.includePatterns| == 0 then DefaultIncludes else config.filters.files.includePatterns
    ensures c.filters.files.autoExcludeMeta == config.filters.files.autoExcludeMeta
    ensures var base := if |config.filters.files.excludePatterns| == 0 then DefaultExcludes
                        else config.filters.files.excludePatterns;
            c.filters.files.excludePatterns ==
              if config.filters.files.autoExcludeMeta then Dedup(base + MetaExclusions()) else base
    ensures c.filters.commits.excludeAuthors ==
      if |config.filters.commits.excludeAuthors| == 0 then DefaultExcludeAuthors else config.filters.commits.excludeAuthors
    ensures c.filters.commits.excludePatterns ==
      if |config.filters.commits.excludePatterns| == 0 then DefaultExcludePatterns else config.filters.commits.excludePatterns
  {
    var version := config.version;
    if version == "" {
      version := "1";
    }
    var ai := ApplyAIDefaults(config.ai);
    var output := ApplyOutputDefaults(config.output);
    var files := ApplyFileDefaults(config.filters.files);
    var commits := ApplyCommitDefaults(config.filters.commits);
    c := Config(version, ai, output, FiltersConfig(files, commits));
  }
}
