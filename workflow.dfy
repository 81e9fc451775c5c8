/** The release-notes workflow: fetch the git data, extract the code
    context, categorise the commits, then either return the AI prompt, run
    the AI stages (discovery, then optionally polish), or fall back to the
    template generator.

    Git, the context extractor and the prompt builder are parameters: what
    git reports for the tag, what the extractor returns for the changed
    files, and the prompt text built from the gathered data. */
module Workflow {
  import opened Errors
  import opened Text
  import opened Config
  import opened AiCore
  import opened Analyzer
  import Generator
  import Polish
  import Providers

  // ---------------------------------------------------------------------------
  // stripAIHeaders

  /** A line, once trimmed, that opens like an AI preamble. */
  predicate IsHeaderLine(trimmed: string)
  {
    HasPrefix(trimmed, "# Release Notes for") || HasPrefix(trimmed, "# Changelog for")
    || HasPrefix(trimmed, "Here are the") || HasPrefix(trimmed, "Here is the")
  }

  /** The filter's decision for the line at position `index`, given the
      flag the line before left: whether the line is kept, and the flag for
      the next line. Header lines are dropped and set the flag; a blank line
      right after one is dropped; a blank first line is dropped too; every
      other line is kept. */
  function LineStep(line: string, index: nat, skipNext: bool): (bool, bool)
  {
    var trimmed := TrimSpace(line);
    if IsHeaderLine(trimmed) then (false, true)
    else if skipNext && trimmed == "" then (false, false)
    else (index > 0 || trimmed != "", false)
  }

  /** The lines the filter keeps from `lines`, whose first has position
      `index` in the response, when the line before set `skipNext`; kept
      lines are kept as written. */
  function KeepLines(lines: seq<string>, index: nat, skipNext: bool): seq<string>
    decreases |lines|
  {
    if lines == [] then []
    else
      var step := LineStep(lines[0], index, skipNext);
      (if step.0 then [lines[0]] else []) + KeepLines(lines[1..], index + 1, step.1)
  }

  /** What `stripAIHeaders` returns: the kept lines re-joined and trimmed. */
  function StripAIHeadersSpec(content: string): (r: string)
    ensures r == [] || (!IsSpace(r[0]) && !IsSpace(r[|r| - 1]))
  {
    var joined := Join(KeepLines(Split(content, '\n'), 0, false), '\n');
    TrimSpaceSlice(joined);
    TrimSpace(joined)
  }

  /** No header line survives, and every kept line is a line of the input. */
  lemma {:induction false} KeptLinesAreNotHeaders(lines: seq<string>, index: nat, skipNext: bool)
    ensures forall x :: x in KeepLines(lines, index, skipNext) ==> x in lines && !IsHeaderLine(TrimSpace(x))
    decreases |lines|
  {
    if lines != [] {
      KeptLinesAreNotHeaders(lines[1..], index + 1, true);
      KeptLinesAreNotHeaders(lines[1..], index + 1, false);
    }
  }

  /** Every line that is neither a header nor blank is kept. */
  lemma {:induction false} ContentLinesAreKept(lines: seq<string>, index: nat, skipNext: bool, k: nat)
    requires k < |lines| && !IsHeaderLine(TrimSpace(lines[k])) && TrimSpace(lines[k]) != ""
    ensures lines[k] in KeepLines(lines, index, skipNext)
    decreases |lines|
  {
    if k > 0 {
      var trimmed := TrimSpace(lines[0]);
      var next := IsHeaderLine(trimmed);
      assert lines[1..][k - 1] == lines[k];
      ContentLinesAreKept(lines[1..], index + 1, next, k - 1);
    }
  }

  /** No line of `lines` is a header line. */
  predicate HeaderFree(lines: seq<string>)
  {
    forall k | 0 <= k < |lines| :: !IsHeaderLine(TrimSpace(lines[k]))
  }

  lemma HeaderFreeTail(lines: seq<string>)
    requires lines != [] && HeaderFree(lines)
    ensures HeaderFree(lines[1..]) && !IsHeaderLine(TrimSpace(lines[0]))
  {
    forall k | 0 <= k < |lines[1..]|
      ensures !IsHeaderLine(TrimSpace(lines[1..][k]))
    {
      assert lines[1..][k] == lines[k + 1];
    }
  }

  /** Without header lines, past the first line nothing is dropped. */
  lemma {:induction false} KeepLinesWithoutHeaders(lines: seq<string>, index: nat)
    requires index > 0 && HeaderFree(lines)
    ensures KeepLines(lines, index, false) == lines
    decreases |lines|
  {
    if lines != [] {
      HeaderFreeTail(lines);
      KeepLinesWithoutHeaders(lines[1..], index + 1);
      assert [lines[0]] + lines[1..] == lines;
    }
  }

  /** A response with no header line is only trimmed. */
  lemma NoHeadersOnlyTrims(content: string)
    requires HeaderFree(Split(content, '\n'))
    ensures StripAIHeadersSpec(content) == TrimSpace(content)
  {
    var lines := Split(content, '\n');
    JoinSplit(content, '\n');
    HeaderFreeTail(lines);
    KeepLinesWithoutHeaders(lines[1..], 1);
    var first := TrimSpace(lines[0]);
    if first != "" {
      assert KeepLines(lines, 0, false) == [lines[0]] + lines[1..];
      assert [lines[0]] + lines[1..] == lines;
    } else {
      assert KeepLines(lines, 0, false) == lines[1..];
      TrimSpaceEmpty(lines[0]);
      if |lines| == 1 {
        assert content == lines[0];
        TrimSpaceEmpty(content);
        TrimSpaceEmpty("");
      } else {
        assert Join(lines, '\n') == lines[0] + ['\n'] + Join(lines[1..], '\n');
        assert AllSpace(lines[0] + ['\n']);
        TrimSpaceSkipsSpace(lines[0] + ['\n'], Join(lines[1..], '\n'));
      }
    }
  }

  /** One step of the filter at position `i`. */
  lemma KeepLinesAt(lines: seq<string>, i: nat, skipNext: bool)
    requires i < |lines|
    ensures var step := LineStep(lines[i], i, skipNext);
            KeepLines(lines[i..], i, skipNext)
              == (if step.0 then [lines[i]] else []) + KeepLines(lines[i + 1..], i + 1, step.1)
  {
    assert lines[i..][0] == lines[i];
    assert lines[i..][1..] == lines[i + 1..];
  }

  /** The flag the filter carries into position `k`: set exactly when the
      line before is a header. */
  function FlagAt(lines: seq<string>, k: nat): bool
    requires k <= |lines|
  {
    k > 0 && IsHeaderLine(TrimSpace(lines[k - 1]))
  }

  /** Whether the filter keeps the line at position `k`. */
  predicate KeptAt(lines: seq<string>, k: nat)
    requires k < |lines|
  {
    LineStep(lines[k], k, FlagAt(lines, k)).0
  }

  /** The lines among the first `n` that the filter keeps, in input order. */
  function KeptPrefix(lines: seq<string>, n: nat): seq<string>
    requires n <= |lines|
  {
    if n == 0 then []
    else KeptPrefix(lines, n - 1) + (if KeptAt(lines, n - 1) then [lines[n - 1]] else [])
  }

  /** A line is dropped exactly when it is a header, or it is blank and
      either first or right after a header; every other line is kept. */
  lemma KeptAtIff(lines: seq<string>, k: nat)
    requires k < |lines|
    ensures KeptAt(lines, k) <==>
              && !IsHeaderLine(TrimSpace(lines[k]))
              && (TrimSpace(lines[k]) != "" || (k > 0 && !IsHeaderLine(TrimSpace(lines[k - 1]))))
  {
  }

  /** One step of the filter in terms of `KeptAt` and `FlagAt`. */
  lemma KeepLinesStep(lines: seq<string>, i: nat)
    requires i < |lines|
    ensures var here := if KeptAt(lines, i) then [lines[i]] else [];
            && KeepLines(lines[i..], i, FlagAt(lines, i)) == here + KeepLines(lines[i + 1..], i + 1, FlagAt(lines, i + 1))
            && KeptPrefix(lines, i + 1) == KeptPrefix(lines, i) + here
  {
    assert LineStep(lines[i], i, FlagAt(lines, i)).1 == FlagAt(lines, i + 1);
    KeepLinesAt(lines, i, FlagAt(lines, i));
  }

  lemma AppendAssoc(a: seq<string>, b: seq<string>, c: seq<string>)
    ensures a + (b + c) == (a + b) + c
  {
  }

  /** From position `i` on, the filter appends exactly the kept lines. */
  lemma {:induction false} KeepLinesFrom(lines: seq<string>, i: nat)
    requires i <= |lines|
    ensures KeptPrefix(lines, i) + KeepLines(lines[i..], i, FlagAt(lines, i)) == KeptPrefix(lines, |lines|)
    decreases |lines| - i
  {
    if i == |lines| {
      assert lines[i..] == [];
      assert KeptPrefix(lines, i) + [] == KeptPrefix(lines, i);
    } else {
      KeepLinesStep(lines, i);
      KeepLinesFrom(lines, i + 1);
      var here := if KeptAt(lines, i) then [lines[i]] else [];
      var later := KeepLines(lines[i + 1..], i + 1, FlagAt(lines, i + 1));
      AppendAssoc(KeptPrefix(lines, i), here, later);
    }
  }

  /** The filter is an order-preserving selection: it returns the lines with
      `KeptAt`, in their input order, each as written. */
  lemma KeepLinesIsFilter(lines: seq<string>)
    ensures KeepLines(lines, 0, false) == KeptPrefix(lines, |lines|)
  {
    KeepLinesFrom(lines, 0);
    assert lines[0..] == lines;
  }

  lemma {:induction false} KeptPrefixHas(lines: seq<string>, n: nat, k: nat)
    requires k < n <= |lines| && KeptAt(lines, k)
    ensures lines[k] in KeptPrefix(lines, n)
    decreases n
  {
    if k < n - 1 {
      KeptPrefixHas(lines, n - 1, k);
    }
  }

  /** Only the blank line right after a header is dropped: a blank line
      past the first whose predecessor is not a header stays. */
  lemma BlankLineAfterContentIsKept(lines: seq<string>, k: nat)
    requires 0 < k < |lines| && TrimSpace(lines[k]) == "" && !IsHeaderLine(TrimSpace(lines[k - 1]))
    ensures lines[k] in KeepLines(lines, 0, false)
  {
    KeepLinesIsFilter(lines);
    KeptPrefixHas(lines, |lines|, k);
  }

  /** The body of the loop in `stripAIHeaders`: the header test, the blank
      line after a header, and the blank first line. */
  method FilterLine(line: string, index: nat, skipNext: bool) returns (keep: bool, skipAfter: bool)
    ensures (keep, skipAfter) == LineStep(line, index, skipNext)
    ensures keep ==> !IsHeaderLine(TrimSpace(line))
  {
    var trimmed := TrimSpace(line);
    if IsHeaderLine(trimmed) {
      return false, true;
    }
    if skipNext && trimmed == "" {
      return false, false;
    }
    return index > 0 || trimmed != "", false;
  }

  /** `stripAIHeaders`: the loop over the lines with the `skipNext` flag. */
  method StripAIHeaders(content: string) returns (r: string)
    ensures r == StripAIHeadersSpec(content)
  {
    var lines := Split(content, '\n');
    var result: seq<string> := [];
    var skipNext := false;
    for i := 0 to |lines|
      invariant result + KeepLines(lines[i..], i, skipNext) == KeepLines(lines, 0, false)
    {
      var keep, next := FilterLine(lines[i], i, skipNext);
      KeepLinesAt(lines, i, skipNext);
      var rest := KeepLines(lines[i + 1..], i + 1, next);
      if keep {
        assert result + [lines[i]] + rest == result + ([lines[i]] + rest);
        result := result + [lines[i]];
      } else {
        assert [] + rest == rest;
      }
      skipNext := next;
    }
    assert lines[|lines|..] == [];
    assert result + [] == result;
    r := TrimSpace(Join(result, '\n'));
  }

  // ---------------------------------------------------------------------------
  // generateAIContent

  /** What `generateAIContent` returns: the provider's answer to a request
      built from its own configuration, stripped of AI headers. */
  function AIContent(p: Providers.Provider, promptText: string, net: Providers.Network): (r: Result<string>)
    ensures var g := Providers.Generate(p, Providers.NewRequest(p, promptText), net);
            (r.Ok? <==> g.result.Ok?)
            && (r.Ok? ==> r.value == StripAIHeadersSpec(g.result.value.content))
            && (r.Err? ==> r.error == Wrap("failed to generate AI response", Some(g.result.error)))
  {
    var g := Providers.Generate(p, Providers.NewRequest(p, promptText), net);
    match g.result
    case Err(e) => Err(Wrap("failed to generate AI response", Some(e)))
    case Ok(resp) => Ok(StripAIHeadersSpec(resp.content))
  }

  method GenerateAIContent(p: Providers.Provider, promptText: string, net: Providers.Network) returns (r: Result<string>)
    ensures r == AIContent(p, promptText, net)
  {
    var req := Providers.NewRequest(p, promptText);
    var g := Providers.Generate(p, req, net);
    if g.result.Err? {
      return Err(Wrap("failed to generate AI response", Some(g.result.error)));
    }
    var content := StripAIHeaders(g.result.value.content);
    return Ok(content);
  }

  // ---------------------------------------------------------------------------
  // fetchGitData

  /** What git reports for the tag: changed files, commits, diff statistics and diff. */
  datatype GitSource = GitSource(changedFiles: Result<seq<string>>, commits: Result<seq<string>>,
                                 diffStats: Result<string>, diff: Result<string>)

  /** `gitData`. */
  datatype GitData = GitData(changedFiles: seq<string>, commits: seq<string>, diffStats: string, diff: string)

  /** `fetchGitData`: the changed files and commits are required, and an
      empty change set is an error; the diff statistics and the diff are
      optional and are empty when git fails to give them. */
  function FetchGitData(sinceTag: string, git: GitSource): (r: Result<GitData>)
    ensures r.Ok? <==> git.changedFiles.Ok? && |git.changedFiles.value| > 0 && git.commits.Ok?
    ensures git.changedFiles.Err? ==> r == Err(Wrap("failed to get changed files", Some(git.changedFiles.error)))
    ensures git.changedFiles.Ok? && git.changedFiles.value == [] ==> r == Err(Leaf("no changes detected since " + sinceTag))
    ensures git.changedFiles.Ok? && |git.changedFiles.value| > 0 && git.commits.Err? ==>
              r == Err(Wrap("failed to get commits", Some(git.commits.error)))
    ensures r.Ok? ==> r.value.changedFiles == git.changedFiles.value && r.value.commits == git.commits.value
    ensures r.Ok? ==> r.value.diffStats == (if git.diffStats.Ok? then git.diffStats.value else "")
    ensures r.Ok? ==> r.value.diff == (if git.diff.Ok? then git.diff.value else "")
  {
    match git.changedFiles
    case Err(e) => Err(Wrap("failed to get changed files", Some(e)))
    case Ok(files) =>
      if |files| == 0 then Err(Leaf("no changes detected since " + sinceTag))
      else
        match git.commits
        case Err(e) => Err(Wrap("failed to get commits", Some(e)))
        case Ok(commits) =>
          Ok(GitData(files, commits,
                     if git.diffStats.Ok? then git.diffStats.value else "",
                     if git.diff.Ok? then git.diff.value else ""))
  }

  // ---------------------------------------------------------------------------
  // GenerateReleaseNotes

  /** `GenerateOptions`; the output path and the verbose flag do not change the result. */
  datatype GenerateOptions = GenerateOptions(version: string, sinceTag: string, output: string,
                                             useAI: bool, aiPromptOnly: bool, verbose: bool,
                                             excludeFiles: seq<string>)

  /** The prompt builder: version, tag, commits, categories, context, diff statistics and diff. */
  type PromptBuilder = (string, string, seq<string>, CommitCategories, Generator.ContextResult, string, string) -> string

  /** Everything outside the workflow it depends on: git, the extractor,
      the prompt builder, today's date, the environment, the Groq
      constructor, and the network as the discovery and polish stages see it. */
  datatype World = World(git: GitSource,
                         extract: (seq<string>, seq<string>) -> Result<Generator.ContextResult>,
                         prompt: PromptBuilder, date: string, env: map<string, string>,
                         newGroq: Providers.GroqConstructor,
                         discovery: Providers.Network, polish: Providers.Network)

  /** The data every branch starts from: git data, context, categories and prompt. */
  datatype Prepared = Prepared(data: GitData, context: Generator.ContextResult,
                               categories: CommitCategories, promptText: string)

  /** The steps before the branch: fetch, extract (wrapped on failure),
      categorise and build the prompt. */
  function Prepare(opts: GenerateOptions, w: World): (r: Result<Prepared>)
    ensures FetchGitData(opts.sinceTag, w.git).Err? ==> r == Err(FetchGitData(opts.sinceTag, w.git).error)
    ensures var g := FetchGitData(opts.sinceTag, w.git);
            g.Ok? && w.extract(g.value.changedFiles, opts.excludeFiles).Err? ==>
              r == Err(Wrap("failed to extract context", Some(w.extract(g.value.changedFiles, opts.excludeFiles).error)))
    ensures var g := FetchGitData(opts.sinceTag, w.git);
            r.Ok? <==> g.Ok? && w.extract(g.value.changedFiles, opts.excludeFiles).Ok?
    ensures r.Ok? ==> FetchGitData(opts.sinceTag, w.git) == Ok(r.value.data)
                      && w.extract(r.value.data.changedFiles, opts.excludeFiles) == Ok(r.value.context)
                      && r.value.categories == Categorize(r.value.data.commits)
    ensures r.Ok? ==> r.value.promptText == w.prompt(opts.version, opts.sinceTag, r.value.data.commits, r.value.categories,
                                                     r.value.context, r.value.data.diffStats, r.value.data.diff)
  {
    match FetchGitData(opts.sinceTag, w.git)
    case Err(e) => Err(e)
    case Ok(data) =>
      match w.extract(data.changedFiles, opts.excludeFiles)
      case Err(e) => Err(Wrap("failed to extract context", Some(e)))
      case Ok(ctx) =>
        var categories := Categorize(data.commits);
        Ok(Prepared(data, ctx, categories,
                    w.prompt(opts.version, opts.sinceTag, data.commits, categories, ctx, data.diffStats, data.diff)))
  }

  /** The AI branch: discovery, then polish when a configuration enables
      it; a polish failure fails the whole call and the draft is dropped. */
  function AIBranch(p: Providers.Provider, cfg: Option<Config>, prep: Prepared, w: World): Result<string>
  {
    match AIContent(p, prep.promptText, w.discovery)
    case Err(e) => Err(e)
    case Ok(draft) =>
      if cfg.Some? && cfg.value.ai.polish.enabled then
        match Polish.PolishChangelog(draft, prep.data.diff, cfg.value, w.env, w.newGroq, w.polish)
        case Err(e) => Err(Wrap("failed to polish changelog", Some(e)))
        case Ok(polished) => Ok(polished)
      else Ok(draft)
  }

  /** What `GenerateReleaseNotes` returns. The Go call of the template
      generator passes three of its four arguments and leaves out the
      configuration; the model passes no configuration, so the default
      sections are rendered. */
  function Orchestrate(opts: GenerateOptions, provider: Option<Providers.Provider>, cfg: Option<Config>, w: World): Result<string>
  {
    match Prepare(opts, w)
    case Err(e) => Err(e)
    case Ok(prep) =>
      if opts.aiPromptOnly then Ok(prep.promptText)
      else if opts.useAI && provider.Some? then AIBranch(provider.value, cfg, prep, w)
      else Ok(Generator.ReleaseNotes(opts.version, w.date, prep.categories, prep.context, None))
  }

  /** Asking for the prompt only returns the prompt whatever the AI
      settings, and nothing is asked of either network. */
  lemma PromptOnlyNeverCallsProvider(opts: GenerateOptions, p1: Option<Providers.Provider>, p2: Option<Providers.Provider>,
                                     cfg1: Option<Config>, cfg2: Option<Config>, w: World,
                                     discovery: Providers.Network, polish: Providers.Network)
    requires opts.aiPromptOnly && Prepare(opts, w).Ok?
    ensures Orchestrate(opts, p1, cfg1, w) == Ok(Prepare(opts, w).value.promptText)
    ensures Orchestrate(opts, p1, cfg1, w) == Orchestrate(opts, p2, cfg2, w.(discovery := discovery, polish := polish))
  {
    assert Prepare(opts, w) == Prepare(opts, w.(discovery := discovery, polish := polish));
  }

  /** Without AI, or without a provider, the template notes are returned. */
  lemma TemplateWithoutAI(opts: GenerateOptions, provider: Option<Providers.Provider>, cfg: Option<Config>, w: World)
    requires !opts.aiPromptOnly && (!opts.useAI || provider.None?) && Prepare(opts, w).Ok?
    ensures var prep := Prepare(opts, w).value;
            Orchestrate(opts, provider, cfg, w)
              == Ok(Generator.ReleaseNotes(opts.version, w.date, Categorize(prep.data.commits), prep.context, None))
  {
  }

  /** With AI requested and a provider at hand, the AI branch decides the result. */
  lemma AIRequestedRunsAIBranch(opts: GenerateOptions, p: Providers.Provider, cfg: Option<Config>, w: World,
                                prep: Prepared)
    requires !opts.aiPromptOnly && opts.useAI && Prepare(opts, w) == Ok(prep)
    ensures Orchestrate(opts, Some(p), cfg, w) == AIBranch(p, cfg, prep, w)
  {
  }

  /** With polish enabled, a failed polish fails the AI branch: the
      discovery draft is never returned in its place. */
  lemma PolishFailureFails(p: Providers.Provider, cfg: Config, prep: Prepared, w: World, draft: string)
    requires cfg.ai.polish.enabled
    requires AIContent(p, prep.promptText, w.discovery) == Ok(draft)
    requires Polish.PolishChangelog(draft, prep.data.diff, cfg, w.env, w.newGroq, w.polish).Err?
    ensures AIBranch(p, Some(cfg), prep, w).Err?
    ensures AIBranch(p, Some(cfg), prep, w).error.context == "failed to polish changelog"
  {
    var polished := Polish.PolishChangelog(draft, prep.data.diff, cfg, w.env, w.newGroq, w.polish);
    assert AIBranch(p, Some(cfg), prep, w) == Err(Wrap("failed to polish changelog", Some(polished.error)));
  }

  /** Without polish, the AI answer is returned with its headers stripped,
      so it carries no leading or trailing white space. */
  lemma DiscoveryResultIsStripped(opts: GenerateOptions, p: Providers.Provider, cfg: Option<Config>, w: World)
    requires !opts.aiPromptOnly && opts.useAI && (cfg.None? || !cfg.value.ai.polish.enabled) && Prepare(opts, w).Ok?
    requires Orchestrate(opts, Some(p), cfg, w).Ok?
    ensures var prep := Prepare(opts, w).value;
            var g := Providers.Generate(p, Providers.NewRequest(p, prep.promptText), w.discovery);
            g.result.Ok? && Orchestrate(opts, Some(p), cfg, w).value == StripAIHeadersSpec(g.result.value.content)
  {
    var prep := Prepare(opts, w).value;
    assert Orchestrate(opts, Some(p), cfg, w) == AIBranch(p, cfg, prep, w);
    assert AIBranch(p, cfg, prep, w) == AIContent(p, prep.promptText, w.discovery);
  }

  /** The AI stages of `GenerateReleaseNotes`: discovery, then polish. */
  method RunAIBranch(p: Providers.Provider, cfg: Option<Config>, prep: Prepared, w: World) returns (r: Result<string>)
    ensures r == AIBranch(p, cfg, prep, w)
  {
    var content := GenerateAIContent(p, prep.promptText, w.discovery);
    if content.Err? {
      return content;
    }
    if cfg.Some? && cfg.value.ai.polish.enabled {
      var polished := Polish.PolishChangelog(content.value, prep.data.diff, cfg.value, w.env, w.newGroq, w.polish);
      if polished.Err? {
        return Err(Wrap("failed to polish changelog", Some(polished.error)));
      }
      return Ok(polished.value);
    }
    return Ok(content.value);
  }

  /** `GenerateReleaseNotes`: the sequence of stages with early returns. */
  method GenerateReleaseNotes(opts: GenerateOptions, provider: Option<Providers.Provider>, cfg: Option<Config>, w: World)
    returns (r: Result<string>)
    ensures r == Orchestrate(opts, provider, cfg, w)
  {
    var fetched := FetchGitData(opts.sinceTag, w.git);
    if fetched.Err? {
      return Err(fetched.error);
    }
    var data := fetched.value;
    var extracted := w.extract(data.changedFiles, opts.excludeFiles);
    if extracted.Err? {
      return Err(Wrap("failed to extract context", Some(extracted.error)));
    }
    var ctx := extracted.value;
    var categories := CategorizeCommits(data.commits);
    var promptText := w.prompt(opts.version, opts.sinceTag, data.commits, categories, ctx, data.diffStats, data.diff);
    assert Prepare(opts, w) == Ok(Prepared(data, ctx, categories, promptText));
    if opts.aiPromptOnly {
      return Ok(promptText);
    }
    if opts.useAI && provider.Some? {
      r := RunAIBranch(provider.value, cfg, Prepared(data, ctx, categories, promptText), w);
      return;
    }
    var notes := Generator.GenerateReleaseNotes(opts.version, w.date, categories, ctx, None);
    return Ok(notes);
  }
}
