# promptext-notes core, modelled in Dafny

promptext-notes turns the git history since a tag into release notes. It
categorises conventional-commit messages into buckets, then does one of
three things: renders Keep-a-Changelog markdown from a template, returns
the AI prompt built from the commits and the code context, or asks an AI
provider (Anthropic, OpenAI, Cerebras, Groq, OpenRouter or Ollama) to write
the notes. The AI result is stripped of chatty headers and can be passed
through a second "polish" model. Every provider call runs under a retry
engine with constant, linear or exponential backoff.

This project models the core of the tool:

- `retry.dfy` (module `Retry`): the retry loop and the backoff delays.
- `config.dfy` (module `Config`): configuration defaulting, validation, and
  the polish settings resolved against the main ones.
- `analyzer.dfy` (module `Analyzer`): the commit categoriser and the commit
  filter.
- `generator.dfy` (module `Generator`): the template release-notes
  generator.
- `workflow.dfy` (module `Workflow`): header stripping and the stage
  branching of `GenerateReleaseNotes`.
- `polish.dfy` (module `Polish`): the polish stage, including the
  `fmt.Sprintf` rendering of the polish prompt.
- `provider.dfy` (module `Providers`): the provider factory and the
  `Provider` interface.
- Adapters: `anthropic.dfy`, `openai.dfy`, `cerebras.dfy`, `openrouter.dfy`
  and `ollama.dfy`.
- Shared modules: `ai_core.dfy` (requests, responses, and the
  `Generate`-under-retry skeleton every adapter shares), `errors.dfy` (Go
  errors as `Leaf`/`Wrap` values) and `text.dfy` (the `strings` functions
  the core uses).

Effects are parameters:

- The context's `Done` channel is `cancel(k)`: the error seen if the
  context ends during the wait after attempt `k`.
- The `k`-th call of a retried function is `op(k)`.
- An adapter's HTTP round trip is a `transport(request, k)` function
  returning an `Exchange`. An exchange either failed at a stage (marshal,
  build, send, read) or replied with a status, the raw body, the decoded
  error envelope and the decoded body.
- Git, the context extractor, the prompt builder, the clock's date, the
  environment and the Groq adapter are fields of a `World` record, or
  parameters of the function that uses them.

Loops in the source are `method`s with loop invariants, the prefix loop of
`extractMessage` included (`Analyzer.ScanPrefixes`). Each is proved equal
to a recursive specification function, and the properties are proved about
those functions as lemmas.

Where the prose description of the tool and the Go code disagree, the model
follows the code:

- An Anthropic reply with no content blocks, and an Ollama reply with an
  empty `response`, are successes with empty content, not errors.
- `NewProvider` has no `openrouter` case. A configuration naming
  `openrouter` passes `Validate` and is then refused by the factory as an
  "unsupported AI provider". Only the polish stage constructs OpenRouter.
- The workflow's source does not type-check at two calls, so neither
  has a Go behaviour to follow; what the model does there is its own
  choice, recorded under "Left out".
  - internal/workflow/workflow.go:171 calls `provider.NewRequest`, but the
    `Provider` interface (internal/ai/provider.go:11-20) declares only
    `Generate`, `Name` and `ValidateConfig`, and the Anthropic adapter
    defines no `NewRequest` (`groq.go` is not part of this model, so
    whether the Groq adapter has one is not known here).
  - internal/workflow/workflow.go:161 calls the template generator's
    `GenerateReleaseNotes` with three arguments, while it takes four
    (internal/generator/generator.go:20); the configuration is the one
    missing.
- The `"BREAKING CHANGE"` check in the categoriser is subsumed by the
  lower-cased `"breaking"` check, as `Analyzer.UpperBreakingIsLowerBreaking`
  proves.
- A failed polish call to the provider's `Generate` is wrapped twice with
  "failed to polish changelog": once inside `PolishWith` (which
  `PolishChangelog` calls) and once by the workflow. The other polish failures (the key lookup, an unsupported
  polish provider, a failed constructor) carry their own message under a
  single workflow wrap.
- A custom polish prompt without `%s` verbs does not drop the draft and
  diff. `fmt.Sprintf` appends them as `%!(EXTRA string=…, string=…)`.

## Model

| member | source | states |
|---|---|---|
| Errors.ErrorOf | internal/ai/retry.go:20-21 | the error half of a result is absent exactly when the result succeeded, and is the result's error otherwise |
| Text.TrimLeftSuffix | internal/analyzer/analyzer.go:87 | `strings.TrimSpace` leading half: the result is a suffix of the input, everything cut was white space, and the result does not start with white space |
| Text.TrimRightPrefix | internal/analyzer/analyzer.go:87 | trailing half: the result is a prefix of the input, everything cut was white space, and the result does not end with white space |
| Text.TrimSpaceSlice | internal/analyzer/analyzer.go:87 | `strings.TrimSpace` returns a slice of its input with only white space outside it, and the slice neither starts nor ends with white space |
| Text.TrimSpace | internal/analyzer/analyzer.go:87 | `strings.TrimSpace`: the leading half then the trailing half; its properties are `TrimSpaceSlice`, `TrimSpaceEmpty` and `TrimSpaceSkipsSpace` |
| Text.TrimSpaceEmpty | internal/workflow/workflow.go:198-218 | a line trims to "" if and only if it is all white space |
| Text.TrimSpaceSkipsSpace | internal/workflow/workflow.go:223 | leading white space does not change the trimmed result |
| Text.ToLower | internal/analyzer/analyzer.go:42 | lower-casing keeps the length and lowers each character in place |
| Text.ToLowerIdempotent | internal/generator/generator.go:40 | lower-casing twice is lower-casing once |
| Text.Split | internal/workflow/workflow.go:193 | splitting yields at least one piece and no piece contains the separator |
| Text.Join | internal/workflow/workflow.go:223 | `strings.Join`: the pieces with the separator between consecutive ones; `JoinSplit` proves it undoes `Split` |
| Text.JoinSplit | internal/workflow/workflow.go:193-223 | joining the pieces of a split with the same separator gives back the input |
| Text.MissingCharNotContained | internal/ai/anthropic.go:244-269 | a string lacking a character of `sub` does not contain `sub` (used to place model names in price tiers) |
| Text.ContainsExtend | internal/generator/generator.go:44-46 | text containing a string still contains it after more text is appended |
| Text.ContainsPrepend | internal/generator/generator.go:44-46 | text containing a string still contains it after more text is put in front |
| Retry.Pow2 | internal/ai/retry.go:52 | `1 << (attempt-1)` is at least 1 |
| Retry.Pow2Monotone | internal/ai/retry.go:52 | the exponential multiplier never decreases with the attempt |
| Retry.CalculateDelay | internal/ai/retry.go:48-68 | `calculateDelay`: linear is initial delay times attempt, constant is the initial delay, exponential and unknown strategies are initial delay times `2^(attempt-1)`; its properties are `DelayMonotone` and `DelaySteps` |
| Retry.DelayMonotone | internal/ai/retry.go:48-68 | for a non-negative initial delay, delays are non-negative and never decrease from one attempt to the next, under every backoff |
| Retry.DelaySteps | internal/ai/retry.go:50-66 | linear backoff adds the initial delay per attempt; exponential and any unknown strategy double the delay per attempt |
| Retry.RunFrom | internal/ai/retry.go:18-44 | from attempt `a`: past the last attempt the run fails "after N attempts" with the last error; otherwise it makes between 1 and the remaining number of calls and waits at most once per call |
| Retry.Run | internal/ai/retry.go:15-45 | `RetryWithBackoff` as a value: the run from attempt 1 with no error yet; the `Run…` lemmas below state its outcomes |
| Retry.RunFromResult | internal/ai/retry.go:20-22 | a run succeeds if and only if it made a call and its last call returned no error |
| Retry.RunFromStep | internal/ai/retry.go:25-41 | a failed, non-final, uncancelled attempt waits `calculateDelay(attempt)` and then continues with the next attempt, remembering its error |
| Retry.Delays | internal/ai/retry.go:33 | the delay list from attempt `a` to `k` has `k - a` entries |
| Retry.DelaysAt | internal/ai/retry.go:33 | entry `i` of the delay list is `calculateDelay(a + i)` |
| Retry.RunFromWaits | internal/ai/retry.go:33-37 | the waits of a run are exactly the backoff delays of the attempts they follow, in order |
| Retry.RunFromRetriesOnlyFailures | internal/ai/retry.go:20-41 | every attempt before the last one failed and was followed by an uncancelled wait |
| Retry.RunFromFailing | internal/ai/retry.go:18-41 | a stretch of failing, uncancelled attempts adds one call and one backoff delay per attempt, then continues from the stretch's end |
| Retry.RunSucceedsAt | internal/ai/retry.go:20-22 | if attempts 1..k-1 fail and attempt k succeeds, the run returns success after k calls, having waited the delays of attempts 1..k-1 |
| Retry.RunAlwaysFails | internal/ai/retry.go:28-30 | if every attempt fails, exactly `attempts` calls are made, no wait follows the last one, and the result is "failed after N attempts" wrapping the last error |
| Retry.RunCancelledAt | internal/ai/retry.go:36-41 | a cancellation during the wait after attempt k ends the run with "retry cancelled" wrapping the context error, after k calls |
| Retry.RunNoAttempts | internal/ai/retry.go:18 | with zero or fewer attempts configured, nothing is called and the run fails "after N attempts" with a nil cause |
| Retry.RetryWithBackoff | internal/ai/retry.go:15-45 | the loop returns the error, the number of calls and the sequence of waits of the specified run |
| AiCore.Rates | internal/ai/anthropic.go:244-269 | every price tier's input rate is positive and below its output rate |
| AiCore.RequestFromConfig | internal/ai/provider.go:85-92 | the request carries the prompt, the configured model, max tokens and temperature, and no system prompt |
| AiCore.StageError | internal/ai/anthropic.go:149-173 | a transport failure at any stage is wrapped with its stage's context and keeps the cause |
| AiCore.GenerateWithRetry | internal/ai/anthropic.go:104-123 | an invalid configuration fails with "invalid configuration" before any call; otherwise the call count is the retry run's; an error is the run's error; a success is the last attempt's own response |
| AiCore.GenerateFirstTry | internal/ai/anthropic.go:110-122 | a first attempt that succeeds is returned after one call |
| AiCore.GenerateAllFail | internal/ai/anthropic.go:110-122 | when every attempt fails, `Generate` reports "failed after N attempts" with the last attempt's error, after N calls |
| Config.Default | internal/config/config.go:124-189 | the default configuration validates, selects Anthropic with its default model and key variable, leaves polish off and uses the default retry policy |
| Config.GetDefaultAPIKeyEnv | internal/config/config.go:282-299 | a key variable name is given exactly for the five keyed providers; Ollama and unknown names get "" |
| Config.GetDefaultModel | internal/config/config.go:307-324 | a default model exists exactly for the six supported providers |
| Config.GetAPIKey | internal/config/config.go:327-338 | no key variable yields ""; otherwise the key is read from the environment, and an unset or empty variable is an error naming the variable |
| Config.Validate | internal/config/config.go:341-382 | a configuration is valid if and only if provider, max tokens, temperature in [0,1], backoff and (when enabled) polish provider are all acceptable; checked in that order, the first failing check decides the message, one message per check |
| Config.GetPolishProvider | internal/config/config.go:385-390 | the polish provider is its own setting when given, the main provider otherwise |
| Config.GetPolishModel | internal/config/config.go:393-398 | the polish model is its own setting when given, the main model otherwise |
| Config.GetPolishAPIKeyEnv | internal/config/config.go:401-406 | the polish key variable is its own setting when given, the polish provider's default otherwise |
| Config.GetPolishAPIKey | internal/config/config.go:409-429 | polishing with the main provider reuses the main key; otherwise an empty variable name yields "" and a named variable must be set |
| Config.PolishInheritsMain | internal/config/config.go:385-429 | with no polish provider or model configured, polish uses the main provider and model, and reads the same key (or the same error) as the main stage in every environment |
| Config.DedupElements | internal/config/config.go:260-279 | de-duplication keeps exactly the elements of its input |
| Config.DedupNoDuplicates | internal/config/config.go:260-279 | de-duplication leaves no element twice |
| Config.DedupOfDistinct | internal/config/config.go:260-279 | a list without duplicates is left unchanged |
| Config.DedupPrefix | internal/config/config.go:260-279 | merging keeps the de-duplicated first list as a prefix, in order |
| Config.MergeUnique | internal/config/config.go:260-279 | the merge holds each element of either list exactly once, first occurrences first, with the first list's elements ahead |
| Config.Dedup | internal/config/config.go:260-279 | first occurrences kept in order; its properties are `DedupElements`, `DedupNoDuplicates`, `DedupOfDistinct` and `DedupPrefix` |
| Config.ApplyAIDefaults | internal/config/config.go:199-227 | each zero-valued AI setting takes its default; key variable and model defaults follow the (defaulted) provider; other settings are kept |
| Config.ApplyLimitDefaults | internal/config/config.go:203-214 | zero max tokens, temperature, timeout and retry attempts take 8000, 0.3, 30s and the default retry; every other field is unchanged |
| Config.ApplyFileDefaults | internal/config/config.go:237-249 | empty include and exclude lists take their defaults, and with meta exclusion on the meta patterns are merged in without duplicates |
| Config.ApplyOutputDefaults | internal/config/config.go:229-235 | an empty format becomes "keepachangelog", empty sections become the default list, and the template is kept |
| Config.ApplyCommitDefaults | internal/config/config.go:251-256 | empty author and pattern exclusions take their defaults |
| Config.ApplyDefaults | internal/config/config.go:192-257 | every section is defaulted as above, and the version defaults to "1" |
| Analyzer.ExtractMessage | internal/analyzer/analyzer.go:80-92 | the message is a trimmed suffix of the commit |
| Analyzer.ScanPrefixes | internal/analyzer/analyzer.go:80-92 | the prefix loop returns exactly the specified message: the first matching prefix shorter than the commit is cut, otherwise the whole commit is trimmed |
| Analyzer.ExtractMessageNoPrefix | internal/analyzer/analyzer.go:91 | when no prefix matches (or a match would leave nothing), the whole commit is trimmed |
| Analyzer.ExtractMessageFirstPrefix | internal/analyzer/analyzer.go:83-88 | the first matching prefix is cut by its length from the original-case commit, and the rest is trimmed |
| Analyzer.FirstRule | internal/analyzer/analyzer.go:51-73 | the result is either the commit verbatim under Changes or one case's bucket with that case's extracted message; no case yields Breaking |
| Analyzer.FirstRuleAt | internal/analyzer/analyzer.go:51-69 | the first case whose prefixes match decides the bucket and the message |
| Analyzer.FirstRuleNone | internal/analyzer/analyzer.go:70-73 | a commit matching no case goes to Changes unchanged |
| Analyzer.Classify | internal/analyzer/analyzer.go:41-73 | a commit is Breaking if and only if it passes the breaking check, and then it is kept verbatim; otherwise the prefix cases decide |
| Analyzer.FixGoesToFixes | internal/analyzer/analyzer.go:54-56 | a non-breaking "fix:" commit goes to Fixes without its prefix, trimmed |
| Analyzer.UnprefixedGoesToChanges | internal/analyzer/analyzer.go:70-73 | a non-breaking commit with no known prefix goes to Changes verbatim |
| Analyzer.UpperBreakingIsLowerBreaking | internal/analyzer/analyzer.go:45 | any commit containing "BREAKING CHANGE" also contains "breaking" once lower-cased |
| Analyzer.Items | internal/analyzer/analyzer.go:41-74 | a bucket never receives more items than there are commits |
| Analyzer.ItemsAppend | internal/analyzer/analyzer.go:41-74 | categorising a concatenation concatenates the buckets, in input order |
| Analyzer.Categorize | internal/analyzer/analyzer.go:31-77 | `CategorizeCommits` as a value: each bucket is the commits `Classify` sends there, in order; `CountTotalCategorize` and the method `CategorizeCommits` state its properties |
| Analyzer.CountTotalCategorize | internal/analyzer/analyzer.go:95-98 | every commit lands in exactly one bucket, so `CountTotal` equals the number of commits |
| Analyzer.CategorizeCommits | internal/analyzer/analyzer.go:31-77 | the loop produces the specified buckets |
| Analyzer.Compiled | internal/analyzer/analyzer.go:108-114 | exactly the patterns that compile are kept |
| Analyzer.Kept | internal/analyzer/analyzer.go:116-130 | the kept commits are exactly those no compiled pattern matches, and there are no more of them than commits |
| Analyzer.KeptNoRegexes | internal/analyzer/analyzer.go:116-130 | with no compiled pattern, every commit is kept in order |
| Analyzer.FilterSpec | internal/analyzer/analyzer.go:102-133 | `FilterCommits` as a value: the commits unchanged for no configuration or two empty lists, the unmatched commits otherwise; the method `FilterCommits` and `Kept` state its properties |
| Analyzer.CompilePatterns | internal/analyzer/analyzer.go:108-114 | the compile loop yields the compiling patterns in order |
| Analyzer.MatchesAny | internal/analyzer/analyzer.go:119-125 | the inner loop reports whether some compiled pattern matches |
| Analyzer.KeepUnmatched | internal/analyzer/analyzer.go:116-130 | the outer loop keeps exactly the unmatched commits in order |
| Analyzer.FilterCommits | internal/analyzer/analyzer.go:102-133 | no configuration or two empty lists returns the commits unchanged; otherwise the unmatched commits are returned |
| Generator.VersionLabel | internal/generator/generator.go:24-26 | the label is the version when one is given and "Unreleased" for an empty version |
| Generator.Sections | internal/generator/generator.go:33-36 | configured sections are used when there are any, the five defaults otherwise |
| Generator.SectionBucket | internal/generator/generator.go:39-87 | case-insensitively, "breaking", "added", "fixed" and "changed" select their buckets, "docs" and "documentation" both select Documentation, any other name selects nothing, and no name selects Chores |
| Generator.SectionBucketIgnoresCase | internal/generator/generator.go:40 | section names are matched case-insensitively |
| Generator.LinesContainItem | internal/generator/generator.go:44-46 | every item of a bucket appears as a trimmed bullet line |
| Generator.Section | internal/generator/generator.go:41-87 | an unknown section name, or a section whose bucket is empty, writes nothing; a known section with items writes its heading, its bullet lines and a blank line |
| Generator.Body | internal/generator/generator.go:39-88 | the sections' texts in configured order; `BodyIgnoresChores`, `BodyOfEmpty` and `WriteBody` state its properties |
| Generator.ReleaseNotes | internal/generator/generator.go:20-103 | the header, the body, then the statistics footer; `NotesForNoCommits` and the method `GenerateReleaseNotes` state its properties |
| Generator.SectionListsItems | internal/generator/generator.go:41-85 | a known section lists every item of its bucket |
| Generator.BodyIgnoresChores | internal/generator/generator.go:39-88 | the notes do not depend on the Chores bucket |
| Generator.BodyOfEmpty | internal/generator/generator.go:39-88 | with no commits, no section is written |
| Generator.NotesForNoCommits | internal/generator/generator.go:20-103 | with no commits, the notes are the header, then statistics reporting zero commits, then the closing rule |
| Generator.WriteLines | internal/generator/generator.go:44-46 | the item loop writes the bullet lines of the bucket |
| Generator.BodyStep | internal/generator/generator.go:39 | each iteration of the section loop appends that section's text |
| Generator.WriteSection | internal/generator/generator.go:40-87 | one pass of the switch writes the specified section |
| Generator.WriteBody | internal/generator/generator.go:39-88 | the section loop writes the specified body |
| Generator.GenerateReleaseNotes | internal/generator/generator.go:20-103 | the builder produces the specified notes |
| Workflow.StripAIHeadersSpec | internal/workflow/workflow.go:192-224 | the stripped content neither starts nor ends with white space |
| Workflow.LineStep | internal/workflow/workflow.go:198-220 | one iteration's decision: a header is dropped and sets the skip flag, a blank line after a header is dropped, a blank first line is dropped, any other line is kept; `KeptAtIff` states it per position |
| Workflow.KeepLines | internal/workflow/workflow.go:197-221 | the loop's kept lines from a position with a skip flag; `KeepLinesIsFilter` proves it an order-preserving selection |
| Workflow.KeptAtIff | internal/workflow/workflow.go:198-220 | a line is dropped exactly when it is a header, or it is blank and either first or right after a header |
| Workflow.KeepLinesStep | internal/workflow/workflow.go:197-221 | iteration i keeps line i exactly when `KeptAt` holds, and hands on the flag "line i is a header" |
| Workflow.KeepLinesFrom | internal/workflow/workflow.go:197-221 | the kept lines before position i followed by what the loop keeps from i on are all the kept lines |
| Workflow.KeepLinesIsFilter | internal/workflow/workflow.go:197-221 | the loop keeps exactly the lines with `KeptAt`, each as written and in input order |
| Workflow.KeptPrefixHas | internal/workflow/workflow.go:197-221 | a kept line at a position below n is among the kept lines of the first n |
| Workflow.BlankLineAfterContentIsKept | internal/workflow/workflow.go:209-220 | a blank line past the first whose predecessor is not a header is kept |
| Workflow.KeptLinesAreNotHeaders | internal/workflow/workflow.go:201-207 | every kept line is an input line and is not a header line |
| Workflow.ContentLinesAreKept | internal/workflow/workflow.go:209-220 | every non-blank, non-header line is kept |
| Workflow.HeaderFreeTail | internal/workflow/workflow.go:201-207 | a header-free list's first line is no header and its rest is header-free |
| Workflow.KeepLinesWithoutHeaders | internal/workflow/workflow.go:215-220 | past the first line, header-free lines are all kept |
| Workflow.NoHeadersOnlyTrims | internal/workflow/workflow.go:192-224 | content without header lines is only trimmed |
| Workflow.KeepLinesAt | internal/workflow/workflow.go:197-221 | iteration i of the loop decides line i and hands its skip flag to iteration i+1 |
| Workflow.FilterLine | internal/workflow/workflow.go:198-220 | one iteration: header lines are dropped and set the skip flag, a blank line right after a header is dropped, and a leading blank line is dropped |
| Workflow.StripAIHeaders | internal/workflow/workflow.go:192-224 | the loop, join and trim produce the specified stripped content |
| Workflow.AIContent | internal/workflow/workflow.go:165-189 | discovery succeeds exactly when the provider's `Generate` on its own `NewRequest` does, returns the stripped content, and otherwise wraps the error as "failed to generate AI response" |
| Workflow.AIBranch | internal/workflow/workflow.go:127-154 | the AI stages as a value: discovery, then polish when enabled; `PolishFailureFails`, `DiscoveryResultIsStripped` and the method `RunAIBranch` state its properties |
| Workflow.GenerateAIContent | internal/workflow/workflow.go:165-189 | the call sequence produces the specified discovery result |
| Workflow.FetchGitData | internal/workflow/workflow.go:38-82 | git data is fetched exactly when the changed files are readable and non-empty and the commits are readable; a changed-files error is wrapped "failed to get changed files", an empty change set is "no changes detected since <tag>", a commits error is wrapped "failed to get commits"; missing diff stats or diff become "" |
| Workflow.Prepare | internal/workflow/workflow.go:91-116 | a git failure is returned unchanged; an extractor failure is wrapped "failed to extract context"; the result is Ok exactly when both succeed, and then the context comes from the extractor, the buckets from the categoriser and the prompt from the prompt builder on the version, tag, commits, buckets, context, diff statistics and diff |
| Workflow.PromptOnlyNeverCallsProvider | internal/workflow/workflow.go:119-124 | asking for the prompt only returns the prompt, whatever the provider, configuration and networks |
| Workflow.TemplateWithoutAI | internal/workflow/workflow.go:156-161 | without AI or without a provider, the template notes of the categorised commits are returned, rendered without a configuration |
| Workflow.AIRequestedRunsAIBranch | internal/workflow/workflow.go:127-154 | with AI requested and a provider present, the AI stages decide the result |
| Workflow.PolishFailureFails | internal/workflow/workflow.go:134-144 | when polish is enabled and fails, the whole call fails with "failed to polish changelog" and the draft is not returned |
| Workflow.DiscoveryResultIsStripped | internal/workflow/workflow.go:127-153 | without polish, a successful AI run returns the provider's content with headers stripped |
| Workflow.RunAIBranch | internal/workflow/workflow.go:127-154 | the discovery and polish stages produce the specified AI result |
| Workflow.GenerateReleaseNotes | internal/workflow/workflow.go:85-162 | the stages with their early returns produce the specified result |
| Workflow.Orchestrate | internal/workflow/workflow.go:85-162 | `GenerateReleaseNotes` as a value: preparation, then prompt only, the AI branch or the template; `PromptOnlyNeverCallsProvider`, `TemplateWithoutAI` and `AIRequestedRunsAIBranch` state its branches |
| Polish.Render | internal/workflow/polish.go:85-87 | rendering consumes arguments from the front: what is left over is a suffix of the arguments, and never more than were given |
| Polish.FormatString | internal/workflow/polish.go:85-87 | how one verb prints a string argument: `%s`/`%v` the text, `%q` `strconv.Quote`, `%x`/`%X` hexadecimal UTF-8 bytes, `%T` "string", any other verb `%!<verb>(string=…)`; `RenderVerb` places it in the rendering |
| Polish.Utf8 | internal/workflow/polish.go:85-87 | the UTF-8 encoding of a character: one to four bytes, one byte exactly for ASCII, and that byte is the code |
| Polish.HexByte | internal/workflow/polish.go:85-87 | two hexadecimal digits that read back as the byte |
| Polish.HexBytes | internal/workflow/polish.go:85-87 | two digits per byte |
| Polish.QuoteChar | internal/workflow/polish.go:85-87 | one character inside a `%q` literal; the escape never holds a control character |
| Polish.RenderVerb | internal/workflow/polish.go:85-87 | any verb but `%%` takes the next argument and prints it as `FormatString` says (`%s`, `%v`, `%q`, `%x`, `%X`, `%T`, the wrong-type form) |
| Polish.QuotePlain | internal/workflow/polish.go:85-87 | `%q` of printable ASCII without quote or backslash is that text in double quotes |
| Polish.QuoteBodyPlain | internal/workflow/polish.go:85-87 | such text needs no escape |
| Polish.QuoteBodyHasNoControl | internal/workflow/polish.go:85-87 | a quoted string never holds a raw control character |
| Polish.HexAscii | internal/workflow/polish.go:85-87 | `%x` of ASCII text has two digits per character, and each pair reads back as the character's code |
| Polish.RenderQuoted | internal/workflow/polish.go:85-87 | `%q` alone quotes plain text and leaves the second argument unused |
| Polish.QuotedDraft | internal/workflow/polish.go:85-87 | a custom prompt `<text>%q` quotes the draft and lists the unused diff as `%!(EXTRA string=…)` |
| Polish.RenderLiteral | internal/workflow/polish.go:85-87 | text without `%` is copied through unchanged |
| Polish.RenderString | internal/workflow/polish.go:85-87 | `%s` takes the next argument |
| Polish.Sprintf | internal/workflow/polish.go:85-87 | `fmt.Sprintf` with string arguments: the rendering, then `%!(EXTRA …)` listing unused arguments; `CustomPromptWithoutVerbs`, `QuotedDraft` and `DefaultPromptFilled` state its results |
| Polish.CustomPromptWithoutVerbs | internal/workflow/polish.go:86-87 | a custom prompt with no `%` keeps its text and gets the draft and diff appended as `%!(EXTRA string=…, string=…)` |
| Polish.HeadHasNoVerbs | internal/workflow/polish.go:12-14 | the default prompt's opening holds no formatting verb |
| Polish.RulesAHaveNoVerbs | internal/workflow/polish.go:20-21 | the first rule block holds no formatting verb |
| Polish.RulesBHaveNoVerbs | internal/workflow/polish.go:22-23 | the second rule block holds no formatting verb |
| Polish.RulesCHaveNoVerbs | internal/workflow/polish.go:24-25 | the third rule block holds no formatting verb |
| Polish.ClosingHasNoVerbs | internal/workflow/polish.go:27 | the closing sentence holds no formatting verb |
| Polish.TailHasNoVerbs | internal/workflow/polish.go:20-27 | the text after the second slot holds no formatting verb |
| Polish.FillTwoSlots | internal/workflow/polish.go:85 | a two-slot format without other verbs renders its two arguments in place |
| Polish.DefaultPromptFilled | internal/workflow/polish.go:12-27 | the default prompt renders as its text with the draft in the CHANGELOG slot and the diff in the DIFF slot |
| Polish.DefaultPromptContainsInputs | internal/workflow/polish.go:84-85 | the default polish prompt contains both the draft and the diff |
| Polish.PolishConfigOf | internal/workflow/polish.go:46-57 | the polish configuration takes the polish provider, model and key variable, the polish token and temperature limits, and the main timeout, retry and custom settings, with polish off |
| Polish.PolishPrompt | internal/workflow/polish.go:83-88 | with no custom prompt the default is filled in; otherwise the custom prompt is rendered with the draft and diff |
| Polish.PolishRequest | internal/workflow/polish.go:91-96 | the polish request carries the prompt, the polish model and the polish limits, and no system prompt |
| Polish.PolishWith | internal/workflow/polish.go:98-104 | the polished text is the provider's content, and a provider failure is wrapped "failed to polish changelog" |
| Polish.PolishChangelog | internal/workflow/polish.go:30-105 | disabled polish returns the draft unchanged; a key failure, an unknown provider and a constructor failure each fail with their own message; once the provider is built, the result is the polish call on it |
| Providers.Construct | internal/workflow/polish.go:61-80 | a provider is built exactly for the six names with the requested name, configuration and key (Ollama holds none, and its base URL is its constructor's); keyed providers refuse an empty key with their own constructor's message; Ollama always succeeds; a Groq constructor error is passed on unchanged |
| Providers.NewProvider | internal/ai/provider.go:62-82 | a missing key fails first except for Ollama; for the five factory names the result is that name's constructor applied to the key read (or "" for Ollama), so the provider holds that key and a refusal is passed on unchanged; any other name is "unsupported AI provider" |
| Providers.Generate | internal/ai/provider.go:11-20 | the interface's `Generate`, dispatched to the adapter of the provider's variant |
| Providers.OpenRouterRefused | internal/ai/provider.go:68-81 | a valid configuration naming openrouter is still refused by the factory |
| Providers.KeyedProviderNeedsKey | internal/ai/provider.go:62-74 | for Anthropic, OpenAI and Cerebras, the factory succeeds exactly when the key variable is named and set |
| Providers.NewRequest | internal/ai/openai.go:105-112 | the workflow's request for any provider is `RequestFromConfig` on that provider's configuration, which is what each adapter that defines `NewRequest` builds |
| Anthropic.New | internal/ai/anthropic.go:71-83 | construction fails exactly for an empty key, and otherwise keeps key and configuration |
| Anthropic.ValidateConfig | internal/ai/anthropic.go:91-101 | valid exactly when key and model are set; the key is checked first |
| Anthropic.NormalizeModel | internal/ai/anthropic.go:224-241 | aliases map to their dated IDs; anything else passes through |
| Anthropic.NormalizeModelIdempotent | internal/ai/anthropic.go:224-241 | normalising twice is normalising once |
| Anthropic.BuildPayload | internal/ai/anthropic.go:128-146 | one user message holding the prompt, the normalised model, the request limits, and the system prompt only when set |
| Anthropic.Headers | internal/ai/anthropic.go:161-168 | exactly the three headers; the version header is the custom override when configured |
| Anthropic.BuildHttpRequest | internal/ai/anthropic.go:149-168 | the request goes to the Messages URL with those headers and that payload |
| Anthropic.TextOfAppend | internal/ai/anthropic.go:199-204 | the text of concatenated blocks is the concatenation of their texts |
| Anthropic.TextOfNoText | internal/ai/anthropic.go:199-204 | blocks with no "text" kind contribute nothing |
| Anthropic.ConcatText | internal/ai/anthropic.go:199-204 | the builder loop yields the text of the "text" blocks in order |
| Anthropic.TextOf | internal/ai/anthropic.go:199-204 | the text of the "text" blocks, in order; `TextOfAppend`, `TextOfNoText` and the method `ConcatText` state its properties |
| Anthropic.Tier | internal/ai/anthropic.go:244-269 | the price tier is the first of haiku, sonnet and opus the model name contains, haiku otherwise |
| Anthropic.AliasTier | internal/ai/anthropic.go:224-269 | every alias is priced as the family its name says |
| Anthropic.Interpret | internal/ai/anthropic.go:170-220 | an attempt succeeds exactly on a decoded 200 reply; a send failure, an API error (with or without a decodable envelope) and a parse failure each give their own error; a success carries the text, token sum, model and price |
| Anthropic.EmptyContentIsNoError | internal/ai/anthropic.go:199-220 | a 200 reply without content blocks is a success with empty content |
| Anthropic.Generate | internal/ai/anthropic.go:104-123 | an invalid configuration fails before any call; otherwise the call count is the retry run's, an error is the retry run's error, and a success is the interpreted reply to the last attempt's request |
| OpenAI.New | internal/ai/openai.go:72-84 | construction fails exactly for an empty key |
| OpenAI.ValidateConfig | internal/ai/openai.go:92-102 | valid exactly when key and model are set; the key is checked first |
| OpenAI.NewRequest | internal/ai/openai.go:105-112 | the request is the configured defaults with the prompt |
| OpenAI.ChatMessages | internal/ai/openai.go:139-153 | an optional system message first, then exactly one user message with the prompt |
| OpenAI.BuildMessages | internal/ai/openai.go:139-153 | the message-building code yields those messages |
| OpenAI.BuildPayload | internal/ai/openai.go:156-161 | the payload carries the model, the messages and the limits |
| OpenAI.BearerHeaders | internal/ai/openai.go:176-177 | exactly a JSON content type and a bearer token |
| OpenAI.BuildHttpRequest | internal/ai/openai.go:164-177 | the request goes to the chat URL with bearer headers and the payload |
| OpenAI.FromFirstChoice | internal/ai/openai.go:212-229 | the response is the first choice's content with the total tokens, model, cost and finish reason |
| OpenAI.Tier | internal/ai/openai.go:233-261 | the price tier is chosen by the first matching model family, with gpt-4o-mini before gpt-4o |
| OpenAI.MiniNamesContainGpt4o | internal/ai/openai.go:233-261 | gpt-4o-mini names also contain gpt-4o, so the mini case must come first, and it does |
| OpenAI.Interpret | internal/ai/openai.go:179-229 | an attempt succeeds exactly on a decoded 200 reply with at least one choice; each failure gives its own error |
| OpenAI.Generate | internal/ai/openai.go:115-134 | an invalid configuration fails before any call; otherwise the call count is the retry run's, an error is the retry run's error, and a success is the interpreted reply to the last attempt's request |
| Cerebras.New | internal/ai/cerebras.go:24-36 | construction fails exactly for an empty key |
| Cerebras.ValidateConfig | internal/ai/cerebras.go:44-54 | valid exactly when key and model are set; the key is checked first |
| Cerebras.NewRequest | internal/ai/cerebras.go:57-64 | the request is the configured defaults with the prompt |
| Cerebras.BuildHttpRequest | internal/ai/cerebras.go:91-129 | the OpenAI-shaped payload goes to the Cerebras URL with bearer headers |
| Cerebras.Interpret | internal/ai/cerebras.go:131-181 | success exactly on a decoded 200 reply with a choice; an API error without a message reports the status and body |
| Cerebras.Generate | internal/ai/cerebras.go:67-86 | an invalid configuration fails before any call; otherwise the call count is the retry run's, an error is the retry run's error, and a success is the interpreted reply to the last attempt's request |
| OpenRouter.New | internal/ai/openrouter.go:24-36 | construction fails exactly for an empty key |
| OpenRouter.ValidateConfig | internal/ai/openrouter.go:44-54 | valid exactly when key and model are set; the key is checked first |
| OpenRouter.NewRequest | internal/ai/openrouter.go:57-64 | the request is the configured defaults with the prompt |
| OpenRouter.Headers | internal/ai/openrouter.go:128-137 | the bearer headers, plus HTTP-Referer and X-Title exactly when configured |
| OpenRouter.BuildHttpRequest | internal/ai/openrouter.go:91-137 | the OpenAI-shaped payload goes to the OpenRouter URL with those headers |
| OpenRouter.Interpret | internal/ai/openrouter.go:139-189 | success exactly on a decoded 200 reply with a choice; an API error without a message reports the status and body |
| OpenRouter.Generate | internal/ai/openrouter.go:67-86 | an invalid configuration fails before any call; otherwise the call count is the retry run's, an error is the retry run's error, and a success is the interpreted reply to the last attempt's request |
| Ollama.New | internal/ai/ollama.go:37-51 | construction always succeeds; the base URL is the custom `ollama_url` when set, localhost otherwise |
| Ollama.ValidateConfig | internal/ai/ollama.go:59-65 | valid exactly when a model is set |
| Ollama.NewRequest | internal/ai/ollama.go:68-75 | the request is the configured defaults with the prompt |
| Ollama.PromptText | internal/ai/ollama.go:102-105 | the prompt alone, or "System: …\n\nUser: …" when a system prompt is set |
| Ollama.PromptTextEndsWithPrompt | internal/ai/ollama.go:102-105 | the sent prompt always ends with the user's prompt |
| Ollama.BuildPayload | internal/ai/ollama.go:102-112 | a non-streaming payload of the model and the prompt text |
| Ollama.BuildHttpRequest | internal/ai/ollama.go:115-128 | the request goes to `<base URL>/api/generate` with a JSON content type |
| Ollama.Interpret | internal/ai/ollama.go:130-163 | success exactly on a decoded 200 reply, with no token count and no cost; a send failure asks whether Ollama is running |
| Ollama.Generate | internal/ai/ollama.go:78-97 | an invalid configuration fails before any call; otherwise the call count is the retry run's, an error is the retry run's error, and a success is the interpreted reply to the last attempt's request |

## Left out

- JSON encoding and decoding, and HTTP itself, are not modelled. Each
  adapter receives an `Exchange` from its transport parameter: the
  stage that failed, or the status, the raw body and the decoded envelope
  and body.
- Real-time waiting (`time.After`) and the `select` are not modelled. A
  wait is recorded in the trace, and a cancellation is what the `cancel`
  parameter reports for that wait.
- Cost estimates are a price tier plus token counts. The floating-point
  products of `estimateCost` are not computed.
- `groq.go` is not part of this model. Groq's constructor outcome and its
  `Generate` are parameters.
- The git package, the promptext context extractor, the prompt builder,
  `main.go`, `Load` and `LoadOrDefault` are not part of this model. Their
  results are parameters, as are the environment and the current date.
- Verbose progress output to stderr is left out; it does not change any
  result.
- Retry.CalculateDelay: `time.Duration` is a 64-bit integer and `1 << uint(attempt-1)` overflows for large attempts; the model uses unbounded integers.
- Config.ApplyDefaults: the Go function receives `*Config` and updates it in place. The model returns the updated value, so aliasing is not modelled. A nil `Custom` map and an empty one are the same value here, so replacing nil with an empty map is a no-op.
- Config.Validate: the out-of-range temperature message ends at "between 0 and 1"; the `, got: %.2f` value is left off because the model does not format reals.
- Analyzer.FilterCommits: regular-expression compilation and matching are the parameters `compiles` and `matches`.
- Text.ToLower: `strings.ToLower` is modelled on ASCII letters only; other characters are unchanged.
- Polish.Render: every argument is a string. `%s`, `%v`, `%q`, `%x`, `%X`, `%T`, `%%`, other verbs (Go's wrong-type form), a missing argument and a trailing `%` are modelled; flags, widths, precisions and argument indexes are not.
- Polish.QuoteChar: `strconv.Quote` escapes non-ASCII characters that `unicode.IsPrint` rejects as `\u`/`\U` sequences; the model copies every non-ASCII character, because it has no Unicode category tables.
- Providers.NewRequest: the Go `Provider` interface has no `NewRequest`, so internal/workflow/workflow.go:171 does not compile. The model builds every provider's request with `RequestFromConfig`, as the OpenAI, Cerebras, OpenRouter and Ollama adapters do; for Anthropic, which defines no `NewRequest`, and for Groq, whose adapter is not part of this model, this is the model's own choice.
- Workflow.Orchestrate: internal/workflow/workflow.go:161 passes three arguments to a four-parameter generator, so it does not compile. The model passes no configuration (`None`), so the default five sections are rendered; this is the model's own choice.
- Providers.Generate: the Go interface's dynamic dispatch is a match over the six provider variants.
