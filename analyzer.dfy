/** The commit analyzer: conventional-commit categorisation and pattern
    filtering of commit subjects. Lower-casing is ASCII only, and regular
    expressions are parameters: whether a pattern compiles, and whether a
    compiled pattern matches a commit. */
module Analyzer {
  import opened Errors
  import opened Text

  /** The six buckets of `CommitCategories`. */
  datatype Bucket = Features | Fixes | Docs | Chores | Changes | Breaking

  /** `CommitCategories`. */
  datatype CommitCategories = CommitCategories(
    features: seq<string>, fixes: seq<string>, docs: seq<string>,
    chores: seq<string>, changes: seq<string>, breaking: seq<string>)
  {
    function Get(b: Bucket): seq<string>
    {
      match b
      case Features => features
      case Fixes => fixes
      case Docs => docs
      case Chores => chores
      case Changes => changes
      case Breaking => breaking
    }

    /** `CountTotal`: the number of items over all six buckets. */
    function CountTotal(): nat
    {
      |features| + |fixes| + |docs| + |chores| + |changes| + |breaking|
    }

    /** The categories with `item` appended to bucket `b`. */
    function Add(b: Bucket, item: string): (r: CommitCategories)
      ensures r.Get(b) == Get(b) + [item]
      ensures forall o :: o != b ==> r.Get(o) == Get(o)
      ensures r.CountTotal() == CountTotal() + 1
    {
      match b
      case Features => this.(features := features + [item])
      case Fixes => this.(fixes := fixes + [item])
      case Docs => this.(docs := docs + [item])
      case Chores => this.(chores := chores + [item])
      case Changes => this.(changes := changes + [item])
      case Breaking => this.(breaking := breaking + [item])
    }
  }

  const Empty: CommitCategories := CommitCategories([], [], [], [], [], [])

  /** `extractMessage`: the commit after the first of `prefixes` its
      lower-cased form starts with, trimmed; a prefix as long as the commit
      is passed over, and with no usable prefix the whole commit is trimmed. */
  function ExtractMessage(commit: string, prefixes: seq<string>): (m: string)
    ensures exists k :: 0 <= k <= |commit| && m == TrimSpace(commit[k..])
  {
    if prefixes == [] then
      assert commit[0..] == commit;
      TrimSpace(commit)
    else if HasPrefix(ToLower(commit), prefixes[0]) && |prefixes[0]| < |commit| then
      TrimSpace(commit[|prefixes[0]|..])
    else ExtractMessage(commit, prefixes[1..])
  }

  /** The loop of `extractMessage`: the prefixes are tried in order against
      the lower-cased commit, and the first that matches and is shorter than
      the commit is cut off. */
  method ScanPrefixes(commit: string, prefixes: seq<string>) returns (m: string)
    ensures m == ExtractMessage(commit, prefixes)
  {
    var lower := ToLower(commit);
    for i := 0 to |prefixes|
      invariant ExtractMessage(commit, prefixes[i..]) == ExtractMessage(commit, prefixes)
    {
      var prefix := prefixes[i];
      assert prefixes[i..][0] == prefix && prefixes[i..][1..] == prefixes[i + 1..];
      if HasPrefix(lower, prefix) {
        var idx := |prefix|;
        if idx < |commit| {
          return TrimSpace(commit[idx..]);
        }
      }
    }
    assert prefixes[|prefixes|..] == [];
    return TrimSpace(commit);
  }

  /** A prefix that is the whole commit, or no matching prefix, leaves the
      trimmed commit. */
  lemma {:induction false} ExtractMessageNoPrefix(commit: string, prefixes: seq<string>)
    requires forall i :: 0 <= i < |prefixes| ==> !HasPrefix(ToLower(commit), prefixes[i]) || |prefixes[i]| >= |commit|
    ensures ExtractMessage(commit, prefixes) == TrimSpace(commit)
  {
    if prefixes != [] {
      ExtractMessageNoPrefix(commit, prefixes[1..]);
    }
  }

  /** The prefix test sees the commit case-insensitively, but the message
      keeps the commit's own case: the text after the prefix, trimmed. */
  lemma ExtractMessageFirstPrefix(commit: string, prefix: string, rest: seq<string>)
    requires HasPrefix(ToLower(commit), prefix) && |prefix| < |commit|
    ensures ExtractMessage(commit, [prefix] + rest) == TrimSpace(commit[|prefix|..])
  {
  }

  /** The breaking-change test, made before any prefix test. */
  predicate IsBreaking(commit: string)
  {
    Contains(ToLower(commit), "breaking") || Contains(commit, "BREAKING CHANGE")
  }

  /** One case of the prefix switch: the prefixes it tests and the bucket it files into. */
  datatype Rule = Rule(prefixes: seq<string>, bucket: Bucket)

  /** The cases of the prefix switch in their order; "test:" files into Chores
      and "refactor:" into Changes. */
  const Rules: seq<Rule> := [
    Rule(["feat:", "feature:"], Features),
    Rule(["fix:"], Fixes),
    Rule(["docs:"], Docs),
    Rule(["chore:"], Chores),
    Rule(["refactor:"], Changes),
    Rule(["test:"], Chores)
  ]

  /** The lower-cased commit starts with one of `prefixes`. */
  predicate AnyPrefix(lower: string, prefixes: seq<string>)
  {
    exists i | 0 <= i < |prefixes| :: HasPrefix(lower, prefixes[i])
  }

  /** No case files into Breaking. */
  predicate NoBreakingRule(rules: seq<Rule>)
  {
    forall i | 0 <= i < |rules| :: rules[i].bucket != Breaking
  }

  /** The first case whose prefixes match decides; with none, Changes gets
      the commit verbatim. */
  function FirstRule(commit: string, rules: seq<Rule>): (c: (Bucket, string))
    ensures c == (Changes, commit) || exists i | 0 <= i < |rules| :: c == (rules[i].bucket, ExtractMessage(commit, rules[i].prefixes))
    ensures NoBreakingRule(rules) ==> c.0 != Breaking
  {
    if rules == [] then (Changes, commit)
    else if AnyPrefix(ToLower(commit), rules[0].prefixes) then (rules[0].bucket, ExtractMessage(commit, rules[0].prefixes))
    else
      var c := FirstRule(commit, rules[1..]);
      assert c == (Changes, commit) || exists i | 1 <= i < |rules| :: c == (rules[i].bucket, ExtractMessage(commit, rules[i].prefixes)) by {
        if c != (Changes, commit) {
          var j :| 0 <= j < |rules[1..]| && c == (rules[1..][j].bucket, ExtractMessage(commit, rules[1..][j].prefixes));
          assert rules[1..][j] == rules[j + 1];
        }
      }
      c
  }

  /** `FirstRule` picks rule `i` exactly when it matches and no earlier one does. */
  lemma {:induction false} FirstRuleAt(commit: string, rules: seq<Rule>, i: nat)
    requires i < |rules| && AnyPrefix(ToLower(commit), rules[i].prefixes)
    requires forall j :: 0 <= j < i ==> !AnyPrefix(ToLower(commit), rules[j].prefixes)
    ensures FirstRule(commit, rules) == (rules[i].bucket, ExtractMessage(commit, rules[i].prefixes))
  {
    if i > 0 {
      assert forall j :: 0 <= j < i - 1 ==> rules[1..][j] == rules[j + 1];
      FirstRuleAt(commit, rules[1..], i - 1);
    }
  }

  /** With no matching case, `FirstRule` leaves the commit untouched in Changes. */
  lemma {:induction false} FirstRuleNone(commit: string, rules: seq<Rule>)
    requires forall j :: 0 <= j < |rules| ==> !AnyPrefix(ToLower(commit), rules[j].prefixes)
    ensures FirstRule(commit, rules) == (Changes, commit)
  {
    if rules != [] {
      assert forall j :: 0 <= j < |rules| - 1 ==> rules[1..][j] == rules[j + 1];
      FirstRuleNone(commit, rules[1..]);
    }
  }

  /** Where a commit goes and the item stored for it: a breaking commit is
      kept verbatim in Breaking, any other goes where the prefix switch says. */
  function Classify(commit: string): (c: (Bucket, string))
    ensures c.0 == Breaking <==> IsBreaking(commit)
    ensures c.0 == Breaking ==> c.1 == commit
    ensures !IsBreaking(commit) ==> c == FirstRule(commit, Rules)
  {
    if IsBreaking(commit) then (Breaking, commit)
    else
      assert NoBreakingRule(Rules);
      FirstRule(commit, Rules)
  }

  /** A non-breaking "fix:" commit goes to Fixes as the trimmed text after
      the prefix, in the commit's own case. */
  lemma FixGoesToFixes(commit: string)
    requires !IsBreaking(commit) && HasPrefix(ToLower(commit), "fix:") && 4 < |commit|
    ensures Classify(commit) == (Fixes, TrimSpace(commit[4..]))
  {
    assert !HasPrefix(ToLower(commit), "feat:") && !HasPrefix(ToLower(commit), "feature:") by {
      assert ToLower(commit)[3] == ':';
    }
    assert AnyPrefix(ToLower(commit), Rules[1].prefixes) by {
      assert HasPrefix(ToLower(commit), Rules[1].prefixes[0]);
    }
    FirstRuleAt(commit, Rules, 1);
  }

  /** A commit with no recognised prefix and no breaking marker goes to
      Changes exactly as written, untrimmed. */
  lemma UnprefixedGoesToChanges(commit: string)
    requires !IsBreaking(commit)
    requires forall j :: 0 <= j < |Rules| ==> !AnyPrefix(ToLower(commit), Rules[j].prefixes)
    ensures Classify(commit) == (Changes, commit)
  {
    FirstRuleNone(commit, Rules);
  }

  /** The upper-case test is subsumed by the lower-cased one: any commit
      containing "BREAKING CHANGE" also contains "breaking" once lowered. */
  lemma UpperBreakingIsLowerBreaking(commit: string)
    requires Contains(commit, "BREAKING CHANGE")
    ensures Contains(ToLower(commit), "breaking")
  {
    var k :| 0 <= k <= |commit| && OccursAt(commit, "BREAKING CHANGE", k);
    var lower := ToLower(commit);
    forall i | 0 <= i < 8
      ensures lower[k + i] == "breaking"[i]
    {
      assert commit[k + i] == commit[k..k + 15][i];
    }
    assert lower[k..k + 8] == "breaking";
    assert OccursAt(lower, "breaking", k);
  }

  /** The items bucket `b` receives from `commits`, in input order. */
  function Items(commits: seq<string>, b: Bucket): (r: seq<string>)
    ensures |r| <= |commits|
  {
    if commits == [] then []
    else
      var c := Classify(commits[|commits| - 1]);
      Items(commits[..|commits| - 1], b) + (if c.0 == b then [c.1] else [])
  }

  /** Categorising a concatenation categorises each part and keeps the
      first part's items ahead of the second's in every bucket. */
  lemma {:induction false} ItemsAppend(a: seq<string>, c: seq<string>, b: Bucket)
    ensures Items(a + c, b) == Items(a, b) + Items(c, b)
    decreases |c|
  {
    if c == [] {
      assert a + c == a;
    } else {
      assert (a + c)[..|a + c| - 1] == a + c[..|c| - 1];
      ItemsAppend(a, c[..|c| - 1], b);
    }
  }

  /** What `CategorizeCommits` returns: each bucket holds its items in input order. */
  function Categorize(commits: seq<string>): CommitCategories
  {
    CommitCategories(Items(commits, Features), Items(commits, Fixes), Items(commits, Docs),
                     Items(commits, Chores), Items(commits, Changes), Items(commits, Breaking))
  }

  /** Every commit lands in exactly one bucket. */
  lemma {:induction false} CountTotalCategorize(commits: seq<string>)
    ensures Categorize(commits).CountTotal() == |commits|
  {
    if commits != [] {
      CountTotalCategorize(commits[..|commits| - 1]);
    }
  }

  /** `CategorizeCommits`: the loop appending each commit's item to its bucket. */
  method CategorizeCommits(commits: seq<string>) returns (cats: CommitCategories)
    ensures cats == Categorize(commits)
  {
    cats := Empty;
    var i := 0;
    while i < |commits|
      invariant 0 <= i <= |commits|
      invariant cats == Categorize(commits[..i])
    {
      var c := Classify(commits[i]);
      cats := cats.Add(c.0, c.1);
      assert commits[..i + 1][..i] == commits[..i];
      i := i + 1;
    }
    assert commits[..i] == commits;
  }

  /** `CommitFilterConfig`. */
  datatype CommitFilterConfig = CommitFilterConfig(excludeAuthors: seq<string>, excludePatterns: seq<string>)

  /** The patterns that compile, in their order. */
  function Compiled(patterns: seq<string>, compiles: string -> bool): (r: seq<string>)
    ensures forall x :: x in r ==> x in patterns && compiles(x)
    ensures forall x :: x in patterns && compiles(x) ==> x in r
  {
    if patterns == [] then []
    else Compiled(patterns[..|patterns| - 1], compiles)
         + (if compiles(patterns[|patterns| - 1]) then [patterns[|patterns| - 1]] else [])
  }

  /** Some compiled pattern matches the commit. */
  predicate Excluded(commit: string, regexes: seq<string>, matches: (string, string) -> bool)
  {
    exists i | 0 <= i < |regexes| :: matches(regexes[i], commit)
  }

  /** The commits no pattern in `regexes` matches, in their order. */
  function Kept(commits: seq<string>, regexes: seq<string>, matches: (string, string) -> bool): (r: seq<string>)
    ensures |r| <= |commits|
    ensures forall x :: x in r ==> x in commits && !Excluded(x, regexes, matches)
    ensures forall x :: x in commits && !Excluded(x, regexes, matches) ==> x in r
  {
    if commits == [] then []
    else
      var last := commits[|commits| - 1];
      Kept(commits[..|commits| - 1], regexes, matches) + (if Excluded(last, regexes, matches) then [] else [last])
  }

  /** With no pattern that compiles, nothing is filtered out. */
  lemma {:induction false} KeptNoRegexes(commits: seq<string>, matches: (string, string) -> bool)
    ensures Kept(commits, [], matches) == commits
  {
    if commits != [] {
      KeptNoRegexes(commits[..|commits| - 1], matches);
      assert commits[..|commits| - 1] + [commits[|commits| - 1]] == commits;
    }
  }

  /** What `FilterCommits` returns. A missing configuration, or one with
      both lists empty, leaves the commits as they are; otherwise the
      commits matched by a compiling pattern are dropped. The author list
      only decides whether filtering happens at all. */
  function FilterSpec(commits: seq<string>, config: Option<CommitFilterConfig>,
                      compiles: string -> bool, matches: (string, string) -> bool): seq<string>
  {
    if config.None? || (|config.value.excludeAuthors| == 0 && |config.value.excludePatterns| == 0) then commits
    else Kept(commits, Compiled(config.value.excludePatterns, compiles), matches)
  }

  /** The compile loop of `FilterCommits`: patterns that fail to compile are skipped. */
  method CompilePatterns(patterns: seq<string>, compiles: string -> bool) returns (regexes: seq<string>)
    ensures regexes == Compiled(patterns, compiles)
  {
    regexes := [];
    var j := 0;
    while j < |patterns|
      invariant 0 <= j <= |patterns|
      invariant regexes == Compiled(patterns[..j], compiles)
    {
      if compiles(patterns[j]) {
        regexes := regexes + [patterns[j]];
      }
      assert patterns[..j + 1][..j] == patterns[..j];
      j := j + 1;
    }
    assert patterns[..j] == patterns;
  }

  /** The inner loop of `FilterCommits`: stops at the first pattern that matches. */
  method MatchesAny(commit: string, regexes: seq<string>, matches: (string, string) -> bool) returns (excluded: bool)
    ensures excluded == Excluded(commit, regexes, matches)
  {
    excluded := false;
    var r := 0;
    while r < |regexes|
      invariant 0 <= r <= |regexes|
      invariant !excluded
      invariant forall q | 0 <= q < r :: !matches(regexes[q], commit)
    {
      if matches(regexes[r], commit) {
        return true;
      }
      r := r + 1;
    }
  }

  /** The outer loop of `FilterCommits`: keeps the commits no compiled pattern matches. */
  method KeepUnmatched(commits: seq<string>, regexes: seq<string>, matches: (string, string) -> bool)
    returns (filtered: seq<string>)
    ensures filtered == Kept(commits, regexes, matches)
  {
    filtered := [];
    var i := 0;
    while i < |commits|
      invariant 0 <= i <= |commits|
      invariant filtered == Kept(commits[..i], regexes, matches)
    {
      var excluded := MatchesAny(commits[i], regexes, matches);
      if !excluded {
        filtered := filtered + [commits[i]];
      }
      assert commits[..i + 1][..i] == commits[..i];
      i := i + 1;
    }
    assert commits[..i] == commits;
  }

  /** `FilterCommits`: compile the patterns, then keep each commit no
      compiled pattern matches. */
  method FilterCommits(commits: seq<string>, config: Option<CommitFilterConfig>,
                       compiles: string -> bool, matches: (string, string) -> bool)
    returns (filtered: seq<string>)
    ensures filtered == FilterSpec(commits, config, compiles, matches)
  {
    if config.None? || (|config.value.excludeAuthors| == 0 && |config.value.excludePatterns| == 0) {
      return commits;
    }
    var regexes := CompilePatterns(config.value.excludePatterns, compiles);
    filtered := KeepUnmatched(commits, regexes, matches);
  }
}
