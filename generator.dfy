/** The template release-notes generator: a Keep a Changelog entry built
    from the categorised commits, without any AI. The date and the
    analysed context's file and token counts are parameters. */
module Generator {
  import opened Errors
  import opened Text
  import opened Config
  import opened Analyzer

  /** What the generator reads of the analysed project context. */
  datatype ContextResult = ContextResult(filesChanged: nat, tokenCount: int)

  /** The sections rendered when no configuration names any. */
  const TemplateSections: seq<string> := ["breaking", "added", "fixed", "changed", "docs"]

  /** The heading version: an empty version is "Unreleased". */
  function VersionLabel(version: string): (v: string)
    ensures v != ""
    ensures version != "" ==> v == version
    ensures version == "" ==> v == "Unreleased"
  {
    if version == "" then "Unreleased" else version
  }

  function Header(version: string, date: string): string
  {
    "## [" + VersionLabel(version) + "] - " + date + "\n\n"
  }

  /** The sections to render: the configured list when there is one and it
      is not empty, otherwise the template's five. */
  function Sections(cfg: Option<Config>): (s: seq<string>)
    ensures cfg.Some? && |cfg.value.output.sections| > 0 ==> s == cfg.value.output.sections
    ensures cfg.None? || |cfg.value.output.sections| == 0 ==> s == TemplateSections
  {
    if cfg.Some? && |cfg.value.output.sections| > 0 then cfg.value.output.sections else TemplateSections
  }

  /** The bucket a section name selects, compared case-insensitively; both
      "docs" and "documentation" select Docs, and no name selects Chores. */
  function SectionBucket(name: string): (b: Option<Bucket>)
    ensures b != Some(Chores)
    ensures b == Some(Breaking) <==> ToLower(name) == "breaking"
    ensures b == Some(Features) <==> ToLower(name) == "added"
    ensures b == Some(Fixes) <==> ToLower(name) == "fixed"
    ensures b == Some(Changes) <==> ToLower(name) == "changed"
    ensures b == Some(Docs) <==> ToLower(name) in {"docs", "documentation"}
    ensures b.None? <==> ToLower(name) !in {"breaking", "added", "fixed", "changed", "docs", "documentation"}
  {
    var n := ToLower(name);
    if n == "breaking" then Some(Breaking)
    else if n == "added" then Some(Features)
    else if n == "fixed" then Some(Fixes)
    else if n == "changed" then Some(Changes)
    else if n == "docs" || n == "documentation" then Some(Docs)
    else None
  }

  /** Section names are matched case-insensitively. */
  lemma SectionBucketIgnoresCase(name: string)
    ensures SectionBucket(ToLower(name)) == SectionBucket(name)
  {
    ToLowerIdempotent(name);
  }

  function Heading(b: Bucket): string
  {
    match b
    case Breaking => "### \U{26A0}\U{FE0F} Breaking Changes\n"
    case Features => "### Added\n"
    case Fixes => "### Fixed\n"
    case Changes => "### Changed\n"
    case Docs => "### Documentation\n"
    case Chores => ""
  }

  /** One bullet: the item, trimmed. */
  function Line(item: string): string
  {
    "- " + TrimSpace(item) + "\n"
  }

  /** The bullets of a bucket, in order. */
  function Lines(items: seq<string>): string
  {
    if items == [] then "" else Lines(items[..|items| - 1]) + Line(items[|items| - 1])
  }

  /** Every item of a bucket appears, trimmed, as a bullet line of it. */
  lemma {:induction false} LinesContainItem(items: seq<string>, i: nat)
    requires i < |items|
    ensures Contains(Lines(items), Line(items[i]))
    decreases |items|
  {
    var init := items[..|items| - 1];
    if i == |items| - 1 {
      ContainsMiddle(Lines(init), Line(items[i]), "");
      assert Lines(init) + Line(items[i]) + "" == Lines(items);
    } else {
      LinesContainItem(init, i);
      ContainsExtend(Lines(init), Line(items[|items| - 1]), Line(items[i]));
    }
  }

  /** One configured section: nothing for an unknown name or an empty
      bucket, otherwise its heading, its bullets and a blank line. */
  function Section(name: string, cats: CommitCategories): (s: string)
    ensures SectionBucket(name).None? ==> s == ""
    ensures SectionBucket(name).Some? && cats.Get(SectionBucket(name).value) == [] ==> s == ""
    ensures SectionBucket(name).Some? && cats.Get(SectionBucket(name).value) != [] ==>
              var b := SectionBucket(name).value;
              s == Heading(b) + Lines(cats.Get(b)) + "\n"
  {
    match SectionBucket(name)
    case None => ""
    case Some(b) =>
      if |cats.Get(b)| == 0 then "" else Heading(b) + Lines(cats.Get(b)) + "\n"
  }

  /** A selected section lists every item of its bucket. */
  lemma SectionListsItems(name: string, cats: CommitCategories, i: nat)
    requires SectionBucket(name).Some? && i < |cats.Get(SectionBucket(name).value)|
    ensures var items := cats.Get(SectionBucket(name).value);
            Contains(Section(name, cats), Line(items[i]))
  {
    var b := SectionBucket(name).value;
    LinesContainItem(cats.Get(b), i);
    ContainsPrepend(Heading(b), Lines(cats.Get(b)), Line(cats.Get(b)[i]));
    ContainsExtend(Heading(b) + Lines(cats.Get(b)), "\n", Line(cats.Get(b)[i]));
  }

  /** The sections, in the order they are named; a name given twice is rendered twice. */
  function Body(names: seq<string>, cats: CommitCategories): string
  {
    if names == [] then "" else Body(names[..|names| - 1], cats) + Section(names[|names| - 1], cats)
  }

  /** Chores are counted in the statistics but never listed: the body does
      not depend on them. */
  lemma {:induction false} BodyIgnoresChores(names: seq<string>, cats: CommitCategories, chores: seq<string>)
    ensures Body(names, cats) == Body(names, cats.(chores := chores))
  {
    if names != [] {
      BodyIgnoresChores(names[..|names| - 1], cats, chores);
      var b := SectionBucket(names[|names| - 1]);
      if b.Some? {
        assert cats.Get(b.value) == cats.(chores := chores).Get(b.value);
      }
    }
  }

  /** With every listed bucket empty, the body is empty. */
  lemma {:induction false} BodyOfEmpty(names: seq<string>)
    ensures Body(names, Empty) == ""
  {
    if names != [] {
      BodyOfEmpty(names[..|names| - 1]);
    }
  }

  function Statistics(filesChanged: nat, commits: nat, tokenCount: int): string
  {
    "### Statistics\n"
    + "- **Files changed**: " + NatToString(filesChanged) + "\n"
    + "- **Commits**: " + NatToString(commits) + "\n"
    + "- **Context analyzed**: ~" + IntToString(tokenCount) + " tokens\n"
    + "\n"
  }

  /** The statistics over all six buckets and the closing rule. */
  function Footer(ctx: ContextResult, commits: nat): string
  {
    Statistics(ctx.filesChanged, commits, ctx.tokenCount) + "---\n\n"
  }

  /** The release notes `GenerateReleaseNotes` returns: heading, sections
      and footer. */
  function ReleaseNotes(version: string, date: string, cats: CommitCategories,
                        ctx: ContextResult, cfg: Option<Config>): string
  {
    Header(version, date) + Body(Sections(cfg), cats) + Footer(ctx, cats.CountTotal())
  }

  /** Notes for no commits hold only the heading and the footer. */
  lemma NotesForNoCommits(version: string, date: string, ctx: ContextResult, cfg: Option<Config>)
    ensures ReleaseNotes(version, date, Empty, ctx, cfg) == Header(version, date) + Footer(ctx, 0)
  {
    BodyOfEmpty(Sections(cfg));
    assert Header(version, date) + "" == Header(version, date);
  }

  /** The bullet loop for one bucket. */
  method WriteLines(items: seq<string>) returns (out: string)
    ensures out == Lines(items)
  {
    out := "";
    var i := 0;
    while i < |items|
      invariant 0 <= i <= |items|
      invariant out == Lines(items[..i])
    {
      out := out + Line(items[i]);
      assert items[..i + 1][..i] == items[..i];
      i := i + 1;
    }
    assert items[..i] == items;
  }

  lemma BodyStep(names: seq<string>, i: nat, cats: CommitCategories)
    requires i < |names|
    ensures Body(names[..i + 1], cats) == Body(names[..i], cats) + Section(names[i], cats)
  {
    assert names[..i + 1][..i] == names[..i];
  }

  /** One case of the section switch: the heading and the bullet loop,
      written only when the bucket has items. */
  method WriteSection(name: string, cats: CommitCategories) returns (section: string)
    ensures section == Section(name, cats)
  {
    section := "";
    var b := SectionBucket(name);
    if b.Some? && |cats.Get(b.value)| > 0 {
      var lines := WriteLines(cats.Get(b.value));
      section := Heading(b.value) + lines + "\n";
    }
  }

  /** The loop over the configured sections. */
  method WriteBody(sections: seq<string>, cats: CommitCategories) returns (body: string)
    ensures body == Body(sections, cats)
  {
    body := "";
    var i := 0;
    while i < |sections|
      invariant 0 <= i <= |sections|
      invariant body == Body(sections[..i], cats)
    {
      var section := WriteSection(sections[i], cats);
      BodyStep(sections, i, cats);
      body := body + section;
      i := i + 1;
    }
    assert sections[..i] == sections;
  }

  /** `GenerateReleaseNotes`: heading, the sections in configured order,
      statistics and the closing rule, written one after the other. */
  method GenerateReleaseNotes(version: string, date: string, cats: CommitCategories,
                              ctx: ContextResult, cfg: Option<Config>) returns (notes: string)
    ensures notes == ReleaseNotes(version, date, cats, ctx, cfg)
  {
    var v := version;
    if v == "" {
      v := "Unreleased";
    }
    notes := "## [" + v + "] - " + date + "\n\n";
    var sections := TemplateSections;
    if cfg.Some? && |cfg.value.output.sections| > 0 {
      sections := cfg.value.output.sections;
    }
    var body := WriteBody(sections, cats);
    notes := notes + body;
    notes := notes + Footer(ctx, cats.CountTotal());
  }
}
