/** The polish stage: a second model rewrites the draft changelog, checked
    against the diff. The prompt is filled in with `fmt.Sprintf`, modelled
    here for string arguments and verbs without flags or widths. */
module Polish {
  import opened Errors
  import opened Text
  import opened Config
  import opened AiCore
  import Providers

  // ---------------------------------------------------------------------------
  // fmt.Sprintf with string arguments

  /** The UTF-8 encoding of one character, as byte values. */
  function Utf8(c: char): (bytes: seq<int>)
    ensures 1 <= |bytes| <= 4
    ensures forall i :: 0 <= i < |bytes| ==> 0 <= bytes[i] < 256
    ensures |bytes| == 1 <==> c as int < 0x80
    ensures |bytes| == 1 ==> bytes[0] == c as int
  {
    var n := c as int;
    if n < 0x80 then [n]
    else if n < 0x800 then [0xC0 + n / 64, 0x80 + n % 64]
    else if n < 0x10000 then [0xE0 + n / 4096, 0x80 + (n / 64) % 64, 0x80 + n % 64]
    else [0xF0 + n / 262144, 0x80 + (n / 4096) % 64, 0x80 + (n / 64) % 64, 0x80 + n % 64]
  }

  function HexDigit(d: int, upper: bool): (c: char)
    requires 0 <= d < 16
    ensures '0' <= c
  {
    if d < 10 then ('0' as int + d) as char
    else if upper then ('A' as int + d - 10) as char
    else ('a' as int + d - 10) as char
  }

  /** The value of a hexadecimal digit of either case; -1 for any other character. */
  function HexValue(c: char): int
  {
    if '0' <= c <= '9' then c as int - '0' as int
    else if 'a' <= c <= 'f' then c as int - 'a' as int + 10
    else if 'A' <= c <= 'F' then c as int - 'A' as int + 10
    else -1
  }

  /** Two hexadecimal digits for one byte. */
  function HexByte(b: int, upper: bool): (h: string)
    requires 0 <= b < 256
    ensures |h| == 2 && HexValue(h[0]) * 16 + HexValue(h[1]) == b
  {
    [HexDigit(b / 16, upper), HexDigit(b % 16, upper)]
  }

  function HexBytes(bytes: seq<int>, upper: bool): (h: string)
    requires forall i :: 0 <= i < |bytes| ==> 0 <= bytes[i] < 256
    ensures |h| == 2 * |bytes|
  {
    if bytes == [] then "" else HexByte(bytes[0], upper) + HexBytes(bytes[1..], upper)
  }

  /** `%x` (lower case) and `%X` (upper case) of a string: two digits per byte
      of its UTF-8 encoding. */
  function Hex(s: string, upper: bool): string
  {
    if s == [] then "" else HexBytes(Utf8(s[0]), upper) + Hex(s[1..], upper)
  }

  /** One character inside a `strconv.Quote` literal: the quote and the
      backslash are escaped, printable ASCII is copied, the seven control
      characters with a letter escape use it and the other control characters
      become `\x` and two digits. */
  function QuoteChar(c: char): (q: string)
    ensures forall i :: 0 <= i < |q| ==> q[i] as int >= 0x20
  {
    var n := c as int;
    if c == '"' then "\\\""
    else if c == '\\' then "\\\\"
    else if 0x20 <= n < 0x7F || n >= 0x80 then [c]
    else if n == 7 then "\\a"
    else if n == 8 then "\\b"
    else if n == 12 then "\\f"
    else if n == 10 then "\\n"
    else if n == 13 then "\\r"
    else if n == 9 then "\\t"
    else if n == 11 then "\\v"
    else "\\x" + HexByte(n, false)
  }

  function QuoteBody(s: string): string
  {
    if s == [] then "" else QuoteChar(s[0]) + QuoteBody(s[1..])
  }

  /** `%q` of a string: `strconv.Quote`. */
  function Quote(s: string): string
  {
    "\"" + QuoteBody(s) + "\""
  }

  /** How a verb other than `%%` prints one string argument: `%s` and `%v`
      print it, `%q` quotes it, `%x` and `%X` print its bytes in hexadecimal,
      `%T` prints its type, and any other verb prints Go's "wrong type" form. */
  function FormatString(verb: char, arg: string): string
  {
    if verb == 's' || verb == 'v' then arg
    else if verb == 'q' then Quote(arg)
    else if verb == 'x' then Hex(arg, false)
    else if verb == 'X' then Hex(arg, true)
    else if verb == 'T' then "string"
    else "%!" + [verb] + "(string=" + arg + ")"
  }

  /** The verbs and literal text of `format`, with the arguments they used
      and the arguments left over. `%%` prints a percent sign, every other
      verb prints the next argument as `FormatString` says, a verb with no
      argument left prints "(MISSING)", and a lone `%` at the end prints
      "%!(NOVERB)". */
  function Render(format: string, args: seq<string>): (r: (string, seq<string>))
    ensures |r.1| <= |args|
    ensures r.1 == [] || r.1 == args[|args| - |r.1|..]
    decreases |format|
  {
    if format == [] then ("", args)
    else if format[0] != '%' then
      var rest := Render(format[1..], args);
      ([format[0]] + rest.0, rest.1)
    else if |format| == 1 then ("%!(NOVERB)", args)
    else
      var verb := format[1];
      if verb == '%' then
        var rest := Render(format[2..], args);
        ("%" + rest.0, rest.1)
      else if args == [] then
        var rest := Render(format[2..], args);
        ("%!" + [verb] + "(MISSING)" + rest.0, rest.1)
      else
        var rest := Render(format[2..], args[1..]);
        assert rest.1 == [] || rest.1 == args[|args| - |rest.1|..] by {
          if rest.1 != [] {
            assert args[1..][|args[1..]| - |rest.1|..] == args[|args| - |rest.1|..];
          }
        }
        (FormatString(verb, args[0]) + rest.0, rest.1)
  }

  /** The "EXTRA" list of the arguments no verb used. */
  function ExtraList(args: seq<string>): string
  {
    if args == [] then ""
    else if |args| == 1 then "string=" + args[0]
    else "string=" + args[0] + ", " + ExtraList(args[1..])
  }

  /** `fmt.Sprintf(format, args...)` for string arguments. */
  function Sprintf(format: string, args: seq<string>): string
  {
    var r := Render(format, args);
    r.0 + (if r.1 == [] then "" else "%!(EXTRA " + ExtraList(r.1) + ")")
  }

  /** Text without a percent sign is copied through unchanged. */
  lemma {:induction false} RenderLiteral(text: string, rest: string, args: seq<string>)
    requires '%' !in text
    ensures Render(text + rest, args) == (text + Render(rest, args).0, Render(rest, args).1)
    decreases |text|
  {
    if text == [] {
      assert text + rest == rest;
      assert text + Render(rest, args).0 == Render(rest, args).0;
    } else {
      assert (text + rest)[1..] == text[1..] + rest;
      assert '%' !in text[1..];
      RenderLiteral(text[1..], rest, args);
      assert [text[0]] + (text[1..] + Render(rest, args).0) == text + Render(rest, args).0;
    }
  }

  /** `%s` prints the next argument. */
  lemma RenderString(rest: string, arg: string, more: seq<string>)
    ensures Render("%s" + rest, [arg] + more) == (arg + Render(rest, more).0, Render(rest, more).1)
  {
    assert ("%s" + rest)[2..] == rest;
    assert ([arg] + more)[1..] == more;
  }

  /** Any verb but `%%` takes the next argument and prints it as `FormatString` says. */
  lemma RenderVerb(verb: char, rest: string, arg: string, more: seq<string>)
    requires verb != '%'
    ensures Render("%" + [verb] + rest, [arg] + more)
            == (FormatString(verb, arg) + Render(rest, more).0, Render(rest, more).1)
  {
    assert ("%" + [verb] + rest)[1] == verb;
    assert ("%" + [verb] + rest)[2..] == rest;
    assert ([arg] + more)[1..] == more;
  }

  /** Printable ASCII other than the quote and the backslash needs no escape. */
  predicate Plain(s: string)
  {
    forall i :: 0 <= i < |s| ==> 0x20 <= s[i] as int < 0x7F && s[i] != '"' && s[i] != '\\'
  }

  /** `%q` of plain text is that text between double quotes. */
  lemma QuotePlain(s: string)
    requires Plain(s)
    ensures Quote(s) == "\"" + s + "\""
  {
    QuoteBodyPlain(s);
  }

  lemma {:induction false} QuoteBodyPlain(s: string)
    requires Plain(s)
    ensures QuoteBody(s) == s
  {
    if s != [] {
      assert Plain(s[1..]) by {
        forall i | 0 <= i < |s[1..]| ensures 0x20 <= s[1..][i] as int < 0x7F && s[1..][i] != '"' && s[1..][i] != '\\' {
          assert s[1..][i] == s[i + 1];
        }
      }
      QuoteBodyPlain(s[1..]);
      assert QuoteChar(s[0]) == [s[0]];
      assert [s[0]] + s[1..] == s;
    }
  }

  /** Every control character is escaped: the body of a quoted string never
      holds a raw newline, tab or other character below the space. */
  lemma {:induction false} QuoteBodyHasNoControl(s: string)
    ensures forall i :: 0 <= i < |QuoteBody(s)| ==> QuoteBody(s)[i] as int >= 0x20
  {
    if s != [] {
      QuoteBodyHasNoControl(s[1..]);
      var head := QuoteChar(s[0]);
      forall i | 0 <= i < |QuoteBody(s)| ensures QuoteBody(s)[i] as int >= 0x20 {
        if i >= |head| {
          assert QuoteBody(s)[i] == QuoteBody(s[1..])[i - |head|];
        }
      }
    }
  }

  /** `%x` of ASCII text has two digits per character, and each pair of
      digits reads back as that character's code. */
  lemma {:induction false} HexAscii(s: string, upper: bool)
    requires forall i :: 0 <= i < |s| ==> s[i] as int < 0x80
    ensures |Hex(s, upper)| == 2 * |s|
    ensures forall i :: 0 <= i < |s| ==>
              HexValue(Hex(s, upper)[2 * i]) * 16 + HexValue(Hex(s, upper)[2 * i + 1]) == s[i] as int
  {
    if s != [] {
      HexAscii(s[1..], upper);
      var head := HexBytes(Utf8(s[0]), upper);
      assert head == HexByte(s[0] as int, upper) + "";
      var h := Hex(s, upper);
      assert h == head + Hex(s[1..], upper);
      forall i | 0 <= i < |s|
        ensures HexValue(h[2 * i]) * 16 + HexValue(h[2 * i + 1]) == s[i] as int
      {
        if i > 0 {
          assert h[2 * i] == Hex(s[1..], upper)[2 * (i - 1)];
          assert h[2 * i + 1] == Hex(s[1..], upper)[2 * (i - 1) + 1];
          assert s[i] == s[1..][i - 1];
        }
      }
    }
  }

  /** `%q` alone quotes plain text and leaves the second argument unused. */
  lemma RenderQuoted(draft: string, diff: string)
    requires Plain(draft)
    ensures Render("%q", [draft, diff]) == ("\"" + draft + "\"", [diff])
  {
    assert "%q"[2..] == [] && [draft, diff][1..] == [diff];
    var quoted := FormatString('q', draft);
    assert Render("%q", [draft, diff]) == (quoted + "", [diff]);
    QuotePlain(draft);
    assert quoted + "" == "\"" + draft + "\"";
  }

  /** A custom prompt using `%q` for the draft quotes it, and the unused diff
      lands in the EXTRA list. */
  lemma QuotedDraft(prefix: string, draft: string, diff: string)
    requires '%' !in prefix && Plain(draft)
    ensures Sprintf(prefix + "%q", [draft, diff])
            == prefix + ("\"" + draft + "\"") + ("%!(EXTRA " + "string=" + diff + ")")
  {
    var whole := Render(prefix + "%q", [draft, diff]);
    assert whole == (prefix + ("\"" + draft + "\""), [diff]) by {
      RenderQuoted(draft, diff);
      RenderLiteral(prefix, "%q", [draft, diff]);
    }
    assert ExtraList([diff]) == "string=" + diff;
    assert Sprintf(prefix + "%q", [draft, diff]) == whole.0 + ("%!(EXTRA " + ExtraList(whole.1) + ")");
  }

  /** With no verbs, a format is printed as written followed by every
      argument in the EXTRA list. */
  lemma CustomPromptWithoutVerbs(format: string, draft: string, diff: string)
    requires '%' !in format
    ensures Sprintf(format, [draft, diff]) == format + "%!(EXTRA " + ("string=" + draft + ", " + "string=" + diff) + ")"
  {
    RenderLiteral(format, "", [draft, diff]);
    assert format + "" == format;
    assert Render("", [draft, diff]) == ("", [draft, diff]);
    ExtraPair(draft, diff);
  }

  /** Two leftover arguments are listed in order, separated by a comma. */
  lemma ExtraPair(a: string, b: string)
    ensures ExtraList([a, b]) == "string=" + a + ", " + "string=" + b
  {
    assert [a, b][1..] == [b];
  }

  // ---------------------------------------------------------------------------
  // The default prompt

  const PromptHead: string :=
    "Polish this changelog entry. " + "The diff is provided for " + "verification only.\n\nCHANGELOG:\n"
  const PromptMiddle: string := "\n\nDIFF (for verification):\n"
  const RulesA: string := "\n\nRules:\n" + "1. Keep EXACTLY the same number of " + "items - do NOT add or remove any\n"
  const RulesB: string := "2. Only reword the existing text\n" + "3. Avoid \"we\", \"we've\", \"our\"\n"
  const RulesC: string := "4. Use active voice: " + "\"Updated X\", \"Fixed Y\"\n" + "5. Keep it concise\n\n"
  const Closing: string := "Output only the polished changelog" + " with the SAME items."
  const PromptTail: string := RulesA + RulesB + RulesC + Closing

  /** `DefaultPolishPrompt`: the changelog slot, then the diff slot. */
  const DefaultPolishPrompt: string := PromptHead + "%s" + PromptMiddle + "%s" + PromptTail

  lemma NoPercentAppend(a: string, b: string)
    requires '%' !in a && '%' !in b
    ensures '%' !in a + b
  {
  }

  lemma HeadHasNoVerbs()
    ensures '%' !in PromptHead
  {
    var h1, h2, h3 := "Polish this changelog entry. ", "The diff is provided for ", "verification only.\n\nCHANGELOG:\n";
    assert '%' !in h1 && '%' !in h2 && '%' !in h3;
    NoPercentAppend(h1, h2);
    NoPercentAppend(h1 + h2, h3);
  }

  lemma RulesAHaveNoVerbs()
    ensures '%' !in RulesA
  {
    var t0, t1, t2 := "\n\nRules:\n", "1. Keep EXACTLY the same number of ", "items - do NOT add or remove any\n";
    assert '%' !in t0 && '%' !in t1 && '%' !in t2;
    NoPercentAppend(t0, t1);
    NoPercentAppend(t0 + t1, t2);
  }

  lemma RulesBHaveNoVerbs()
    ensures '%' !in RulesB
  {
    var t3, t4 := "2. Only reword the existing text\n", "3. Avoid \"we\", \"we've\", \"our\"\n";
    assert '%' !in t3 && '%' !in t4;
    NoPercentAppend(t3, t4);
  }

  lemma RulesCHaveNoVerbs()
    ensures '%' !in RulesC
  {
    var t5, t6, t7 := "4. Use active voice: ", "\"Updated X\", \"Fixed Y\"\n", "5. Keep it concise\n\n";
    assert '%' !in t5 && '%' !in t6 && '%' !in t7;
    NoPercentAppend(t5, t6);
    NoPercentAppend(t5 + t6, t7);
  }

  lemma ClosingHasNoVerbs()
    ensures '%' !in Closing
  {
    var t8, t9 := "Output only the polished changelog", " with the SAME items.";
    assert '%' !in t8 && '%' !in t9;
    NoPercentAppend(t8, t9);
  }

  lemma TailHasNoVerbs()
    ensures '%' !in PromptTail
  {
    RulesAHaveNoVerbs();
    RulesBHaveNoVerbs();
    RulesCHaveNoVerbs();
    ClosingHasNoVerbs();
    NoPercentAppend(RulesA, RulesB);
    NoPercentAppend(RulesA + RulesB, RulesC);
    NoPercentAppend(RulesA + RulesB + RulesC, Closing);
  }

  /** A `%s` slot after verb-free text takes the next argument. */
  lemma FillSlot(head: string, rest: string, a: string, more: seq<string>)
    requires '%' !in head
    ensures Render(head + ("%s" + rest), [a] + more) == (head + (a + Render(rest, more).0), Render(rest, more).1)
  {
    RenderLiteral(head, "%s" + rest, [a] + more);
    RenderString(rest, a, more);
  }

  /** A template of two `%s` slots in verb-free text, filled with two
      arguments, is the text with the arguments in the slots. */
  lemma FillTwoSlots(head: string, middle: string, tail: string, a: string, b: string)
    requires '%' !in head && '%' !in middle && '%' !in tail
    ensures Sprintf(head + "%s" + middle + "%s" + tail, [a, b]) == head + a + middle + b + tail
  {
    var format := head + ("%s" + (middle + ("%s" + tail)));
    assert head + "%s" + middle + "%s" + tail == format;
    assert [a, b] == [a] + [b];
    assert [b] == [b] + [];
    FillSlot(middle, tail, b, []);
    FillSlot(head, middle + ("%s" + tail), a, [b]);
    RenderLiteral(tail, "", []);
    assert tail + "" == tail;
    assert Render("", []) == ("", []);
    assert Render(format, [a, b]) == (head + (a + (middle + (b + tail))), []);
    assert head + (a + (middle + (b + tail))) == head + a + middle + b + tail;
  }

  /** The default prompt filled in holds the draft and then the diff, each
      verbatim, between the fixed parts of the template. */
  lemma DefaultPromptFilled(draft: string, diff: string)
    ensures Sprintf(DefaultPolishPrompt, [draft, diff]) == PromptHead + draft + PromptMiddle + diff + PromptTail
  {
    HeadHasNoVerbs();
    assert '%' !in PromptMiddle;
    TailHasNoVerbs();
    FillTwoSlots(PromptHead, PromptMiddle, PromptTail, draft, diff);
  }

  /** So the default prompt contains both the draft and the diff. */
  lemma DefaultPromptContainsInputs(draft: string, diff: string)
    ensures Contains(Sprintf(DefaultPolishPrompt, [draft, diff]), draft)
    ensures Contains(Sprintf(DefaultPolishPrompt, [draft, diff]), diff)
  {
    DefaultPromptFilled(draft, diff);
    ContainsBothSlots(PromptHead, draft, PromptMiddle, diff, PromptTail);
  }

  lemma ContainsBothSlots(h: string, a: string, m: string, b: string, t: string)
    ensures Contains(h + a + m + b + t, a) && Contains(h + a + m + b + t, b)
  {
    ContainsMiddle(h, a, m + b + t);
    assert h + a + m + b + t == h + a + (m + b + t);
    ContainsMiddle(h + a + m, b, t);
  }

  // ---------------------------------------------------------------------------
  // PolishChangelog

  const NoPolish: PolishConfig := PolishConfig(false, "", "", "", "", 0, 0.0)

  /** The configuration the polish provider is built with: provider, model
      and key variable from the polish getters, token limit and temperature
      from the polish settings, and timeout, retry and custom settings from
      the main stage; everything else is left at its zero value. */
  function PolishConfigOf(cfg: Config): (p: Config)
    ensures p.ai.provider == GetPolishProvider(cfg) && p.ai.model == GetPolishModel(cfg)
    ensures p.ai.apiKeyEnv == GetPolishAPIKeyEnv(cfg)
    ensures p.ai.maxTokens == cfg.ai.polish.polishMaxTokens && p.ai.temperature == cfg.ai.polish.polishTemperature
    ensures p.ai.timeout == cfg.ai.timeout && p.ai.retry == cfg.ai.retry && p.ai.custom == cfg.ai.custom
    ensures !p.ai.polish.enabled
  {
    Config("",
           AIConfig(GetPolishProvider(cfg), GetPolishModel(cfg), GetPolishAPIKeyEnv(cfg),
                    cfg.ai.polish.polishMaxTokens, cfg.ai.polish.polishTemperature,
                    cfg.ai.timeout, cfg.ai.retry, cfg.ai.custom, NoPolish),
           OutputConfig("", [], ""),
           FiltersConfig(FileFilters([], [], false), CommitFilters([], [])))
  }

  /** The prompt: the custom template when one is set, else the default,
      either filled with the draft and then the diff. */
  function PolishPrompt(cfg: Config, draft: string, diff: string): (p: string)
    ensures cfg.ai.polish.polishPrompt == "" ==> p == PromptHead + draft + PromptMiddle + diff + PromptTail
    ensures cfg.ai.polish.polishPrompt != "" ==> p == Sprintf(cfg.ai.polish.polishPrompt, [draft, diff])
  {
    DefaultPromptFilled(draft, diff);
    var template := if cfg.ai.polish.polishPrompt == "" then DefaultPolishPrompt else cfg.ai.polish.polishPrompt;
    Sprintf(template, [draft, diff])
  }

  /** The request to the polish model: no system prompt. */
  function PolishRequest(cfg: Config, prompt: string): (r: Request)
    ensures r.prompt == prompt && r.systemPrompt == "" && r.model == GetPolishModel(cfg)
    ensures r.maxTokens == cfg.ai.polish.polishMaxTokens && r.temperature == cfg.ai.polish.polishTemperature
  {
    Request(prompt, "", GetPolishModel(cfg), cfg.ai.polish.polishMaxTokens, cfg.ai.polish.polishTemperature)
  }

  /** The polish call proper: the prompt sent to the built provider, and its
      content returned as it came back, with no header stripping. */
  function PolishWith(p: Providers.Provider, cfg: Config, draft: string, diff: string,
                      net: Providers.Network): (r: Result<string>)
    ensures var g := Providers.Generate(p, PolishRequest(cfg, PolishPrompt(cfg, draft, diff)), net);
            (r.Ok? <==> g.result.Ok?)
            && (r.Ok? ==> r.value == g.result.value.content)
            && (r.Err? ==> r.error == Wrap("failed to polish changelog", Some(g.result.error)))
  {
    var g := Providers.Generate(p, PolishRequest(cfg, PolishPrompt(cfg, draft, diff)), net);
    match g.result
    case Err(e) => Err(Wrap("failed to polish changelog", Some(e)))
    case Ok(resp) => Ok(resp.content)
  }

  /** `PolishChangelog`: returns the draft untouched when polish is off;
      otherwise resolves the key, builds the polish provider, fills in the
      prompt and returns the second model's answer. */
  function PolishChangelog(draft: string, diff: string, cfg: Config, env: map<string, string>,
                           newGroq: Providers.GroqConstructor, net: Providers.Network): (r: Result<string>)
    ensures !cfg.ai.polish.enabled ==> r == Ok(draft)
    ensures cfg.ai.polish.enabled && GetPolishAPIKey(cfg, env).Err? ==>
              r == Err(Wrap("failed to get polish API key", Some(GetPolishAPIKey(cfg, env).error)))
    ensures cfg.ai.polish.enabled && GetPolishAPIKey(cfg, env).Ok? && !IsValidProvider(GetPolishProvider(cfg)) ==>
              r == Err(Leaf("unsupported polish provider: " + GetPolishProvider(cfg)))
    ensures cfg.ai.polish.enabled && GetPolishAPIKey(cfg, env).Ok? ==>
              var built := Providers.Construct(GetPolishProvider(cfg), GetPolishAPIKey(cfg, env).value, PolishConfigOf(cfg), newGroq);
              (built.Some? && built.value.Err? ==> r == Err(Wrap("failed to create polish AI provider", Some(built.value.error))))
              && (built.Some? && built.value.Ok? ==> r == PolishWith(built.value.value, cfg, draft, diff, net))
  {
    if !cfg.ai.polish.enabled then Ok(draft)
    else
      match GetPolishAPIKey(cfg, env)
      case Err(e) => Err(Wrap("failed to get polish API key", Some(e)))
      case Ok(key) =>
        var polishProvider := GetPolishProvider(cfg);
        match Providers.Construct(polishProvider, key, PolishConfigOf(cfg), newGroq)
        case None => Err(Leaf("unsupported polish provider: " + polishProvider))
        case Some(Err(e)) => Err(Wrap("failed to create polish AI provider", Some(e)))
        case Some(Ok(p)) => PolishWith(p, cfg, draft, diff, net)
  }
}
