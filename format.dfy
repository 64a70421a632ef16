/** Text formatting helpers of the Telegram client: MarkdownV2 and HTML
    escaping, the Bold/Italic/... wrappers in their plain, MarkdownV2 and
    HTML flavours, links, user mentions and the hand-written int64 to
    decimal conversion they use.

    A Go string is a sequence of bytes; here it is a `string` whose every
    character stands for one byte. Every character the code looks for or
    inserts is ASCII, so reading each element as a byte is exact. */
module Format {
  import opened Values

  // ---------------------------------------------------------------------
  // MarkdownV2 escaping
  // ---------------------------------------------------------------------

  /** The 18 characters MarkdownV2 reserves, in the order the escaping
      passes visit them. The backslash is not among them. */
  const SpecialChars: seq<char> :=
    ['_', '*', '[', ']', '(', ')', '~', '`', '>', '#', '+', '-', '=', '|', '{', '}', '.', '!']

  predicate IsReserved(c: char)
  {
    c in SpecialChars
  }

  /** `c` with a backslash in front when it is one of `chars`. */
  function EscapeCharIn(c: char, chars: seq<char>): string
  {
    if c in chars then ['\\', c] else [c]
  }

  /** One left-to-right pass escaping every character of `s` that is in `chars`. */
  function EscapeIn(s: string, chars: seq<char>): string
  {
    if s == [] then [] else EscapeCharIn(s[0], chars) + EscapeIn(s[1..], chars)
  }

  /** The single per-character pass that EscapeMarkdownV2 amounts to. */
  function MarkdownV2Escaped(text: string): string
  {
    EscapeIn(text, SpecialChars)
  }

  /** `strings.ReplaceAll(s, string(target), replacement)` for a one-byte target. */
  function ReplaceAll(s: string, target: char, replacement: string): string
  {
    if s == [] then []
    else (if s[0] == target then replacement else [s[0]]) + ReplaceAll(s[1..], target, replacement)
  }

  lemma {:induction false} ReplaceAllAppend(a: string, b: string, target: char, replacement: string)
    ensures ReplaceAll(a + b, target, replacement)
         == ReplaceAll(a, target, replacement) + ReplaceAll(b, target, replacement)
  {
    if a == [] {
      assert a + b == b;
    } else {
      assert (a + b)[0] == a[0];
      assert (a + b)[1..] == a[1..] + b;
      ReplaceAllAppend(a[1..], b, target, replacement);
    }
  }

  lemma ReplaceAllSingle(x: char, target: char, replacement: string)
    ensures ReplaceAll([x], target, replacement) == if x == target then replacement else [x]
  {
    assert [x][1..] == [];
  }

  lemma {:induction false} EscapeInNothing(s: string)
    ensures EscapeIn(s, []) == s
  {
    if s != [] {
      EscapeInNothing(s[1..]);
    }
  }

  /** One ReplaceAll pass for a fresh character `c` turns the escaping of
      `chars` into the escaping of `chars + [c]`: it touches only the
      original occurrences of `c`, because the backslashes the earlier
      passes inserted are never `c`. */
  lemma {:induction false} ReplacePassExtends(s: string, chars: seq<char>, c: char)
    requires c !in chars && c != '\\'
    ensures ReplaceAll(EscapeIn(s, chars), c, ['\\', c]) == EscapeIn(s, chars + [c])
  {
    if s != [] {
      var x := s[0];
      ReplaceAllAppend(EscapeCharIn(x, chars), EscapeIn(s[1..], chars), c, ['\\', c]);
      ReplacePassExtends(s[1..], chars, c);
      if x in chars {
        ReplaceAllAppend(['\\'], [x], c, ['\\', c]);
        ReplaceAllSingle('\\', c, ['\\', c]);
        ReplaceAllSingle(x, c, ['\\', c]);
        assert ['\\'] + [x] == ['\\', x];
      } else {
        ReplaceAllSingle(x, c, ['\\', c]);
      }
    }
  }

  lemma SpecialCharsDistinct()
    ensures forall i, j :: 0 <= i < j < |SpecialChars| ==> SpecialChars[i] != SpecialChars[j]
    ensures '\\' !in SpecialChars
  {
  }

  /** EscapeMarkdownV2 as the source writes it: one ReplaceAll pass per
      reserved character. The result is the single per-character pass. */
  method EscapeMarkdownV2(text: string) returns (result: string)
    ensures result == MarkdownV2Escaped(text)
  {
    SpecialCharsDistinct();
    result := text;
    EscapeInNothing(text);
    assert SpecialChars[..0] == [];
    for k := 0 to |SpecialChars|
      invariant result == EscapeIn(text, SpecialChars[..k])
    {
      var c := SpecialChars[k];
      assert c !in SpecialChars[..k];
      ReplacePassExtends(text, SpecialChars[..k], c);
      assert SpecialChars[..k] + [c] == SpecialChars[..k + 1];
      result := ReplaceAll(result, c, ['\\', c]);
    }
    assert SpecialChars[..|SpecialChars|] == SpecialChars;
  }

  function CountReserved(s: string): nat
  {
    if s == [] then 0 else (if IsReserved(s[0]) then 1 else 0) + CountReserved(s[1..])
  }

  lemma {:induction false} CountReservedAppend(a: string, b: string)
    ensures CountReserved(a + b) == CountReserved(a) + CountReserved(b)
  {
    if a == [] {
      assert a + b == b;
    } else {
      assert (a + b)[0] == a[0];
      assert (a + b)[1..] == a[1..] + b;
      CountReservedAppend(a[1..], b);
    }
  }

  /** Escaping adds exactly one character per reserved character. */
  lemma {:induction false} EscapedLength(text: string)
    ensures |MarkdownV2Escaped(text)| == |text| + CountReserved(text)
  {
    if text != [] {
      EscapedLength(text[1..]);
    }
  }

  /** Text with no reserved character is left as it is. */
  lemma {:induction false} EscapedPlainText(text: string)
    requires CountReserved(text) == 0
    ensures MarkdownV2Escaped(text) == text
  {
    if text != [] {
      EscapedPlainText(text[1..]);
    }
  }

  /** The inserted backslashes are not reserved, so the escaped text holds
      exactly the reserved characters of the input. */
  lemma {:induction false} EscapedKeepsReserved(text: string)
    ensures CountReserved(MarkdownV2Escaped(text)) == CountReserved(text)
  {
    SpecialCharsDistinct();
    if text != [] {
      var x := text[0];
      CountReservedAppend(EscapeCharIn(x, SpecialChars), MarkdownV2Escaped(text[1..]));
      EscapedKeepsReserved(text[1..]);
      if x in SpecialChars {
        CountReservedAppend(['\\'], [x]);
        assert ['\\'] + [x] == ['\\', x];
        assert [x][1..] == [];
        assert ['\\'][1..] == [];
      } else {
        assert [x][1..] == [];
      }
    }
  }

  /** Escaping twice is not escaping once: any reserved character gets a
      second backslash. */
  lemma EscapeNotIdempotent(text: string)
    requires CountReserved(text) > 0
    ensures MarkdownV2Escaped(MarkdownV2Escaped(text)) != MarkdownV2Escaped(text)
  {
    EscapedLength(MarkdownV2Escaped(text));
    EscapedKeepsReserved(text);
  }

  /** `.` becomes `\.`, and escaping that again gives `\\.`. */
  lemma DotEscapedTwice()
    ensures MarkdownV2Escaped(".") == "\\."
    ensures MarkdownV2Escaped("\\.") == "\\\\."
  {
    assert "."[1..] == [];
    assert "\\."[1..] == ".";
  }

  /** Every reserved character of an escaped text sits right after a backslash. */
  predicate EveryReservedEscaped(s: string)
  {
    forall i :: 0 <= i < |s| && IsReserved(s[i]) ==> 0 < i && s[i - 1] == '\\'
  }

  lemma {:induction false} EscapedIsSafe(text: string)
    ensures EveryReservedEscaped(MarkdownV2Escaped(text))
  {
    SpecialCharsDistinct();
    if text != [] {
      EscapedIsSafe(text[1..]);
      var head := EscapeCharIn(text[0], SpecialChars);
      var rest := MarkdownV2Escaped(text[1..]);
      assert MarkdownV2Escaped(text) == head + rest;
      forall i | 0 <= i < |head + rest| && IsReserved((head + rest)[i])
        ensures 0 < i && (head + rest)[i - 1] == '\\'
      {
        if i >= |head| {
          assert (head + rest)[i] == rest[i - |head|];
        }
      }
    }
  }

  /** Reading an escaped text back: a backslash followed by a reserved
      character stands for that character; everything else stands for itself. */
  function UnescapeMarkdownV2(s: string): string
    decreases |s|
  {
    if s == [] then []
    else if |s| >= 2 && s[0] == '\\' && IsReserved(s[1]) then [s[1]] + UnescapeMarkdownV2(s[2..])
    else [s[0]] + UnescapeMarkdownV2(s[1..])
  }

  /** No information is lost: the escaping puts one backslash before each
      reserved character and changes nothing else. */
  lemma {:induction false} UnescapeEscaped(text: string)
    ensures UnescapeMarkdownV2(MarkdownV2Escaped(text)) == text
  {
    SpecialCharsDistinct();
    if text != [] {
      var x := text[0];
      var rest := MarkdownV2Escaped(text[1..]);
      UnescapeEscaped(text[1..]);
      if x in SpecialChars {
        var s := ['\\', x] + rest;
        assert s[2..] == rest;
      } else {
        var s := [x] + rest;
        assert s[1..] == rest;
        if x == '\\' && |s| >= 2 {
          assert text[1..] != [];
          assert s[1] == rest[0] == EscapeCharIn(text[1], SpecialChars)[0];
        }
      }
    }
  }

  // ---------------------------------------------------------------------
  // HTML escaping
  // ---------------------------------------------------------------------

  function HtmlEntity(c: char): string
  {
    if c == '&' then "&amp;" else if c == '<' then "&lt;" else if c == '>' then "&gt;" else [c]
  }

  /** `strings.NewReplacer("&", "&amp;", "<", "&lt;", ">", "&gt;")`: a single
      pass, so the `&` of an inserted entity is never escaped again. */
  function EscapeHTML(text: string): string
  {
    if text == [] then [] else HtmlEntity(text[0]) + EscapeHTML(text[1..])
  }

  /** Reading the three entities back. */
  function UnescapeHTML(s: string): string
    decreases |s|
  {
    if s == [] then []
    else if |s| >= 5 && s[..5] == "&amp;" then "&" + UnescapeHTML(s[5..])
    else if |s| >= 4 && s[..4] == "&lt;" then "<" + UnescapeHTML(s[4..])
    else if |s| >= 4 && s[..4] == "&gt;" then ">" + UnescapeHTML(s[4..])
    else [s[0]] + UnescapeHTML(s[1..])
  }

  lemma UnescapeAmp(rest: string)
    ensures UnescapeHTML("&amp;" + rest) == "&" + UnescapeHTML(rest)
  {
    var s := "&amp;" + rest;
    assert s[..5] == "&amp;" && s[5..] == rest;
  }

  lemma UnescapeLt(rest: string)
    ensures UnescapeHTML("&lt;" + rest) == "<" + UnescapeHTML(rest)
  {
    var s := "&lt;" + rest;
    assert !(|s| >= 5 && s[..5] == "&amp;") by { assert s[1] == 'l'; }
    assert s[..4] == "&lt;" && s[4..] == rest;
  }

  lemma UnescapeGt(rest: string)
    ensures UnescapeHTML("&gt;" + rest) == ">" + UnescapeHTML(rest)
  {
    var s := "&gt;" + rest;
    assert !(|s| >= 5 && s[..5] == "&amp;") by { assert s[1] == 'g'; }
    assert s[..4] != "&lt;" by { assert s[1] == 'g'; }
    assert s[..4] == "&gt;" && s[4..] == rest;
  }

  lemma UnescapeOther(x: char, rest: string)
    requires x != '&'
    ensures UnescapeHTML([x] + rest) == [x] + UnescapeHTML(rest)
  {
    var s := [x] + rest;
    assert s[0] == x && s[1..] == rest;
  }

  /** Reading back the entity of one character, then the rest. */
  lemma UnescapeEntity(x: char, rest: string)
    ensures UnescapeHTML(HtmlEntity(x) + rest) == [x] + UnescapeHTML(rest)
  {
    if x == '&' {
      UnescapeAmp(rest);
    } else if x == '<' {
      UnescapeLt(rest);
    } else if x == '>' {
      UnescapeGt(rest);
    } else {
      UnescapeOther(x, rest);
    }
  }

  lemma {:induction false} UnescapeEscapedHTML(text: string)
    ensures UnescapeHTML(EscapeHTML(text)) == text
  {
    if text != [] {
      UnescapeEntity(text[0], EscapeHTML(text[1..]));
      UnescapeEscapedHTML(text[1..]);
    }
  }

  /** The escaped text holds no angle bracket. */
  lemma {:induction false} EscapedHTMLHasNoTags(text: string)
    ensures '<' !in EscapeHTML(text) && '>' !in EscapeHTML(text)
  {
    if text != [] {
      EscapedHTMLHasNoTags(text[1..]);
    }
  }

  /** Text without `&`, `<` and `>` is left as it is. */
  lemma {:induction false} EscapeHTMLPlainText(text: string)
    requires '&' !in text && '<' !in text && '>' !in text
    ensures EscapeHTML(text) == text
  {
    if text != [] {
      assert text == [text[0]] + text[1..];
      EscapeHTMLPlainText(text[1..]);
    }
  }

  // ---------------------------------------------------------------------
  // Wrappers
  // ---------------------------------------------------------------------

  function Bold(text: string): string { "*" + text + "*" }
  function BoldV2(text: string): string { "*" + MarkdownV2Escaped(text) + "*" }
  function Italic(text: string): string { "_" + text + "_" }
  function ItalicV2(text: string): string { "_" + MarkdownV2Escaped(text) + "_" }
  function Underline(text: string): string { "__" + text + "__" }
  function UnderlineV2(text: string): string { "__" + MarkdownV2Escaped(text) + "__" }
  function Strikethrough(text: string): string { "~" + text + "~" }
  function StrikethroughV2(text: string): string { "~" + MarkdownV2Escaped(text) + "~" }
  function Spoiler(text: string): string { "||" + text + "||" }
  function SpoilerV2(text: string): string { "||" + MarkdownV2Escaped(text) + "||" }
  function Code(text: string): string { "`" + text + "`" }
  function CodeBlock(text: string): string { "```\n" + text + "\n```" }
  function CodeBlockWithLang(text: string, lang: string): string { "```" + lang + "\n" + text + "\n```" }
  function Link(text: string, url: string): string { "[" + text + "](" + url + ")" }

  function BoldHTML(text: string): string { "<b>" + EscapeHTML(text) + "</b>" }
  function ItalicHTML(text: string): string { "<i>" + EscapeHTML(text) + "</i>" }
  function UnderlineHTML(text: string): string { "<u>" + EscapeHTML(text) + "</u>" }
  function StrikethroughHTML(text: string): string { "<s>" + EscapeHTML(text) + "</s>" }
  function SpoilerHTML(text: string): string { "<tg-spoiler>" + EscapeHTML(text) + "</tg-spoiler>" }
  function CodeHTML(text: string): string { "<code>" + EscapeHTML(text) + "</code>" }
  function CodeBlockHTML(text: string): string { "<pre>" + EscapeHTML(text) + "</pre>" }
  function CodeBlockHTMLWithLang(text: string, lang: string): string
  {
    "<pre><code class=\"language-" + lang + "\">" + EscapeHTML(text) + "</code></pre>"
  }
  function LinkHTML(text: string, url: string): string
  {
    "<a href=\"" + url + "\">" + EscapeHTML(text) + "</a>"
  }

  /** `r` is `delim`, then an escaped form of `text`, then `delim` again. */
  predicate DelimitsEscaped(r: string, delim: string, text: string)
  {
    && |r| >= 2 * |delim|
    && r[..|delim|] == delim
    && r[|r| - |delim|..] == delim
    && UnescapeMarkdownV2(r[|delim|..|r| - |delim|]) == text
    && EveryReservedEscaped(r[|delim|..|r| - |delim|])
  }

  lemma DelimitedEscaped(delim: string, text: string)
    ensures DelimitsEscaped(delim + MarkdownV2Escaped(text) + delim, delim, text)
  {
    var m := MarkdownV2Escaped(text);
    var r := delim + m + delim;
    assert r[|delim|..|r| - |delim|] == m;
    assert r[..|delim|] == delim;
    assert r[|r| - |delim|..] == delim;
    UnescapeEscaped(text);
    EscapedIsSafe(text);
  }

  /** Each MarkdownV2 wrapper puts its delimiter around the escaped text:
      inside, every reserved character is escaped (so the delimiter cannot
      close early) and the text reads back unchanged. */
  lemma V2WrappersDelimitEscapedText(text: string)
    ensures DelimitsEscaped(BoldV2(text), "*", text)
    ensures DelimitsEscaped(ItalicV2(text), "_", text)
    ensures DelimitsEscaped(UnderlineV2(text), "__", text)
    ensures DelimitsEscaped(StrikethroughV2(text), "~", text)
    ensures DelimitsEscaped(SpoilerV2(text), "||", text)
  {
    DelimitedEscaped("*", text);
    DelimitedEscaped("_", text);
    DelimitedEscaped("__", text);
    DelimitedEscaped("~", text);
    DelimitedEscaped("||", text);
  }

  /** A MarkdownV2 wrapper is its plain wrapper applied to the escaped text,
      and on text without reserved characters the two coincide. */
  lemma V2WrappersArePlainOfEscaped(text: string)
    ensures BoldV2(text) == Bold(MarkdownV2Escaped(text))
    ensures ItalicV2(text) == Italic(MarkdownV2Escaped(text))
    ensures UnderlineV2(text) == Underline(MarkdownV2Escaped(text))
    ensures StrikethroughV2(text) == Strikethrough(MarkdownV2Escaped(text))
    ensures SpoilerV2(text) == Spoiler(MarkdownV2Escaped(text))
    ensures CountReserved(text) == 0 ==>
      BoldV2(text) == Bold(text) && ItalicV2(text) == Italic(text) && UnderlineV2(text) == Underline(text)
      && StrikethroughV2(text) == Strikethrough(text) && SpoilerV2(text) == Spoiler(text)
  {
    if CountReserved(text) == 0 {
      EscapedPlainText(text);
    }
  }

  /** The plain wrappers and the code wrappers insert the text verbatim at a
      fixed offset, with no escaping. */
  lemma PlainWrappersInsertVerbatim(text: string, lang: string, url: string)
    ensures Bold(text)[1..1 + |text|] == text && Italic(text)[1..1 + |text|] == text
    ensures Underline(text)[2..2 + |text|] == text && Strikethrough(text)[1..1 + |text|] == text
    ensures Spoiler(text)[2..2 + |text|] == text && Code(text)[1..1 + |text|] == text
    ensures CodeBlock(text)[4..4 + |text|] == text
    ensures CodeBlockWithLang(text, lang)[4 + |lang|..4 + |lang| + |text|] == text
    ensures Link(text, url)[1..1 + |text|] == text
    ensures Link(text, url)[3 + |text|..3 + |text| + |url|] == url
  {
  }

  /** `r` is `open`, then an HTML-escaped form of `text`, then `close`. */
  predicate TagsEscaped(r: string, open: string, close: string, text: string)
  {
    && |r| >= |open| + |close|
    && r[..|open|] == open
    && r[|r| - |close|..] == close
    && UnescapeHTML(r[|open|..|r| - |close|]) == text
    && '<' !in r[|open|..|r| - |close|]
    && '>' !in r[|open|..|r| - |close|]
  }

  lemma TaggedEscaped(open: string, close: string, text: string)
    ensures TagsEscaped(open + EscapeHTML(text) + close, open, close, text)
  {
    var m := EscapeHTML(text);
    var r := open + m + close;
    assert r[|open|..|r| - |close|] == m;
    assert r[..|open|] == open;
    assert r[|r| - |close|..] == close;
    UnescapeEscapedHTML(text);
    EscapedHTMLHasNoTags(text);
  }

  /** Each HTML wrapper puts its tags around the HTML-escaped text: no tag
      can appear inside, and the text reads back unchanged. */
  lemma HtmlWrappersTagEscapedText(text: string, lang: string, url: string)
    ensures TagsEscaped(BoldHTML(text), "<b>", "</b>", text)
    ensures TagsEscaped(ItalicHTML(text), "<i>", "</i>", text)
    ensures TagsEscaped(UnderlineHTML(text), "<u>", "</u>", text)
    ensures TagsEscaped(StrikethroughHTML(text), "<s>", "</s>", text)
    ensures TagsEscaped(SpoilerHTML(text), "<tg-spoiler>", "</tg-spoiler>", text)
    ensures TagsEscaped(CodeHTML(text), "<code>", "</code>", text)
    ensures TagsEscaped(CodeBlockHTML(text), "<pre>", "</pre>", text)
    ensures TagsEscaped(CodeBlockHTMLWithLang(text, lang), "<pre><code class=\"language-" + lang + "\">", "</code></pre>", text)
    ensures TagsEscaped(LinkHTML(text, url), "<a href=\"" + url + "\">", "</a>", text)
  {
    TaggedEscaped("<b>", "</b>", text);
    TaggedEscaped("<i>", "</i>", text);
    TaggedEscaped("<u>", "</u>", text);
    TaggedEscaped("<s>", "</s>", text);
    TaggedEscaped("<tg-spoiler>", "</tg-spoiler>", text);
    TaggedEscaped("<code>", "</code>", text);
    TaggedEscaped("<pre>", "</pre>", text);
    TaggedEscaped("<pre><code class=\"language-" + lang + "\">", "</code></pre>", text);
    TaggedEscaped("<a href=\"" + url + "\">", "</a>", text);
  }

  // ---------------------------------------------------------------------
  // Links
  // ---------------------------------------------------------------------

  /** The URL part of LinkV2: first every `\` is doubled, then every `)` gets a `\`. */
  function LinkUrlEscaped(url: string): string
  {
    ReplaceAll(ReplaceAll(url, '\\', "\\\\"), ')', "\\)")
  }

  function LinkV2(text: string, url: string): string
  {
    "[" + MarkdownV2Escaped(text) + "](" + LinkUrlEscaped(url) + ")"
  }

  function UrlCharEscaped(c: char): string
  {
    if c == '\\' || c == ')' then ['\\', c] else [c]
  }

  /** The two URL passes in one: a backslash before each `\` and each `)`. */
  function UrlEscaped(url: string): string
  {
    if url == [] then [] else UrlCharEscaped(url[0]) + UrlEscaped(url[1..])
  }

  /** The backslash the second pass puts before `)` is never doubled by the
      first, so the two passes equal one per-character pass. */
  lemma {:induction false} LinkUrlSinglePass(url: string)
    ensures LinkUrlEscaped(url) == UrlEscaped(url)
  {
    if url != [] {
      var x := url[0];
      var first := if x == '\\' then "\\\\" else [x];
      assert ReplaceAll(url, '\\', "\\\\") == first + ReplaceAll(url[1..], '\\', "\\\\");
      ReplaceAllAppend(first, ReplaceAll(url[1..], '\\', "\\\\"), ')', "\\)");
      LinkUrlSinglePass(url[1..]);
      if x == '\\' {
        ReplaceAllAppend("\\", "\\", ')', "\\)");
        ReplaceAllSingle('\\', ')', "\\)");
        assert "\\" + "\\" == "\\\\";
      } else {
        ReplaceAllSingle(x, ')', "\\)");
      }
    }
  }

  /** The other order would double the backslash put before `)`. */
  lemma LinkUrlPassOrderMatters()
    ensures ReplaceAll(ReplaceAll(")", ')', "\\)"), '\\', "\\\\") == "\\\\)"
    ensures LinkUrlEscaped(")") == "\\)"
  {
    ReplaceAllSingle(')', ')', "\\)");
    ReplaceAllAppend("\\", ")", '\\', "\\\\");
    ReplaceAllSingle('\\', '\\', "\\\\");
    ReplaceAllSingle(')', '\\', "\\\\");
    assert "\\)" == "\\" + ")";
    ReplaceAllSingle(')', '\\', "\\\\");
  }

  /** Reading a backslash-escaped URL back: `\` makes the next character literal. */
  function UnescapeUrl(s: string): string
    decreases |s|
  {
    if s == [] then []
    else if |s| >= 2 && s[0] == '\\' then [s[1]] + UnescapeUrl(s[2..])
    else [s[0]] + UnescapeUrl(s[1..])
  }

  lemma {:induction false} UnescapeUrlEscaped(url: string)
    ensures UnescapeUrl(UrlEscaped(url)) == url
  {
    if url != [] {
      var x := url[0];
      var rest := UrlEscaped(url[1..]);
      UnescapeUrlEscaped(url[1..]);
      var s := UrlCharEscaped(x) + rest;
      assert s[|UrlCharEscaped(x)|..] == rest;
    }
  }

  /** LinkV2 is Link over the escaped text and the escaped URL; the URL
      reads back unchanged. */
  lemma LinkV2EscapesTextAndUrl(text: string, url: string)
    ensures LinkV2(text, url) == Link(MarkdownV2Escaped(text), UrlEscaped(url))
    ensures UnescapeUrl(LinkUrlEscaped(url)) == url
    ensures UnescapeMarkdownV2(MarkdownV2Escaped(text)) == text
  {
    LinkUrlSinglePass(url);
    UnescapeUrlEscaped(url);
    UnescapeEscaped(text);
  }

  // ---------------------------------------------------------------------
  // int64 to decimal
  // ---------------------------------------------------------------------

  const MinInt64: int := -0x8000_0000_0000_0000
  const MaxInt64: int := 0x7fff_ffff_ffff_ffff
  type Int64 = x: int | MinInt64 <= x <= MaxInt64

  /** Go's `-n` on an int64: two's complement, so the negation of the
      minimum wraps around to the minimum itself. */
  function Negate64(n: Int64): Int64
  {
    if n == MinInt64 then MinInt64 else -n
  }

  function DigitChar(d: int): char
    requires 0 <= d < 10
  {
    ('0' as int + d) as char
  }

  predicate IsDigit(c: char)
  {
    '0' <= c <= '9'
  }

  predicate AllDigits(s: string)
  {
    forall i :: 0 <= i < |s| ==> IsDigit(s[i])
  }

  /** The decimal digits of `m`, most significant first; empty for 0. */
  function DigitsOf(m: nat): string
  {
    if m == 0 then [] else DigitsOf(m / 10) + [DigitChar(m % 10)]
  }

  /** The intended result of formatInt64: "0", or the digits of |n| with a
      `-` in front exactly when n is negative. */
  function DecimalString(n: int): string
  {
    if n == 0 then "0" else if n < 0 then "-" + DigitsOf(-n) else DigitsOf(n)
  }

  function ParseDigits(s: string): nat
    requires AllDigits(s)
  {
    if s == [] then 0 else ParseDigits(s[..|s| - 1]) * 10 + (s[|s| - 1] as int - '0' as int)
  }

  /** A canonical decimal numeral: "0", or non-empty digits not starting
      with `0`, optionally after a `-` (but not "-0"). */
  function ParseInt(s: string): Option<int>
  {
    if s == "0" then Some(0)
    else if |s| > 0 && s[0] == '-' then
      (if |s| > 1 && AllDigits(s[1..]) && s[1] != '0' then Some(-(ParseDigits(s[1..]) as int)) else None)
    else if |s| > 0 && AllDigits(s) && s[0] != '0' then Some(ParseDigits(s))
    else None
  }

  lemma {:induction false} DigitsOfReadsBack(m: nat)
    ensures AllDigits(DigitsOf(m))
    ensures ParseDigits(DigitsOf(m)) == m
    ensures m > 0 ==> |DigitsOf(m)| > 0 && DigitsOf(m)[0] != '0'
  {
    if m > 0 {
      DigitsOfReadsBack(m / 10);
      var s := DigitsOf(m);
      assert s[..|s| - 1] == DigitsOf(m / 10);
      if m / 10 == 0 {
        assert s == [DigitChar(m % 10)];
      } else {
        assert s[0] == DigitsOf(m / 10)[0];
      }
    }
  }

  lemma ParsePositive(digits: string)
    requires |digits| > 0 && AllDigits(digits) && digits[0] != '0'
    ensures ParseInt(digits) == Some(ParseDigits(digits))
  {
    assert IsDigit(digits[0]);
  }

  lemma ParseNegative(digits: string)
    requires |digits| > 0 && AllDigits(digits) && digits[0] != '0'
    ensures ParseInt("-" + digits) == Some(-(ParseDigits(digits) as int))
  {
    var s := "-" + digits;
    assert s[1..] == digits;
  }

  lemma NegativeReadsBack(n: int)
    requires n < 0
    ensures ParseInt(DecimalString(n)) == Some(n)
  {
    var digits := DigitsOf(-n);
    DigitsOfReadsBack(-n);
    calc {
      ParseInt(DecimalString(n));
      ParseInt("-" + digits);
      { ParseNegative(digits); }
      Some(-(ParseDigits(digits) as int));
    }
  }

  lemma PositiveReadsBack(n: int)
    requires n > 0
    ensures ParseInt(DecimalString(n)) == Some(n)
  {
    var digits := DigitsOf(n);
    DigitsOfReadsBack(n);
    calc {
      ParseInt(DecimalString(n));
      ParseInt(digits);
      { ParsePositive(digits); }
      Some(ParseDigits(digits) as int);
    }
  }

  /** The decimal string reads back as the number it was made from, so it
      is canonical: no leading zero and a sign exactly for negatives. */
  lemma DecimalStringReadsBack(n: int)
    ensures ParseInt(DecimalString(n)) == Some(n)
  {
    if n < 0 {
      NegativeReadsBack(n);
    } else if n > 0 {
      PositiveReadsBack(n);
    } else {
      assert DecimalString(n) == "0";
    }
  }

  /** One turn of the formatInt64 loop: the last digit moves to the front
      of the digits found so far. */
  lemma DigitsStep(m: nat, digits: string)
    requires m > 0
    ensures DigitsOf(m / 10) + ([DigitChar(m % 10)] + digits) == DigitsOf(m) + digits
  {
    calc {
      DigitsOf(m) + digits;
      (DigitsOf(m / 10) + [DigitChar(m % 10)]) + digits;
      { AppendAssociative(DigitsOf(m / 10), [DigitChar(m % 10)], digits); }
      DigitsOf(m / 10) + ([DigitChar(m % 10)] + digits);
    }
  }

  /** What formatInt64 returns as the source writes it: the decimal string
      of every int64 but the minimum, for which only the sign is left. The
      result reads back as `n` exactly when `n` is not the minimum. */
  function FormatInt64Result(n: Int64): (s: string)
    ensures n != MinInt64 ==> ParseInt(s) == Some(n as int)
    ensures n == MinInt64 ==> s == "-" && ParseInt(s) == None
  {
    if n == MinInt64 then "-" else DecimalStringReadsBack(n); DecimalString(n)
  }

  /** formatInt64 as the source writes it, including the int64 wrap-around
      of `n = -n`: for the minimum the loop never runs and only the sign is
      left. */
  method FormatInt64(n: Int64) returns (s: string)
    ensures s == FormatInt64Result(n)
  {
    if n == 0 {
      return "0";
    }
    var negative := n < 0;
    var m: int := n;
    if negative {
      m := Negate64(n);
    }
    ghost var magnitude: nat := if n < 0 then -(n as int) else n;
    var digits: string := [];
    while m > 0
      invariant n != MinInt64 ==> m >= 0
      invariant m >= 0 ==> DigitsOf(m) + digits == DigitsOf(magnitude)
      invariant m < 0 ==> n == MinInt64 && digits == []
      decreases m
    {
      DigitsStep(m, digits);
      digits := [DigitChar(m % 10)] + digits;
      m := m / 10;
    }
    assert n != MinInt64 ==> digits == DigitsOf(magnitude) by {
      if n != MinInt64 {
        assert m == 0 && DigitsOf(m) == [];
      }
    }
    if negative {
      digits := "-" + digits;
    }
    s := digits;
  }

  /** What formatInt64 gets wrong: the minimum int64 comes out as "-", which
      names no number, while the intended string reads back as that minimum. */
  lemma FormatInt64MinimumLosesDigits()
    ensures ParseInt("-") == None
    ensures ParseInt(DecimalString(MinInt64)) == Some(MinInt64)
    ensures DecimalString(MinInt64) != "-"
  {
    DecimalStringReadsBack(MinInt64);
  }

  // ---------------------------------------------------------------------
  // Mentions
  // ---------------------------------------------------------------------

  const MentionTarget: string := "tg://user?id="

  function Mention(text: string, userID: Int64): string
  {
    "[" + text + "](" + MentionTarget + FormatInt64Result(userID) + ")"
  }

  function MentionV2(text: string, userID: Int64): string
  {
    "[" + MarkdownV2Escaped(text) + "](" + MentionTarget + FormatInt64Result(userID) + ")"
  }

  function MentionHTML(text: string, userID: Int64): string
  {
    "<a href=\"" + MentionTarget + FormatInt64Result(userID) + "\">" + EscapeHTML(text) + "</a>"
  }

  /** The middle part of a concatenation of three. */
  lemma Middle(a: string, b: string, c: string)
    ensures |a| + |b| <= |a + b + c|
    ensures (a + b + c)[|a|..|a| + |b|] == b
  {
  }

  /** Where the text and the id string `d` sit in a Markdown mention link. */
  lemma MentionParts(text: string, d: string)
    ensures var r := "[" + text + "](" + MentionTarget + d + ")";
      var p := |text| + 3 + |MentionTarget|;
      && p <= |r| - 1
      && r[p - |MentionTarget|..p] == MentionTarget
      && r[p..|r| - 1] == d
      && r[1..1 + |text|] == text
  {
    var head := "[" + text + "](";
    var r := "[" + text + "](" + MentionTarget + d + ")";
    assert r == head + MentionTarget + (d + ")");
    Middle(head, MentionTarget, d + ")");
    assert r == (head + MentionTarget) + d + ")";
    Middle(head + MentionTarget, d, ")");
    assert r == "[" + text + ("](" + MentionTarget + d + ")");
    Middle("[", text, "](" + MentionTarget + d + ")");
  }

  /** A mention links to `tg://user?id=` followed by the user id, which
      reads back as that id, except for the minimum int64, whose id part is
      the bare `-` of formatInt64; the text sits verbatim inside the
      brackets. */
  lemma MentionLinksUser(text: string, userID: Int64)
    ensures var r := Mention(text, userID);
      var p := |text| + 3 + |MentionTarget|;
      && p <= |r| - 1
      && r[p - |MentionTarget|..p] == MentionTarget
      && (userID != MinInt64 ==> ParseInt(r[p..|r| - 1]) == Some(userID as int))
      && (userID == MinInt64 ==> r[p..|r| - 1] == "-")
      && r[1..1 + |text|] == text
  {
    MentionParts(text, FormatInt64Result(userID));
  }

  /** MentionV2 escapes the text and nothing else. */
  lemma MentionV2EscapesOnlyText(text: string, userID: Int64)
    ensures MentionV2(text, userID) == Mention(MarkdownV2Escaped(text), userID)
    ensures UnescapeMarkdownV2(MentionV2(text, userID)[1..1 + |MarkdownV2Escaped(text)|]) == text
  {
    MentionParts(MarkdownV2Escaped(text), FormatInt64Result(userID));
    UnescapeEscaped(text);
  }

  /** Where the id string `d` and the body `e` sit in an HTML mention. */
  lemma MentionHTMLParts(d: string, e: string)
    ensures var r := "<a href=\"" + MentionTarget + d + "\">" + e + "</a>";
      var p := 9 + |MentionTarget|;
      var q := p + |d|;
      && q + 2 <= |r| - 4
      && r[p..q] == d
      && r[q + 2..|r| - 4] == e
  {
    var r := "<a href=\"" + MentionTarget + d + "\">" + e + "</a>";
    var head := "<a href=\"" + MentionTarget;
    assert r == head + d + ("\">" + e + "</a>");
    Middle(head, d, "\">" + e + "</a>");
    assert r == (head + d + "\">") + e + "</a>";
    Middle(head + d + "\">", e, "</a>");
  }

  /** MentionHTML links to the user id, which reads back as that id except
      for the minimum int64 (a bare `-`), and HTML-escapes the text and
      nothing else. */
  lemma MentionHTMLLinksUser(text: string, userID: Int64)
    ensures var r := MentionHTML(text, userID);
      var p := 9 + |MentionTarget|;
      var q := p + |FormatInt64Result(userID)|;
      && q + 2 <= |r| - 4
      && (userID != MinInt64 ==> ParseInt(r[p..q]) == Some(userID as int))
      && (userID == MinInt64 ==> r[p..q] == "-")
      && UnescapeHTML(r[q + 2..|r| - 4]) == text
  {
    MentionHTMLParts(FormatInt64Result(userID), EscapeHTML(text));
    UnescapeEscapedHTML(text);
  }
}
