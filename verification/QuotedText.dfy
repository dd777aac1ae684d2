/**
 Text printed between raw quotes, as a TOML reader finds it: as itself exactly
 when it needs no escape, also where its own quotes open a multi-line string.
 */
module QuotedText {
  import opened TomlText
  import opened TomlReader

  // ── where a multi-line string can end ─────────────────────────────────

  /** In what follows, three quotes in a row come after an equals sign, if at all. */
  predicate Shut(s: string) {
    s == "" || s[0] == '=' || (!ThreeQuotes(s) && Shut(s[1..]))
  }

  predicate Loose(s: string) {
    forall i | 0 < i < |s| - 1 :: s[i] == '"' ==> s[i - 1] != '"' || s[i + 1] != '"'
  }

  /** Text with no three quotes in a row, another character, and what follows. */
  lemma {:induction false} LooseThen(a: string, c: char, s: string)
    requires Loose(a) && c != '"' && Shut([c] + s)
    ensures Shut(a + [c] + s)
  {
    if a == "" {
      assert a + [c] + s == [c] + s;
    } else {
      assert (a + [c] + s)[1..] == a[1..] + [c] + s;
      assert forall i | 0 <= i < |a| - 1 :: a[1..][i] == a[i + 1];
      LooseThen(a[1..], c, s);
    }
  }

  lemma LooseBoth(a: string, c: char, b: string)
    requires Loose(a) && Loose(b) && c != '"'
    ensures Loose(a + [c] + b)
  {
    var s := a + [c] + b;
    forall i | 0 < i < |s| - 1 && s[i] == '"' ensures s[i - 1] != '"' || s[i + 1] != '"' {
      if i > |a| + 1 { assert s[i] == b[i - |a| - 1] && s[i - 1] == b[i - |a| - 2] && s[i + 1] == b[i - |a|]; }
    }
  }

  /** A line and the lines after it. */
  lemma {:induction false} ShutJoin(line: string, more: string)
    requires Shut(line) && Shut(more)
    ensures Shut(line + "\n" + more)
  {
    if line == "" {
      assert line + "\n" + more == "\n" + more && ("\n" + more)[1..] == more;
    } else {
      assert (line + "\n" + more)[1..] == line[1..] + "\n" + more;
      if line[0] != '=' { ShutJoin(line[1..], more); }
    }
  }

  /** Past an equals sign it does not matter what follows. */
  lemma {:induction false} ShutMore(a: string, b: string)
    requires Shut(a) && '=' in a
    ensures Shut(a + b) && '=' in a + b
  {
    assert (a + b)[1..] == a[1..] + b;
    if a[0] != '=' { ShutMore(a[1..], b); }
  }

  lemma LooseShut(s: string)
    requires Loose(s)
    ensures Shut(s)
  {
    if s != "" {
      assert forall i | 0 <= i < |s| - 1 :: s[1..][i] == s[i + 1];
      LooseShut(s[1..]);
    }
  }

  /** A quote inside a printed string stands behind its backslash. */
  lemma {:induction false} QuotesEscaped(s: string)
    ensures forall i | 0 <= i < |Escaped(s)| && Escaped(s)[i] == '"' :: i > 0 && Escaped(s)[i - 1] == '\\'
  {
    hide Escape;
    if s != "" {
      QuoteEscape(s[0]);
      QuotesEscaped(s[1..]);
    }
  }

  lemma QuoteEscape(c: char)
    ensures forall i | 0 <= i < |Escape(c)| && Escape(c)[i] == '"' :: i > 0 && Escape(c)[i - 1] == '\\'
  {
    hide Hex4;
    if Bmp(c) {
      NoQuoteHex(c as int);
    } else {
      var n := c as int - 0x10000;
      NoQuoteHex(0xD800 + n / 0x400);
      NoQuoteHex(0xDC00 + n % 0x400);
    }
  }

  lemma NoQuoteHex(n: nat)
    requires n < 0x10000
    ensures '"' !in Hex4(n)
  {
    hide HexDigit;
    NoQuoteDigit(n / 0x1000);
    NoQuoteDigit(n / 0x100 % 16);
    NoQuoteDigit(n / 16 % 16);
    NoQuoteDigit(n % 16);
  }

  lemma NoQuoteDigit(n: nat)
    requires n < 16
    ensures HexDigit(n) != '"'
  {
  }

  lemma KeyLoose(key: string)
    ensures Loose(KeyText(key))
  {
    if !Bare(key) {
      hide Escaped;
      QuotesEscaped(key);
      var d := Dumps(key);
      forall i | 0 < i < |d| - 1 && d[i] == '"' ensures d[i - 1] != '"' || d[i + 1] != '"' {
        assert d[i] == Escaped(key)[i - 1];
      }
    }
  }

  // ── raw-quoted text ───────────────────────────────────────────────────

  /** Text that means itself between quotes. */
  predicate RawText(s: string) {
    forall i | 0 <= i < |s| :: s[i] != '"' && s[i] != '\\' && !Control(s[i])
  }

  lemma {:induction false} ReadsRaw(s: string, rest: string)
    requires RawText(s)
    ensures ReadChars(s + "\"" + rest) == Got(s, rest)
  {
    if s == "" {
      assert s + "\"" + rest == "\"" + rest;
    } else {
      assert (s + "\"" + rest)[1..] == s[1..] + "\"" + rest;
      ReadsRaw(s[1..], rest);
      assert [s[0]] + s[1..] == s;
    }
  }

  /** Text between raw quotes, and what follows the second. */
  function Quoted(text: string, tail: string): string {
    "\"" + text + "\"" + tail
  }

  predicate NoQuoteFirst(tail: string) {
    tail != "" ==> tail[0] != '"'
  }

  lemma ReadsQuoted(text: string, tail: string)
    requires RawText(text) && NoQuoteFirst(tail)
    ensures ReadValue(Quoted(text, tail)) == Got(Str(text), tail)
  {
    hide ReadChars, ReadMulti;
    ReadsRaw(text, tail);
    assert Quoted(text, tail)[1..] == text + "\"" + tail;
  }

  /** Reading nothing but as many characters as it returns: no escape was met. */
  lemma {:induction false} RawIfWhole(s: string)
    requires ReadChars(s).Got? && |ReadChars(s).value| + |ReadChars(s).rest| + 1 == |s|
    ensures RawText(ReadChars(s).value)
    decreases |s|
  {
    if s[0] != '"' {
      RawIfWholeAfter(s);
      RawIfWhole(s[1..]);
    }
  }

  lemma RawIfWholeAfter(s: string)
    requires ReadChars(s).Got? && |ReadChars(s).value| + |ReadChars(s).rest| + 1 == |s|
    requires s[0] != '"'
    ensures s[0] != '\\' && !Control(s[0]) && ReadChars(s[1..]).Got?
    ensures ReadChars(s).value == [s[0]] + ReadChars(s[1..]).value && ReadChars(s).rest == ReadChars(s[1..]).rest
  {
  }

  /** An escape is its letter, or `u` and four digits, or `U` and eight. */
  lemma EscapeUsed(s: string)
    requires ReadEscape(s).Got?
    ensures var used := |s| - |ReadEscape(s).rest|;
      && ReadEscape(s).rest == s[used..]
      && (forall i | 0 <= i < used :: s[i] != '=' && (i > 0 ==> s[i] != '"'))
      && (used > 1 ==> s[0] != '"')
    ensures s[0] == '"' ==> ReadEscape(s).value == '"'
  {
    if s[0] == 'u' && |s| >= 5 {
      HexPlain(s, 1);
    } else if s[0] == 'U' && |s| >= 9 {
      HexPlain(s, 1);
      HexPlain(s, 5);
    }
  }

  lemma HexPlain(s: string, at: nat)
    requires at + 4 <= |s| && Code4(s[at..at + 4]) >= 0
    ensures forall i | at <= i < at + 4 :: s[i] != '"' && s[i] != '='
  {
    var d := s[at..at + 4];
    assert d[0] == s[at] && d[1] == s[at + 1] && d[2] == s[at + 2] && d[3] == s[at + 3];
    assert HexValue('"') < 0 && HexValue('=') < 0;
  }

  // ── counting characters ───────────────────────────────────────────────

  function Count(s: string, c: char): nat {
    if s == "" then 0 else (if s[0] == c then 1 else 0) + Count(s[1..], c)
  }

  lemma {:induction false} CountConcat(a: string, b: string, c: char)
    ensures Count(a + b, c) == Count(a, c) + Count(b, c)
  {
    if a == "" {
      assert a + b == b;
    } else {
      assert (a + b)[1..] == a[1..] + b;
      CountConcat(a[1..], b, c);
    }
  }

  lemma {:induction false} NoneCounted(s: string, c: char)
    requires forall i | 0 <= i < |s| :: s[i] != c
    ensures Count(s, c) == 0
  {
    if s != "" { NoneCounted(s[1..], c); }
  }

  /** What was passed over without the character. */
  lemma CountAfter(s: string, k: nat, c: char)
    requires k <= |s| && forall i | 0 <= i < k :: s[i] != c
    ensures Count(s, c) == Count(s[k..], c)
  {
    NoneCounted(s[..k], c);
    CountConcat(s[..k], s[k..], c);
    assert s == s[..k] + s[k..];
  }

  lemma CountPast(s: string, used: nat, c: char)
    requires 1 <= used <= |s| && forall i | 1 <= i < used :: s[i] != c
    ensures Count(s, c) == (if s[0] == c then 1 else 0) + Count(s[used..], c)
  {
    CountAfter(s[1..], used - 1, c);
    assert s[1..][used - 1..] == s[used..];
  }

  lemma CountFirst(first: char, s: string, c: char)
    ensures Count([first] + s, c) == (if first == c then 1 else 0) + Count(s, c)
  {
    assert ([first] + s)[1..] == s;
  }

  lemma CountEnd(s: string, rest: string, c: char)
    requires |rest| <= |s| && s[|s| - |rest|..] == rest
    ensures Count(s, c) >= Count(rest, c)
  {
    CountConcat(s[..|s| - |rest|], rest, c);
    assert s == s[..|s| - |rest|] + rest;
  }

  lemma QuotedCount(text: string, tail: string, c: char)
    ensures Count(text + "\"" + tail, c) == Count(text, c) + (if c == '"' then 1 else 0) + Count(tail, c)
  {
    hide Count;
    CountConcat(text, "\"" + tail, c);
    CountFirst('"', tail, c);
    assert text + "\"" + tail == text + ("\"" + tail);
  }

  // ── raw-quoted text on one line ───────────────────────────────────────

  /** `rest` is what follows a quote in `s`. */
  ghost predicate EndedBefore(s: string, rest: string) {
    |rest| < |s| && s[|s| - |rest|..] == rest && s[|s| - |rest| - 1] == '"'
  }

  /** A basic string ends behind a quote, and has every other quote it was printed with. */
  lemma {:induction false} QuotesKept(s: string)
    requires ReadChars(s).Got?
    ensures EndedBefore(s, ReadChars(s).rest)
    ensures Count(ReadChars(s).value, '"') + 1 + Count(ReadChars(s).rest, '"') >= Count(s, '"')
    decreases |s|
  {
    if s[0] == '"' {
      QuoteEnds(s);
    } else if s[0] == '\\' {
      EscapedQuote(s);
    } else {
      PlainQuote(s);
    }
  }

  lemma QuoteEnds(s: string)
    requires s != "" && s[0] == '"'
    ensures EndedBefore(s, s[1..]) && Count(s, '"') == 1 + Count(s[1..], '"')
  {
  }

  lemma EndedLater(s: string, k: nat, rest: string)
    requires k <= |s| && EndedBefore(s[k..], rest)
    ensures EndedBefore(s, rest)
  {
    assert s[k..][|s[k..]| - |rest|..] == s[|s| - |rest|..];
    assert s[k..][|s[k..]| - |rest| - 1] == s[|s| - |rest| - 1];
  }

  lemma {:induction false} PlainQuote(s: string)
    requires ReadChars(s).Got? && s[0] != '"' && s[0] != '\\'
    ensures EndedBefore(s, ReadChars(s).rest)
    ensures Count(ReadChars(s).value, '"') + 1 + Count(ReadChars(s).rest, '"') >= Count(s, '"')
    decreases |s|, 0
  {
    hide ReadEscape, Control, Count, EndedBefore;
    QuotesKept(s[1..]);
    EndedLater(s, 1, ReadChars(s).rest);
    CountAfter(s, 1, '"');
    CountFirst(s[0], ReadChars(s[1..]).value, '"');
  }

  lemma {:induction false} EscapedQuote(s: string)
    requires ReadChars(s).Got? && s[0] == '\\'
    ensures EndedBefore(s, ReadChars(s).rest)
    ensures Count(ReadChars(s).value, '"') + 1 + Count(ReadChars(s).rest, '"') >= Count(s, '"')
    decreases |s|, 0
  {
    hide ReadEscape, Control, Count, EndedBefore;
    var first := ReadEscape(s[1..]);
    var used := |s[1..]| - |first.rest|;
    EscapeUsed(s[1..]);
    QuotesKept(first.rest);
    EndedLater(s[1..], used, ReadChars(s).rest);
    EndedLater(s, 1, ReadChars(s).rest);
    CountAfter(s, 1, '"');
    CountPast(s[1..], used, '"');
    CountFirst(first.value, ReadChars(first.rest).value, '"');
  }

  /** A text that is read back as itself needed no escape. */
  lemma RawIfItself(text: string, rest: string)
    requires ReadChars(text + "\"" + rest).Got? && ReadChars(text + "\"" + rest).value == text
    ensures RawText(text) && ReadChars(text + "\"" + rest).rest == rest
  {
    hide ReadChars, Count, RawText;
    var s := text + "\"" + rest;
    var r := ReadChars(s).rest;
    QuotesKept(s);
    QuotedCount(text, rest, '"');
    assert s[|s| - |rest|..] == rest;
    if |r| < |rest| {
      QuoteInRest(s, rest, r);
    } else {
      assert s[|text| + 1..] == rest;
      RawIfWhole(s);
    }
  }

  /** A string that ends inside `rest` ends with a quote of it. */
  lemma QuoteInRest(s: string, rest: string, r: string)
    requires |rest| <= |s| && s[|s| - |rest|..] == rest && EndedBefore(s, r) && |r| < |rest|
    ensures Count(rest, '"') > Count(r, '"')
  {
    hide Count;
    var k := |rest| - |r| - 1;
    assert rest[k] == s[|s| - |rest| + k] && rest[k + 1..] == s[|s| - |r|..];
    CountPast(rest[k..], 1, '"');
    assert rest[k..][1..] == r;
    CountEnd(rest, rest[k..], '"');
  }

  // ── raw-quoted text that opens a multi-line string ────────────────────

  lemma {:induction false} SkippedBlank(s: string)
    ensures SkipBlank(s) == s[|s| - |SkipBlank(s)|..] && Count(SkipBlank(s), '=') == Count(s, '=')
  {
    if s != "" && (Blank(s[0]) || s[0] == '\n') { SkippedBlank(s[1..]); }
  }

  /** `rest` is what follows three quotes in `s`. */
  ghost predicate ClosedBefore(s: string, rest: string) {
    |rest| + 3 <= |s| && s[|s| - |rest|..] == rest && ThreeQuotes(s[|s| - |rest| - 3..])
  }

  lemma ClosedLater(s: string, k: nat, rest: string)
    requires k <= |s| && ClosedBefore(s[k..], rest)
    ensures ClosedBefore(s, rest)
  {
    assert s[k..][|s[k..]| - |rest|..] == s[|s| - |rest|..];
    assert s[k..][|s[k..]| - |rest| - 3..] == s[|s| - |rest| - 3..];
  }

  /** A multi-line string ends behind three quotes, and has every equals sign it was printed with. */
  lemma {:induction false} MultiEquals(s: string)
    requires ReadMulti(s).Got?
    ensures ClosedBefore(s, ReadMulti(s).rest)
    ensures Count(ReadMulti(s).value, '=') + Count(ReadMulti(s).rest, '=') >= Count(s, '=')
    decreases |s|
  {
    hide ReadEscape, Control, Count, SkipBlank, ClosedBefore, LineOver;
    if ThreeQuotes(s) {
      MultiCloses(s);
    } else if s[0] == '\\' && LineOver(s[1..]) {
      SkippedBlank(s[1..]);
      var next := SkipBlank(s[1..]);
      assert next == s[|s| - |next|..];
      CountAfter(s, 1, '=');
      MultiEquals(next);
      ClosedLater(s, |s| - |next|, ReadMulti(s).rest);
    } else {
      var first := if s[0] == '\\' then ReadEscape(s[1..]) else Got(s[0], s[1..]);
      var used := |s| - |first.rest|;
      if s[0] == '\\' { EscapeUsed(s[1..]); }
      assert first.rest == s[used..];
      assert forall i | 1 <= i < used :: s[i] == s[1..][i - 1];
      MultiEquals(first.rest);
      ClosedLater(s, used, ReadMulti(s).rest);
      CountPast(s, used, '=');
      CountFirst(first.value, ReadMulti(first.rest).value, '=');
    }
  }

  lemma MultiCloses(s: string)
    requires ThreeQuotes(s)
    ensures ClosedBefore(s, s[ExtraQuotes(s) + 3..])
    ensures Count(s, '=') == Count(s[ExtraQuotes(s) + 3..], '=')
  {
    hide Count;
    var k := ExtraQuotes(s);
    CountAfter(s, k + 3, '=');
    assert s[|s| - |s[k + 3..]|..] == s[k + 3..];
    assert s[|s| - |s[k + 3..]| - 3..] == s[k..];
  }

  /** In shut text an equals sign comes before any three quotes. */
  lemma {:induction false} ShutHasEquals(s: string, rest: string)
    requires Shut(s) && ClosedBefore(s, rest)
    ensures Count(s, '=') > Count(rest, '=')
  {
    if s[0] == '=' {
      CountEnd(s[1..], rest, '=');
      assert s[1..][|s| - 1 - |rest|..] == s[|s| - |rest|..];
    } else {
      assert s[0..] == s;
      assert s[1..][|s| - 1 - |rest|..] == s[|s| - |rest|..];
      assert s[1..][|s| - 1 - |rest| - 3..] == s[|s| - |rest| - 3..];
      ShutHasEquals(s[1..], rest);
    }
  }

  /** The text of the source behind the opening three quotes. */
  function Body(s: string): string
    requires ThreeQuotes(s)
  {
    if |s| > 3 && s[3] == '\n' then s[4..] else s[3..]
  }

  lemma BodyEquals(s: string)
    requires ThreeQuotes(s)
    ensures Count(Body(s), '=') == Count(s, '=') && |s| - 4 <= |Body(s)| <= |s| - 3 && Body(s) == s[|s| - |Body(s)|..]
  {
    hide Count;
    CountAfter(s, |s| - |Body(s)|, '=');
  }

  /** Text whose own quotes open a multi-line string is never what that string says. */
  lemma MultiIsAnother(text: string, tail: string)
    requires ThreeQuotes(Quoted(text, tail)) && Shut(tail) && NoQuoteFirst(tail)
    ensures ReadString(Quoted(text, tail)).Got? ==> ReadString(Quoted(text, tail)).value != text
  {
    hide Count, ReadMulti, Shut;
    var s := Quoted(text, tail);
    var r := ReadMulti(Body(s));
    BodyEquals(s);
    if r.Got? && |r.rest| < |tail| {
      MultiEquals(Body(s));
      ClosedLater(s, |s| - |Body(s)|, r.rest);
      ClosedInTail(text, tail, r.rest);
      ShutHasEquals(tail, r.rest);
      AllEquals(text, tail);
    }
  }

  lemma AllEquals(text: string, tail: string)
    ensures Count(Quoted(text, tail), '=') == Count(text, '=') + Count(tail, '=')
  {
    hide Count;
    QuotedCount(text, tail, '=');
    CountFirst('"', text + "\"" + tail, '=');
    assert Quoted(text, tail) == ['"'] + (text + "\"" + tail);
  }

  lemma ClosedInTail(text: string, tail: string, rest: string)
    requires ClosedBefore(Quoted(text, tail), rest) && |rest| < |tail| && NoQuoteFirst(tail)
    ensures ClosedBefore(tail, rest)
  {
    var s := Quoted(text, tail);
    var at := |s| - |tail|;
    assert s[at..] == tail;
    var k := |s| - |rest| - 3;
    assert forall i | 0 <= i < |s| - k :: s[k..][i] == s[k + i];
    assert s[at] == tail[0];
    assert k > at;
    assert s[k..] == tail[k - at..] && s[|s| - |rest|..] == tail[|tail| - |rest|..];
  }

  /** Text between raw quotes that is read back as itself needed no escape. */
  lemma QuotedBack(text: string, tail: string)
    requires Shut(tail) && NoQuoteFirst(tail)
    requires ReadValue(Quoted(text, tail)).Got? && ReadValue(Quoted(text, tail)).value == Str(text)
    ensures RawText(text) && ReadValue(Quoted(text, tail)).rest == tail
  {
    hide ReadChars, ReadMulti, Shut, RawText, ThreeQuotes;
    assert Quoted(text, tail)[1..] == text + "\"" + tail;
    if ThreeQuotes(Quoted(text, tail)) {
      MultiIsAnother(text, tail);
    } else {
      RawIfItself(text, tail);
    }
  }
}
