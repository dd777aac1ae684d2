/** Reading a printed key or value gives it back, exactly when its strings are inside the BMP. */
module TomlValues {
  import opened AsciiText
  import opened TomlText
  import opened TomlReader

  // ── strings ───────────────────────────────────────────────────────────

  lemma HexValueOfDigit(n: nat)
    requires n < 16
    ensures HexValue(HexDigit(n)) == n && ' ' <= HexDigit(n) <= '~'
  {
  }

  lemma CodeOfDigits(a: nat, b: nat, c: nat, d: nat)
    requires a < 16 && b < 16 && c < 16 && d < 16
    ensures Code4([HexDigit(a), HexDigit(b), HexDigit(c), HexDigit(d)]) == ((a * 16 + b) * 16 + c) * 16 + d
  {
    hide HexValue, HexDigit;
    HexValueOfDigit(a);
    HexValueOfDigit(b);
    HexValueOfDigit(c);
    HexValueOfDigit(d);
  }

  lemma HexParts(n: nat)
    requires n < 0x10000
    ensures n / 0x1000 < 16
    ensures ((n / 0x1000 * 16 + n / 0x100 % 16) * 16 + n / 16 % 16) * 16 + n % 16 == n
  {
    var q := n / 16;
    var p := q / 16;
    assert p == n / 0x100 && p / 16 == n / 0x1000;
    assert p == p / 16 * 16 + p % 16 && q == p * 16 + q % 16 && n == q * 16 + n % 16;
  }

  lemma CodeOfHex(n: nat)
    requires n < 0x10000
    ensures |Hex4(n)| == 4 && Code4(Hex4(n)) == n && Printable(Hex4(n))
  {
    hide HexValue, HexDigit, Code4;
    HexParts(n);
    CodeOfDigits(n / 0x1000, n / 0x100 % 16, n / 16 % 16, n % 16);
    HexValueOfDigit(n / 0x1000);
    HexValueOfDigit(n / 0x100 % 16);
    HexValueOfDigit(n / 16 % 16);
    HexValueOfDigit(n % 16);
  }

  /** A `\u` escape: the character of the code, or none when the code is half a surrogate pair. */
  lemma ReadsUnicode(n: nat, t: string)
    requires n < 0x10000
    ensures ReadEscape("u" + Hex4(n) + t) == if 0xD800 <= n < 0xE000 then Bad else Got(n as char, t)
  {
    hide Hex4, Code4;
    CodeOfHex(n);
    assert ("u" + Hex4(n) + t)[1..5] == Hex4(n);
    assert ("u" + Hex4(n) + t)[5..] == t;
  }

  /** The forms an escape takes. */
  lemma EscapeShape(c: char)
    ensures Escape(c) != "" && Escape(c)[0] != '"' && !Control(Escape(c)[0])
    ensures Escape(c)[0] != '\\' ==> Escape(c) == [c] && Bmp(c)
    ensures Escape(c)[0] == '\\' && Bmp(c) ==> |Escape(c)| == 2 || Escape(c) == "\\u" + Hex4(c as int)
    ensures !Bmp(c) ==>
      var n := c as int - 0x10000;
      Escape(c) == "\\u" + Hex4(0xD800 + n / 0x400) + "\\u" + Hex4(0xDC00 + n % 0x400)
  {
    hide Hex4;
  }

  /** An escaped character is one read back, or, as half a surrogate pair, none. */
  lemma ReadsEscape(c: char, t: string)
    requires Escape(c) != "" && Escape(c)[0] == '\\'
    ensures ReadEscape((Escape(c) + t)[1..]) == if Bmp(c) then Got(c, t) else Bad
  {
    hide Escape, Hex4, Code4, ReadEscape;
    EscapeShape(c);
    if !Bmp(c) {
      var n := c as int - 0x10000;
      var low := "\\u" + Hex4(0xDC00 + n % 0x400) + t;
      ReadsUnicode(0xD800 + n / 0x400, low);
      assert (Escape(c) + t)[1..] == "u" + Hex4(0xD800 + n / 0x400) + low;
    } else if |Escape(c)| == 2 {
      ReadsShort(c, [Escape(c)[1]] + t);
      assert (Escape(c) + t)[1..] == [Escape(c)[1]] + t;
      assert ([Escape(c)[1]] + t)[1..] == t;
    } else {
      ReadsUnicode(c as int, t);
      assert (Escape(c) + t)[1..] == "u" + Hex4(c as int) + t;
    }
  }

  lemma ReadsShort(c: char, s: string)
    requires |Escape(c)| == 2 && s != "" && s[0] == Escape(c)[1]
    ensures Bmp(c) && Escape(c)[0] == '\\' && ReadEscape(s) == Got(c, s[1..])
  {
    hide Hex4, Code4;
    if !(' ' <= c <= '~') && c != '\n' && c != '\r' && c != '\t' && c != BACKSPACE && c != FORM_FEED {
      HexLength(c);
    }
  }

  lemma HexLength(c: char)
    ensures Bmp(c) ==> |Hex4(c as int)| == 4
    ensures !Bmp(c) ==> |Hex4(0xD800 + (c as int - 0x10000) / 0x400)| == 4
  {
  }

  /** One character of a basic string, then the rest of it. */
  lemma ReadsChar(c: char, t: string)
    ensures ReadChars(Escape(c) + t) ==
      if !Bmp(c) || ReadChars(t).Bad? then Bad else Got([c] + ReadChars(t).value, ReadChars(t).rest)
  {
    hide Escape, ReadEscape, Control;
    EscapeShape(c);
    if Escape(c)[0] == '\\' {
      ReadsEscape(c, t);
    } else {
      assert (Escape(c) + t)[1..] == t;
    }
  }

  lemma {:induction false} ReadsEscaped(s: string, rest: string)
    ensures ReadChars(Escaped(s) + "\"" + rest) == if BmpText(s) then Got(s, rest) else Bad
  {
    hide Escape, ReadEscape, Bmp;
    if s == "" {
      assert Escaped(s) + "\"" + rest == "\"" + rest;
    } else {
      var t := Escaped(s[1..]) + "\"" + rest;
      assert Escaped(s) + "\"" + rest == Escape(s[0]) + t;
      ReadsChar(s[0], t);
      ReadsEscaped(s[1..], rest);
      assert s == [s[0]] + s[1..];
      assert BmpText(s) <==> Bmp(s[0]) && BmpText(s[1..]);
    }
  }

  predicate Printable(s: string) {
    forall i | 0 <= i < |s| :: ' ' <= s[i] <= '~'
  }

  lemma EscapePrintable(c: char)
    ensures Printable(Escape(c))
  {
    hide Hex4;
    if Bmp(c) {
      CodeOfHex(c as int);
    } else {
      var n := c as int - 0x10000;
      CodeOfHex(0xD800 + n / 0x400);
      CodeOfHex(0xDC00 + n % 0x400);
    }
  }

  lemma {:induction false} EscapedPrintable(s: string)
    ensures Printable(Escaped(s))
  {
    if s != "" {
      EscapePrintable(s[0]);
      EscapedPrintable(s[1..]);
    }
  }

  lemma {:induction false} NothingToReplace(s: string)
    requires Printable(s)
    ensures ReplaceDel(s) == s
  {
    if s != "" { NothingToReplace(s[1..]); }
  }

  /** `json.dumps` has escaped DEL itself, in keys as in values: replacing it changes nothing. */
  lemma DelIsEscaped(s: string)
    ensures Printable(Dumps(s)) && ReplaceDel(Dumps(s)) == Dumps(s)
  {
    EscapedPrintable(s);
    NothingToReplace(Dumps(s));
  }

  // ── keys ──────────────────────────────────────────────────────────────

  predicate EndsBare(rest: string) {
    rest == "" || !BareChar(rest[0])
  }

  lemma {:induction false} BareLengthOf(key: string, rest: string)
    requires forall i | 0 <= i < |key| :: BareChar(key[i])
    requires EndsBare(rest)
    ensures BareLength(key + rest) == |key|
  {
    if key == "" {
      assert key + rest == rest;
    } else {
      assert (key + rest)[1..] == key[1..] + rest && BareChar(key[0]);
      BareLengthOf(key[1..], rest);
    }
  }

  lemma ReadsKey(key: string, rest: string)
    requires EndsBare(rest)
    ensures ReadKey(KeyText(key) + rest) == if BmpText(key) then Got(key, rest) else Bad
    ensures KeyText(key) != "" && (KeyText(key)[0] == '"' || BareChar(KeyText(key)[0]))
  {
    hide ReadChars, Escaped;
    if Bare(key) {
      BareLengthOf(key, rest);
      assert BareChar(key[0]) && (key + rest)[0] == key[0];
      assert (key + rest)[..|key|] == key && (key + rest)[|key|..] == rest;
      forall i | 0 <= i < |key| ensures Bmp(key[i]) { assert BareChar(key[i]); }
    } else {
      assert (Dumps(key) + rest)[1..] == Escaped(key) + "\"" + rest;
      ReadsEscaped(key, rest);
    }
  }

  // ── numbers ───────────────────────────────────────────────────────────

  lemma {:induction false} DigitsRead(n: nat)
    ensures Digits(n) != "" && AllDigits(Digits(n))
    ensures Digits(n)[0] == '0' ==> |Digits(n)| == 1
    ensures n > 0 ==> Digits(n)[0] != '0'
    ensures NumberOf(Digits(n)) == n
  {
    if n < 10 {
      assert NumberOf("") == 0;
      assert Digits(n)[..0] == "";
    } else {
      DigitsRead(n / 10);
      var d := Digits(n);
      assert d[..|d| - 1] == Digits(n / 10);
      assert d[|d| - 1] == Digit(n % 10);
    }
  }

  predicate EndsDigits(rest: string) {
    rest == "" || !IsDigit(rest[0])
  }

  lemma {:induction false} DigitLengthOf(d: string, rest: string)
    requires AllDigits(d)
    requires EndsDigits(rest)
    ensures DigitLength(d + rest) == |d|
  {
    if d == "" {
      assert d + rest == rest;
    } else {
      assert (d + rest)[1..] == d[1..] + rest && IsDigit(d[0]);
      DigitLengthOf(d[1..], rest);
    }
  }

  lemma ReadsNat(n: nat, rest: string)
    requires EndsDigits(rest)
    ensures Digits(n) != "" && IsDigit(Digits(n)[0])
    ensures ReadNat(Digits(n) + rest) == Got(n, rest)
  {
    DigitsRead(n);
    hide Digits, DigitLength, NumberOf;
    var d := Digits(n);
    DigitLengthOf(d, rest);
    assert (d + rest)[..|d|] == d && (d + rest)[|d|..] == rest;
  }

  lemma ReadsInt(n: int, rest: string)
    requires EndsDigits(rest)
    ensures Repr(n) != "" && (Repr(n)[0] == '-' || IsDigit(Repr(n)[0]))
    ensures ReadInt(Repr(n) + rest) == Got(Int(n), rest)
  {
    hide ReadNat, Digits;
    var d := Digits(if n < 0 then -n else n);
    ReadsNat(if n < 0 then -n else n, rest);
    if n < 0 {
      SignAndDigits(d, rest);
    } else {
      assert (d + rest)[0] == d[0];
    }
  }

  lemma SignAndDigits(d: string, rest: string)
    ensures "-" + d + rest == ['-'] + (d + rest) && (['-'] + (d + rest))[1..] == d + rest
  {
  }

  // ── values ────────────────────────────────────────────────────────────

  /** What may follow a printed value. */
  predicate EndsValue(rest: string) {
    rest == "" || rest[0] == ',' || rest[0] == ']' || rest[0] == ' ' || rest[0] == '\n'
  }

  /** A printed value starts with none of the characters the reader treats apart. */
  predicate StartsValue(s: string) {
    s != "" && !Blank(s[0]) && s[0] != ']' && s[0] != '}' && s[0] != '#'
  }

  lemma TextStarts(v: Value)
    ensures StartsValue(Text(v))
  {
    match v
    case Str(text) => DelIsEscaped(text);
    case Int(number) => ReadsInt(number, "");
    case _ =>
  }

  lemma SkipSpace(s: string)
    requires s != "" && !Blank(s[0])
    ensures SkipWs(" " + s) == s
  {
    assert (" " + s)[1..] == s;
  }

  lemma ReadsBool(flag: bool, rest: string)
    ensures ReadValue(Text(Bool(flag)) + rest) == Got(Bool(flag), rest)
  {
    var s := Text(Bool(flag)) + rest;
    if flag {
      assert s[..4] == "true" && s[4..] == rest;
    } else {
      assert s[..4][0] == s[0] == 'f';
      assert s[..5] == "false" && s[5..] == rest;
    }
  }

  /** A printed string does not open with three quotes. */
  lemma NotMulti(text: string, rest: string)
    requires rest == "" || rest[0] != '"'
    ensures !ThreeQuotes(Dumps(text) + rest)
  {
    hide Escape;
    if text != "" { EscapeShape(text[0]); }
  }

  lemma ReadsStr(text: string, rest: string)
    requires EndsValue(rest)
    ensures ReadValue(Text(Str(text)) + rest) == if BmpText(text) then Got(Str(text), rest) else Bad
  {
    hide Dumps, ReplaceDel, ReadString;
    DelIsEscaped(text);
    ReadsDumps(text, rest);
  }

  lemma ReadsDumps(text: string, rest: string)
    requires EndsValue(rest)
    ensures Dumps(text) + rest != "" && (Dumps(text) + rest)[0] == '"'
    ensures ReadString(Dumps(text) + rest) == if BmpText(text) then Got(text, rest) else Bad
  {
    hide Dumps, Escaped, ReadChars, ReadString, ThreeQuotes, BmpText;
    DumpsIs(text, rest);
    NotMulti(text, rest);
    ReadsEscaped(text, rest);
    OneQuote(Escaped(text) + "\"" + rest);
  }

  lemma DumpsIs(text: string, rest: string)
    ensures Dumps(text) + rest == "\"" + (Escaped(text) + "\"" + rest)
  {
    hide Escaped;
  }

  lemma OneQuote(chars: string)
    requires !ThreeQuotes("\"" + chars)
    ensures ReadString("\"" + chars) == ReadChars(chars)
  {
    hide ReadChars, ReadMulti, ThreeQuotes;
    assert ("\"" + chars)[1..] == chars;
  }

  lemma ReadsNumber(n: int, rest: string)
    requires EndsValue(rest)
    ensures ReadValue(Text(Int(n)) + rest) == Got(Int(n), rest)
  {
    hide ReadInt, ReadValue, Repr;
    ReadsInt(n, rest);
    var s := Repr(n) + rest;
    assert s[0] == Repr(n)[0];
    ValueIsInt(s);
  }

  lemma ValueIsInt(s: string)
    requires s != "" && (s[0] == '-' || IsDigit(s[0]))
    ensures ReadValue(s) == ReadInt(s)
  {
    hide ReadInt;
  }

  /** A printed key and an equals sign, before any value. */
  lemma ReadsEquals(key: string, v: string)
    requires v != "" && !Blank(v[0])
    ensures ReadPair(KeyText(key) + " = " + v) ==
      if !BmpText(key) || ReadValue(v).Bad? then Bad else Got((key, ReadValue(v).value), ReadValue(v).rest)
  {
    hide ReadKey, KeyText, ReadValue, BmpText;
    var after := " = " + v;
    ReadsKey(key, after);
    assert KeyText(key) + " = " + v == KeyText(key) + after;
    SkipSpace("= " + v);
    assert after == " " + ("= " + v);
    AfterSpace('=', v);
    assert "= " + v == ['='] + " " + v;
  }

  /** `key = value`, in a table or in an inline one. */
  lemma ReadsPair(key: string, value: Value, rest: string)
    requires Distinct(value) && EndsValue(rest)
    ensures ReadPair(KeyText(key) + " = " + Text(value) + rest) ==
      if BmpText(key) && Readable(value) then Got((key, value), rest) else Bad
    decreases value, 1
  {
    hide ReadPair, KeyText, Text, ReadValue;
    TextStarts(value);
    ReadsEquals(key, Text(value) + rest);
    assert KeyText(key) + " = " + Text(value) + rest == KeyText(key) + " = " + (Text(value) + rest);
    ReadsValue(value, rest);
  }

  lemma {:induction false} ReadsItems(vs: Values, rest: string)
    requires vs.More? && DistinctItems(vs)
    ensures ReadItems(ItemsText(vs) + "]" + rest) == if ReadableItems(vs) then Got(vs, rest) else Bad
    decreases vs, 0
  {
    hide Text, ReadValue;
    var after := (if vs.tail.NoMore? then "" else ", " + ItemsText(vs.tail)) + "]" + rest;
    assert ItemsText(vs) + "]" + rest == Text(vs.head) + after;
    ReadsValue(vs.head, after);
    if vs.tail.NoMore? {
      assert after == "]" + rest && after[1..] == rest;
    } else {
      ReadsItems(vs.tail, rest);
      TextStarts(vs.tail.head);
      var next := ItemsText(vs.tail) + "]" + rest;
      assert after[1..] == " " + next;
      assert next[0] == Text(vs.tail.head)[0];
      SkipSpace(next);
    }
  }

  /** A printed pair starts with its key. */
  lemma PairsStart(e: Entries, rest: string)
    requires e.Entry?
    ensures var s := PairsText(e) + rest; s != "" && !Blank(s[0]) && s[0] != '}'
  {
    ReadsKey(e.key, " ");
    hide KeyText;
    assert (PairsText(e) + rest)[0] == KeyText(e.key)[0];
  }

  /** One character, a space, and what follows them. */
  lemma AfterSpace(c: char, next: string)
    requires next != "" && !Blank(next[0])
    ensures var s := [c] + " " + next; s[0] == c && SkipWs(s[1..]) == next
  {
    assert ([c] + " " + next)[1..] == " " + next;
    SkipSpace(next);
  }

  /** `ReadPairs` over a comma. */
  lemma MorePairs(s: string, pair: (string, Value), next: string)
    requires next != "" && !Blank(next[0])
    requires ReadPair(s) == Got(pair, [','] + " " + next)
    ensures ReadPairs(s) ==
      (var more := ReadPairs(next);
       if more.Bad? || pair.0 in Keys(more.value) then Bad else Got(Entry(pair.0, pair.1, more.value), more.rest))
  {
    hide ReadPair;
    AfterSpace(',', next);
  }

  lemma LastPair(s: string, pair: (string, Value), rest: string)
    requires ReadPair(s) == Got(pair, " }" + rest)
    ensures ReadPairs(s) == Got(Entry(pair.0, pair.1, End), rest)
  {
    hide ReadPair;
    SkipSpace("}" + rest);
    assert " }" + rest == " " + ("}" + rest) && ("}" + rest)[1..] == rest;
  }

  lemma {:induction false} ReadsPairs(e: Entries, rest: string)
    requires e.Entry? && DistinctEntries(e)
    ensures ReadPairs(PairsText(e) + " }" + rest) == if ReadableEntries(e) then Got(e, rest) else Bad
    decreases e, 0
  {
    hide Text, ReadPair, KeyText;
    var s := PairsText(e) + " }" + rest;
    if e.rest.End? {
      assert s == KeyText(e.key) + " = " + Text(e.value) + (" }" + rest);
      ReadsPair(e.key, e.value, " }" + rest);
      if BmpText(e.key) && Readable(e.value) { LastPair(s, (e.key, e.value), rest); }
    } else {
      var next := PairsText(e.rest) + " }" + rest;
      assert next == PairsText(e.rest) + (" }" + rest);
      PairsStart(e.rest, " }" + rest);
      var after := [','] + " " + next;
      assert s == KeyText(e.key) + " = " + Text(e.value) + after;
      ReadsPair(e.key, e.value, after);
      ReadsPairs(e.rest, rest);
      if BmpText(e.key) && Readable(e.value) { MorePairs(s, (e.key, e.value), next); }
    }
  }

  /** Printing and reading are inverse on every value whose strings and quoted keys are inside the BMP, and on no other. */
  lemma {:induction false} ReadsValue(v: Value, rest: string)
    requires Distinct(v) && EndsValue(rest)
    ensures ReadValue(Text(v) + rest) == if Readable(v) then Got(v, rest) else Bad
    decreases v, 0
  {
    match v
    case Bool(flag) => ReadsBool(flag, rest);
    case Str(text) => ReadsStr(text, rest);
    case Int(number) => ReadsNumber(number, rest);
    case Arr(items) => ReadsArr(items, rest);
    case Tab(entries) => ReadsTab(entries, rest);
  }

  lemma ReadsArr(items: Values, rest: string)
    requires DistinctItems(items)
    ensures ReadValue(Text(Arr(items)) + rest) == if ReadableItems(items) then Got(Arr(items), rest) else Bad
    decreases items, 1
  {
    hide ReadItems, ReadValue, ItemsText;
    var inside := ItemsText(items) + "]" + rest;
    assert Text(Arr(items)) + rest == "[" + inside;
    if items.NoMore? {
      NothingInside(rest);
    } else {
      ItemsStart(items, "]" + rest);
      assert inside == ItemsText(items) + ("]" + rest);
      ReadsItems(items, rest);
      BracketOpens(inside);
    }
  }

  lemma NothingInside(rest: string)
    ensures ItemsText(NoMore) + "]" + rest == "]" + rest
    ensures ReadValue("[" + ("]" + rest)) == Got(Arr(NoMore), rest)
  {
    assert ("[" + ("]" + rest))[1..] == "]" + rest && ("]" + rest)[1..] == rest;
  }

  /** The array a bracket opens. */
  lemma BracketOpens(inside: string)
    requires inside != "" && !Blank(inside[0]) && inside[0] != ']'
    ensures ReadValue("[" + inside) ==
      var items := ReadItems(inside); if items.Bad? then Bad else Got(Arr(items.value), items.rest)
  {
    hide ReadItems;
    assert ("[" + inside)[1..] == inside;
  }

  /** Printed items start with the first one. */
  lemma ItemsStart(vs: Values, rest: string)
    requires vs.More?
    ensures var s := ItemsText(vs) + rest; s != "" && !Blank(s[0]) && s[0] != ']'
  {
    TextStarts(vs.head);
    hide Text;
    assert (ItemsText(vs) + rest)[0] == Text(vs.head)[0];
  }

  lemma ReadsTab(entries: Entries, rest: string)
    requires DistinctEntries(entries)
    ensures ReadValue(Text(Tab(entries)) + rest) == if ReadableEntries(entries) then Got(Tab(entries), rest) else Bad
    decreases entries, 1
  {
    hide ReadPairs, PairsText;
    var s := Text(Tab(entries)) + rest;
    if entries.End? {
      assert s == "{}" + rest;
      assert s[1..] == "}" + rest;
      assert ("}" + rest)[1..] == rest;
    } else {
      var next := PairsText(entries) + " }" + rest;
      assert next == PairsText(entries) + (" }" + rest);
      PairsStart(entries, " }" + rest);
      AfterSpace('{', next);
      assert s == ['{'] + " " + next;
      ReadsPairs(entries, rest);
    }
  }
}
