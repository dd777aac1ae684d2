/**
 A reader for the part of TOML v1.0.0 the manifests use: comments, "Keys"
 (bare and quoted, one part in a key/value pair), basic and multi-line basic
 strings of "String" with all of their escapes, decimal "Integer", "Boolean",
 one-line "Array", "Table" and "Inline Table". It takes less than TOML does
 and never more: what it accepts means there what it means here, and what
 opens with a quotation mark is read as there in every case. Lines end with
 '\n', as a file read as text has them.
 */
module TomlReader {
  import opened Wrappers
  import opened AsciiText
  import opened TomlText

  /** What was read, and the text after it. */
  datatype Parsed<T> = Got(value: T, rest: string) | Bad

  predicate Blank(c: char) {
    c == ' ' || c == '\t'
  }

  function SkipWs(s: string): (r: string)
    ensures |r| <= |s|
    ensures r == "" || !Blank(r[0])
  {
    if s != "" && Blank(s[0]) then SkipWs(s[1..]) else s
  }

  // ── strings ───────────────────────────────────────────────────────────

  function HexValue(c: char): int {
    if '0' <= c <= '9' then c as int - '0' as int
    else if 'a' <= c <= 'f' then c as int - 'a' as int + 10
    else if 'A' <= c <= 'F' then c as int - 'A' as int + 10
    else -1
  }

  /** The code point of four hex digits, or -1. */
  function Code4(s: string): int
    requires |s| == 4
  {
    if HexValue(s[0]) < 0 || HexValue(s[1]) < 0 || HexValue(s[2]) < 0 || HexValue(s[3]) < 0 then -1
    else ((HexValue(s[0]) * 16 + HexValue(s[1])) * 16 + HexValue(s[2])) * 16 + HexValue(s[3])
  }

  /** The code point of twice four hex digits, or -1. */
  function Code8(high: string, low: string): int
    requires |high| == |low| == 4
  {
    if Code4(high) < 0 || Code4(low) < 0 then -1 else Code4(high) * 0x10000 + Code4(low)
  }

  /** A code point that is a character: no surrogate, and none beyond the last plane. */
  predicate Scalar(code: int) {
    0 <= code < 0xD800 || 0xE000 <= code < 0x110000
  }

  /** Control characters other than tab must be escaped. */
  predicate Control(c: char) {
    (c < ' ' && c != '\t') || c == DEL
  }

  /** The character an escape stands for, and what follows. */
  function ReadEscape(s: string): (r: Parsed<char>)
    ensures r.Got? ==> |r.rest| < |s|
  {
    if s == "" then Bad
    else if s[0] == '"' then Got('"', s[1..])
    else if s[0] == '\\' then Got('\\', s[1..])
    else if s[0] == 'n' then Got('\n', s[1..])
    else if s[0] == 'r' then Got('\r', s[1..])
    else if s[0] == 't' then Got('\t', s[1..])
    else if s[0] == 'b' then Got(8 as char, s[1..])
    else if s[0] == 'f' then Got(12 as char, s[1..])
    else if s[0] == 'u' && |s| >= 5 then
      var code := Code4(s[1..5]);
      if !Scalar(code) then Bad else Got(code as char, s[5..])
    else if s[0] == 'U' && |s| >= 9 then
      var code := Code8(s[1..5], s[5..9]);
      if !Scalar(code) then Bad else Got(code as char, s[9..])
    else Bad
  }

  /** The rest of a basic string, its opening quote already read. */
  function ReadChars(s: string): (r: Parsed<string>)
    ensures r.Got? ==> |r.value| + |r.rest| < |s|
    decreases |s|
  {
    if s == "" || Control(s[0]) then Bad
    else if s[0] == '"' then Got("", s[1..])
    else
      var first := if s[0] == '\\' then ReadEscape(s[1..]) else Got(s[0], s[1..]);
      if first.Bad? then Bad
      else
        var more := ReadChars(first.rest);
        if more.Bad? then Bad else Got([first.value] + more.value, more.rest)
  }

  predicate ThreeQuotes(s: string) {
    |s| >= 3 && s[0] == '"' && s[1] == '"' && s[2] == '"'
  }

  /** Blanks and line ends. */
  function SkipBlank(s: string): (r: string)
    ensures |r| <= |s|
  {
    if s != "" && (Blank(s[0]) || s[0] == '\n') then SkipBlank(s[1..]) else s
  }

  /** Nothing but blanks is left on the line: a backslash before it joins the next one. */
  predicate LineOver(s: string) {
    SkipWs(s) != "" && SkipWs(s)[0] == '\n'
  }

  /** How many of the quotes before the closing three belong to the string. */
  function ExtraQuotes(s: string): nat
    requires ThreeQuotes(s)
  {
    if |s| == 3 || s[3] != '"' then 0 else if |s| == 4 || s[4] != '"' then 1 else 2
  }

  /** The rest of a multi-line basic string, its opening quotes already read. */
  function ReadMulti(s: string): (r: Parsed<string>)
    ensures r.Got? ==> |r.value| + |r.rest| + 3 <= |s|
    decreases |s|
  {
    if s == "" then Bad
    else if ThreeQuotes(s) then
      Got(s[..ExtraQuotes(s)], s[ExtraQuotes(s) + 3..])
    else if s[0] == '\\' && LineOver(s[1..]) then ReadMulti(SkipBlank(s[1..]))
    else if Control(s[0]) && s[0] != '\n' then Bad
    else
      var first := if s[0] == '\\' then ReadEscape(s[1..]) else Got(s[0], s[1..]);
      if first.Bad? then Bad
      else
        var more := ReadMulti(first.rest);
        if more.Bad? then Bad else Got([first.value] + more.value, more.rest)
  }

  /** A basic string of either kind; a line end right behind three quotes is dropped. */
  function ReadString(s: string): (r: Parsed<string>)
    requires s != "" && s[0] == '"'
    ensures r.Got? ==> |r.rest| < |s|
  {
    if !ThreeQuotes(s) then ReadChars(s[1..])
    else if |s| > 3 && s[3] == '\n' then ReadMulti(s[4..])
    else ReadMulti(s[3..])
  }

  // ── keys ──────────────────────────────────────────────────────────────

  function BareLength(s: string): (n: nat)
    ensures n <= |s|
    ensures forall i | 0 <= i < n :: BareChar(s[i])
    ensures n < |s| ==> !BareChar(s[n])
  {
    if s != "" && BareChar(s[0]) then
      var n := BareLength(s[1..]);
      assert forall i | 1 <= i < n + 1 :: s[i] == s[1..][i - 1];
      n + 1
    else 0
  }

  function ReadKey(s: string): (r: Parsed<string>)
    ensures r.Got? ==> |r.rest| < |s|
  {
    if s != "" && s[0] == '"' then ReadChars(s[1..])
    else if BareLength(s) == 0 then Bad
    else Got(s[..BareLength(s)], s[BareLength(s)..])
  }

  // ── numbers ───────────────────────────────────────────────────────────

  function DigitLength(s: string): (n: nat)
    ensures n <= |s|
    ensures AllDigits(s[..n])
    ensures n < |s| ==> !IsDigit(s[n])
  {
    if s != "" && IsDigit(s[0]) then
      var n := DigitLength(s[1..]);
      assert s[..n + 1] == [s[0]] + s[1..][..n];
      n + 1
    else 0
  }

  /** Decimal digits without a leading zero. */
  function ReadNat(s: string): (r: Parsed<nat>)
    ensures r.Got? ==> |r.rest| < |s|
  {
    var n := DigitLength(s);
    if n == 0 || (n > 1 && s[0] == '0') then Bad else Got(NumberOf(s[..n]), s[n..])
  }

  // ── values ────────────────────────────────────────────────────────────

  function ReadWord(s: string): (r: Parsed<Value>)
    ensures r.Got? ==> |r.rest| < |s|
  {
    if |s| >= 4 && s[..4] == "true" then Got(Bool(true), s[4..])
    else if |s| >= 5 && s[..5] == "false" then Got(Bool(false), s[5..])
    else Bad
  }

  function ReadInt(s: string): (r: Parsed<Value>)
    ensures r.Got? ==> |r.rest| < |s|
  {
    if s != "" && s[0] == '-' then
      var r := ReadNat(s[1..]);
      if r.Bad? then Bad else Got(Int(0 - r.value), r.rest)
    else
      var r := ReadNat(s);
      if r.Bad? then Bad else Got(Int(r.value), r.rest)
  }

  function ReadValue(s: string): (r: Parsed<Value>)
    ensures r.Got? ==> |r.rest| < |s|
    decreases |s|, 1
  {
    if s == "" then Bad
    else if s[0] == '"' then
      var text := ReadString(s);
      if text.Bad? then Bad else Got(Str(text.value), text.rest)
    else if s[0] == '[' then
      var inside := SkipWs(s[1..]);
      if inside != "" && inside[0] == ']' then Got(Arr(NoMore), inside[1..])
      else
        var items := ReadItems(inside);
        if items.Bad? then Bad else Got(Arr(items.value), items.rest)
    else if s[0] == '{' then
      var inside := SkipWs(s[1..]);
      if inside != "" && inside[0] == '}' then Got(Tab(End), inside[1..])
      else
        var pairs := ReadPairs(inside);
        if pairs.Bad? then Bad else Got(Tab(pairs.value), pairs.rest)
    else if s[0] == 't' || s[0] == 'f' then ReadWord(s)
    else ReadInt(s)
  }

  /** The items of an array up to its closing bracket; a comma may stand before it. */
  function ReadItems(s: string): (r: Parsed<Values>)
    ensures r.Got? ==> |r.rest| < |s|
    decreases |s|, 2
  {
    var head := ReadValue(s);
    if head.Bad? then Bad
    else
      var after := SkipWs(head.rest);
      if after == "" then Bad
      else if after[0] == ']' then Got(More(head.value, NoMore), after[1..])
      else if after[0] != ',' then Bad
      else
        var next := SkipWs(after[1..]);
        if next != "" && next[0] == ']' then Got(More(head.value, NoMore), next[1..])
        else
          var tail := ReadItems(next);
          if tail.Bad? then Bad else Got(More(head.value, tail.value), tail.rest)
  }

  /** `key = value` */
  function ReadPair(s: string): (r: Parsed<(string, Value)>)
    ensures r.Got? ==> |r.rest| < |s|
    decreases |s|, 2
  {
    var key := ReadKey(s);
    if key.Bad? then Bad
    else
      var equals := SkipWs(key.rest);
      if equals == "" || equals[0] != '=' then Bad
      else
        var value := ReadValue(SkipWs(equals[1..]));
        if value.Bad? then Bad else Got((key.value, value.value), value.rest)
  }

  /** The pairs of an inline table up to its closing brace, no key twice. */
  function ReadPairs(s: string): (r: Parsed<Entries>)
    ensures r.Got? ==> |r.rest| < |s|
    decreases |s|, 3
  {
    var pair := ReadPair(s);
    if pair.Bad? then Bad
    else
      var after := SkipWs(pair.rest);
      if after == "" then Bad
      else if after[0] == '}' then Got(Entry(pair.value.0, pair.value.1, End), after[1..])
      else if after[0] != ',' then Bad
      else
        var more := ReadPairs(SkipWs(after[1..]));
        if more.Bad? || pair.value.0 in Keys(more.value) then Bad
        else Got(Entry(pair.value.0, pair.value.1, more.value), more.rest)
  }

  // ── lines ─────────────────────────────────────────────────────────────

  datatype Line = Nothing | Header(path: seq<string>) | Pair(key: string, value: Value)

  /** The end of a comment; it holds no control characters but tabs. */
  function CommentEnd(s: string): (r: Option<string>)
    ensures r.Some? ==> |r.value| <= |s| && (r.value == "" || r.value[0] == '\n')
  {
    if s == "" || s[0] == '\n' then Some(s)
    else if Control(s[0]) then None
    else CommentEnd(s[1..])
  }

  /** The end of the line, with only blanks and a comment before it. */
  function LineEnd(s: string): (r: Option<string>)
    ensures r.Some? ==> |r.value| <= |s| && (r.value == "" || r.value[0] == '\n')
  {
    var rest := SkipWs(s);
    if rest == "" || rest[0] == '\n' then Some(rest)
    else if rest[0] == '#' then CommentEnd(rest)
    else None
  }

  /** The dotted key of a table header, up to its closing bracket. */
  function ReadPath(s: string): (r: Parsed<seq<string>>)
    ensures r.Got? ==> |r.rest| < |s|
    decreases |s|
  {
    var key := ReadKey(s);
    if key.Bad? then Bad
    else
      var after := SkipWs(key.rest);
      if after == "" then Bad
      else if after[0] == ']' then Got([key.value], after[1..])
      else if after[0] != '.' then Bad
      else
        var more := ReadPath(SkipWs(after[1..]));
        if more.Bad? then Bad else Got([key.value] + more.value, more.rest)
  }

  function ToLineEnd(line: Line, rest: string): (r: Parsed<Line>)
    ensures r.Got? ==> |r.rest| <= |rest| && (r.rest == "" || r.rest[0] == '\n')
  {
    if LineEnd(rest).None? then Bad else Got(line, LineEnd(rest).value)
  }

  /** One comment, header or pair, with the rest of its last line. */
  function ReadLine(text: string): (r: Parsed<Line>)
    ensures r.Got? ==> |r.rest| <= |text| && (r.rest == "" || r.rest[0] == '\n')
  {
    var s := SkipWs(text);
    if LineEnd(s).Some? then Got(Nothing, LineEnd(s).value)
    else if s[0] == '[' then
      var path := ReadPath(SkipWs(s[1..]));
      if path.Bad? then Bad else ToLineEnd(Header(path.value), path.rest)
    else
      var pair := ReadPair(s);
      if pair.Bad? then Bad else ToLineEnd(Pair(pair.value.0, pair.value.1), pair.rest)
  }

  function ReadLines(text: string): Option<seq<Line>>
    decreases |text|
  {
    var first := ReadLine(text);
    if first.Bad? then None
    else if first.rest == "" then Some([first.value])
    else
      var more := ReadLines(first.rest[1..]);
      if more.None? then None else Some([first.value] + more.value)
  }

  // ── the document ──────────────────────────────────────────────────────

  /** The table at `path`; None when there is none there. */
  function TableAt(root: Entries, path: seq<string>): Option<Entries>
    decreases |path|
  {
    if path == [] then Some(root)
    else if path[0] !in Keys(root) || !Get(root, path[0]).Tab? then None
    else TableAt(Get(root, path[0]).entries, path[1..])
  }

  function SetTableAt(root: Entries, path: seq<string>, table: Entries): Entries
    requires TableAt(root, path).Some?
    decreases |path|
  {
    if path == [] then table
    else Put(root, path[0], Tab(SetTableAt(Get(root, path[0]).entries, path[1..], table)))
  }

  /** `key` defined in the table at `path`; each table and key is defined once. */
  function Define(root: Entries, path: seq<string>, key: string, value: Value): Option<Entries> {
    var at := TableAt(root, path);
    if at.None? || key in Keys(at.value) then None
    else Some(SetTableAt(root, path, Put(at.value, key, value)))
  }

  /** The lines in order: a header opens a new table, a pair goes to the table opened last. */
  function Build(root: Entries, at: seq<string>, lines: seq<Line>): Option<Entries>
    decreases |lines|
  {
    if lines == [] then Some(root)
    else
      match lines[0]
      case Nothing => Build(root, at, lines[1..])
      case Header(path) =>
        if path == [] then None
        else
          var grown := Define(root, path[..|path| - 1], path[|path| - 1], Tab(End));
          if grown.None? then None else Build(grown.value, path, lines[1..])
      case Pair(key, value) =>
        var defined := Define(root, at, key, value);
        if defined.None? then None else Build(defined.value, at, lines[1..])
  }

  /**
   Every header names a table inside one that a header has opened, the root
   included: what a value in braces defines is closed.
   */
  predicate InsideOpened(lines: seq<Line>, tables: set<seq<string>>)
    decreases |lines|
  {
    lines != [] ==>
      if !lines[0].Header? then InsideOpened(lines[1..], tables)
      else
        var path := lines[0].path;
        path != [] && path[..|path| - 1] in tables && InsideOpened(lines[1..], tables + {path})
  }

  function ReadDocument(text: string): Option<Entries> {
    var lines := ReadLines(text);
    if lines.None? || !InsideOpened(lines.value, {[]}) then None else Build(End, [], lines.value)
  }

  /** No header reaches into a table that was given as a value. */
  lemma InlineTablesAreClosed(key: string, value: Value, path: seq<string>, rest: seq<Line>)
    requires |path| >= 2 && path[0] == key
    ensures !InsideOpened([Pair(key, value), Header(path)] + rest, {[]})
  {
    var lines := [Pair(key, value), Header(path)] + rest;
    assert lines[1..][0] == Header(path) && path[..|path| - 1][0] == key;
  }
}
