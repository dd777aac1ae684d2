/**
 TOML values as `tomllib` returns them, and how `_toml_key` and `_toml_value`
 of `scripts/project.py` print them. A table keeps its document order.
 */
module TomlText {
  datatype Value =
    | Str(text: string)
    | Int(number: int)
    | Bool(flag: bool)
    | Arr(items: Values)
    | Tab(entries: Entries)

  datatype Values = NoMore | More(head: Value, tail: Values)

  datatype Entries = End | Entry(key: string, value: Value, rest: Entries)

  function Keys(e: Entries): set<string> {
    if e.End? then {} else {e.key} + Keys(e.rest)
  }

  function Get(e: Entries, key: string): Value
    requires key in Keys(e)
  {
    if e.key == key then e.value else Get(e.rest, key)
  }

  /** `key` set in place, or added at the end. */
  function Put(e: Entries, key: string, value: Value): Entries {
    if e.End? then Entry(key, value, End)
    else if e.key == key then Entry(key, value, e.rest)
    else Entry(e.key, e.value, Put(e.rest, key, value))
  }

  function Concat(a: Entries, b: Entries): Entries {
    if a.End? then b else Entry(a.key, a.value, Concat(a.rest, b))
  }

  /** A dict has each key once, at every depth. */
  predicate Distinct(v: Value) {
    match v
    case Arr(items) => DistinctItems(items)
    case Tab(entries) => DistinctEntries(entries)
    case _ => true
  }

  predicate DistinctItems(vs: Values) {
    vs.More? ==> Distinct(vs.head) && DistinctItems(vs.tail)
  }

  predicate DistinctEntries(e: Entries) {
    e.Entry? ==> e.key !in Keys(e.rest) && Distinct(e.value) && DistinctEntries(e.rest)
  }

  // ── strings, as json.dumps prints them ────────────────────────────────

  predicate Bmp(c: char) {
    c as int < 0x10000
  }

  predicate BmpText(s: string) {
    forall i | 0 <= i < |s| :: Bmp(s[i])
  }

  function HexDigit(n: nat): char
    requires n < 16
  {
    "0123456789abcdef"[n]
  }

  function Hex4(n: nat): string
    requires n < 0x10000
  {
    [HexDigit(n / 0x1000), HexDigit(n / 0x100 % 16), HexDigit(n / 16 % 16), HexDigit(n % 16)]
  }

  const BACKSPACE: char := 8 as char
  const FORM_FEED: char := 12 as char
  const DEL: char := 0x7f as char

  /** One character: the ASCII escapes, and a surrogate pair beyond the BMP. */
  function Escape(c: char): string {
    if c == '"' then "\\\""
    else if c == '\\' then "\\\\"
    else if c == '\n' then "\\n"
    else if c == '\r' then "\\r"
    else if c == '\t' then "\\t"
    else if c == BACKSPACE then "\\b"
    else if c == FORM_FEED then "\\f"
    else if ' ' <= c <= '~' then [c]
    else if Bmp(c) then "\\u" + Hex4(c as int)
    else
      var n := c as int - 0x10000;
      "\\u" + Hex4(0xD800 + n / 0x400) + "\\u" + Hex4(0xDC00 + n % 0x400)
  }

  /** The escapes JSON has a letter for, and one it writes as a number. */
  lemma JsonEscapes()
    ensures Escape(8 as char) == "\\b" && Escape(9 as char) == "\\t" && Escape(10 as char) == "\\n"
    ensures Escape(12 as char) == "\\f" && Escape(13 as char) == "\\r"
    ensures Escape(34 as char) == "\\\"" && Escape(92 as char) == "\\\\"
    ensures Escape(0x1f as char) == "\\u001f"
  {
    assert Hex4(0x1f) == "001f";
  }

  function Escaped(s: string): string {
    if s == "" then "" else Escape(s[0]) + Escaped(s[1..])
  }

  function Dumps(s: string): string {
    "\"" + Escaped(s) + "\""
  }

  /** `.replace("\x7f", "\\u007f")` */
  function ReplaceDel(s: string): string {
    if s == "" then "" else (if s[0] == DEL then "\\u007f" else [s[0]]) + ReplaceDel(s[1..])
  }

  lemma DelReplaced()
    ensures ReplaceDel([0x7f as char]) == "\\u007f"
  {
  }

  // ── numbers ───────────────────────────────────────────────────────────

  function Digit(n: nat): char
    requires n < 10
  {
    "0123456789"[n]
  }

  function Digits(n: nat): string {
    if n < 10 then [Digit(n)] else Digits(n / 10) + [Digit(n % 10)]
  }

  function Repr(n: int): string {
    if n < 0 then "-" + Digits(-n) else Digits(n)
  }

  // ── keys and values ───────────────────────────────────────────────────

  predicate BareChar(c: char) {
    '0' <= c <= '9' || 'a' <= c <= 'z' || 'A' <= c <= 'Z' || c == '-' || c == '_'
  }

  predicate Bare(key: string) {
    key != "" && forall i | 0 <= i < |key| :: BareChar(key[i])
  }

  /** `_toml_key` */
  function KeyText(key: string): string {
    if Bare(key) then key else Dumps(key)
  }

  /** A key is printed bare exactly where TOML lets it be: ASCII letters and digits, `_` and `-`, and at least one of them. */
  lemma BareIff(key: string)
    ensures var bare := key != "" && forall i | 0 <= i < |key| ::
          var code := key[i] as int; 48 <= code <= 57 || 65 <= code <= 90 || 97 <= code <= 122 || code == 95 || code == 45;
      && KeyText(key) != "" && (KeyText(key)[0] == '"' <==> !bare) && (bare ==> KeyText(key) == key)
  {
    if !Bare(key) { assert Dumps(key)[0] == '"'; }
  }

  /** `_toml_value` */
  function Text(v: Value): string {
    match v
    case Bool(flag) => if flag then "true" else "false"
    case Str(text) => ReplaceDel(Dumps(text))
    case Int(number) => Repr(number)
    case Arr(items) => "[" + ItemsText(items) + "]"
    case Tab(entries) => if entries.End? then "{}" else "{ " + PairsText(entries) + " }"
  }

  /** `", ".join(...)` over a list */
  function ItemsText(vs: Values): string {
    if vs.NoMore? then "" else Text(vs.head) + (if vs.tail.NoMore? then "" else ", " + ItemsText(vs.tail))
  }

  /** `", ".join(...)` over a dict */
  function PairsText(e: Entries): string {
    if e.End? then ""
    else KeyText(e.key) + " = " + Text(e.value) + (if e.rest.End? then "" else ", " + PairsText(e.rest))
  }

  // ── what the reader can get back ──────────────────────────────────────

  /** Keys that need quoting, and string values, inside the BMP at every depth. */
  predicate Readable(v: Value) {
    match v
    case Str(text) => BmpText(text)
    case Arr(items) => ReadableItems(items)
    case Tab(entries) => ReadableEntries(entries)
    case _ => true
  }

  predicate ReadableItems(vs: Values) {
    vs.More? ==> Readable(vs.head) && ReadableItems(vs.tail)
  }

  predicate ReadableEntries(e: Entries) {
    e.Entry? ==> BmpText(e.key) && Readable(e.value) && ReadableEntries(e.rest)
  }
}
