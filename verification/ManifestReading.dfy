/** Every line `freeze` prints, read back. */
module ManifestReading {
  import opened Wrappers
  import opened TomlText
  import opened TomlReader
  import opened TomlValues
  import opened ProjectManifest
  import opened QuotedText

  // ── one line ──────────────────────────────────────────────────────────

  /** The line is read as `t` if `good`, and otherwise not at all, whatever the next lines are. */
  ghost predicate Says(line: string, t: Line, good: bool) {
    forall more :: ReadLine(line + "\n" + more) == if good then Got(t, "\n" + more) else Bad
  }

  /** The line is read as `t`. */
  ghost predicate Exact(line: string, t: Line) {
    Says(line, t, true)
  }

  /** The line cannot be read, or gives its key another value, whatever the next lines are. */
  ghost predicate Strays(line: string, t: Line) {
    forall more | Shut(more) :: StraysBefore(line, t, more)
  }

  predicate StraysBefore(line: string, t: Line, more: string) {
    var r := ReadLine(line + "\n" + more);
    r.Bad? || (t.Pair? && r.value.Pair? && r.value.key == t.key && r.value.value != t.value)
  }

  lemma NewlineEnds(more: string)
    ensures LineEnd("\n" + more) == Some("\n" + more)
  {
  }

  // ── pairs ─────────────────────────────────────────────────────────────

  lemma KeyStarts(key: string, rest: string)
    ensures var s := KeyText(key) + rest; s != "" && !Blank(s[0]) && s[0] != '#' && s[0] != '[' && s[0] != '\n'
  {
    ReadsKey(key, "");
    hide KeyText;
    assert (KeyText(key) + rest)[0] == KeyText(key)[0];
  }

  /** A line that starts with a key is a pair. */
  lemma PlainLine(s: string)
    requires s != "" && !Blank(s[0]) && s[0] != '#' && s[0] != '[' && s[0] != '\n'
    ensures ReadLine(s) ==
      var pair := ReadPair(s); if pair.Bad? then Bad else ToLineEnd(Pair(pair.value.0, pair.value.1), pair.rest)
  {
    hide ReadPair;
  }

  /** A `key = value` line is read back exactly when its strings are inside the BMP. */
  lemma ReadsPairLine(key: string, value: Value)
    requires Distinct(value)
    ensures Says(PairLine(key, value), Pair(key, value), BmpText(key) && Readable(value))
  {
    hide KeyText, Text, ReadPair, ReadLine, BmpText, Readable, Distinct;
    forall more
      ensures ReadLine(PairLine(key, value) + "\n" + more) == if BmpText(key) && Readable(value) then Got(Pair(key, value), "\n" + more) else Bad
    {
      var after := " = " + Text(value) + ("\n" + more);
      assert PairLine(key, value) + "\n" + more == KeyText(key) + after;
      KeyStarts(key, after);
      PlainLine(KeyText(key) + after);
      ReadsPair(key, value, "\n" + more);
      assert KeyText(key) + " = " + Text(value) + ("\n" + more) == KeyText(key) + after;
      NewlineEnds(more);
    }
  }

  lemma PairLineShut(key: string, value: Value)
    ensures Shut(PairLine(key, value))
  {
    hide KeyText, Text;
    KeyLoose(key);
    LooseThen(KeyText(key), ' ', "= " + Text(value));
    assert KeyText(key) + [' '] + ("= " + Text(value)) == PairLine(key, value);
  }

  lemma BareIsBmp(key: string)
    requires Bare(key)
    ensures KeyText(key) == key && BmpText(key)
  {
    forall i | 0 <= i < |key| ensures Bmp(key[i]) { assert BareChar(key[i]); }
  }

  /** A line that starts with a plain key is a pair of it or cannot be read. */
  lemma FieldPlain(key: string, v: string)
    requires Bare(key) && v != "" && !Blank(v[0])
    ensures ReadPair(key + " = " + v) ==
      if ReadValue(v).Bad? then Bad else Got((key, ReadValue(v).value), ReadValue(v).rest)
    ensures ReadLine(key + " = " + v) ==
      if ReadValue(v).Bad? then Bad else ToLineEnd(Pair(key, ReadValue(v).value), ReadValue(v).rest)
  {
    hide ReadLine, ReadPair, ReadValue, KeyText, Bare, BmpText;
    BareIsBmp(key);
    KeyStarts(key, " = " + v);
    assert KeyText(key) + (" = " + v) == key + " = " + v;
    PlainLine(key + " = " + v);
    ReadsEquals(key, v);
  }

  // ── raw-quoted fields ─────────────────────────────────────────────────

  lemma NewlineShut(more: string)
    requires Shut(more)
    ensures Shut("\n" + more) && NoQuoteFirst("\n" + more)
  {
    assert ("\n" + more)[1..] == more;
  }

  /**
   A field printed between raw quotes is read back as itself if it needs no
   escape, and as something else or not at all if it does.
   */
  lemma ReadsRawLine(key: string, text: string)
    requires Bare(key)
    ensures var t := Pair(key, Str(text));
      if RawText(text) then Exact(RawLine(key, text), t) else Strays(RawLine(key, text), t)
  {
    hide ReadLine, ReadPair, ReadValue, RawText, Bare, Shut;
    forall more ensures RawText(text) ==> ReadLine(RawLine(key, text) + "\n" + more) == Got(Pair(key, Str(text)), "\n" + more) {
      RawLineValue(key, text, more);
      if RawText(text) {
        ReadsQuoted(text, "\n" + more);
        NewlineEnds(more);
      }
    }
    forall more | Shut(more) ensures !RawText(text) ==> StraysBefore(RawLine(key, text), Pair(key, Str(text)), more) {
      RawLineValue(key, text, more);
      NewlineShut(more);
      var v := ReadValue(Quoted(text, "\n" + more));
      if v.Got? && v.value == Str(text) { QuotedBack(text, "\n" + more); }
    }
  }

  lemma RawLineValue(key: string, text: string, more: string)
    requires Bare(key)
    ensures ReadLine(RawLine(key, text) + "\n" + more) ==
      var v := ReadValue(Quoted(text, "\n" + more));
      if v.Bad? then Bad else ToLineEnd(Pair(key, v.value), v.rest)
  {
    hide ReadLine, ReadPair, ReadValue, Bare;
    FieldPlain(key, Quoted(text, "\n" + more));
    assert RawLine(key, text) + "\n" + more == key + " = " + Quoted(text, "\n" + more);
  }

  lemma RawLineShut(key: string, text: string)
    requires Bare(key)
    ensures Shut(RawLine(key, text))
  {
    BareIsBmp(key);
    KeyLoose(key);
    hide Bare, KeyText;
    LooseThen(key, ' ', "= \"" + text + "\"");
    assert key + [' '] + ("= \"" + text + "\"") == RawLine(key, text);
  }

  // ── headers ───────────────────────────────────────────────────────────

  function PathText(path: seq<string>): string {
    if path == [] then ""
    else if |path| == 1 then KeyText(path[0])
    else KeyText(path[0]) + "." + PathText(path[1..])
  }

  predicate BmpPath(path: seq<string>) {
    forall i | 0 <= i < |path| :: BmpText(path[i])
  }

  lemma {:induction false} PathAppend(path: seq<string>, key: string)
    requires path != []
    ensures PathText(path + [key]) == PathText(path) + "." + KeyText(key)
  {
    hide KeyText;
    if |path| == 1 {
      assert (path + [key])[1..] == [key];
    } else {
      assert (path + [key])[1..] == path[1..] + [key];
      PathAppend(path[1..], key);
    }
  }

  /** One part of a dotted key, and the next ones. */
  lemma ReadsPart(key: string, more: string)
    requires more != "" && !Blank(more[0])
    ensures ReadPath(KeyText(key) + ("." + more)) ==
      if !BmpText(key) || ReadPath(more).Bad? then Bad else Got([key] + ReadPath(more).value, ReadPath(more).rest)
  {
    hide KeyText, BmpText, ReadKey;
    ReadsKey(key, "." + more);
    assert ("." + more)[1..] == more && SkipWs(more) == more;
  }

  lemma ReadsLastPart(key: string, rest: string)
    ensures ReadPath(KeyText(key) + ("]" + rest)) == if BmpText(key) then Got([key], rest) else Bad
    ensures KeyText(key) != "" && !Blank(KeyText(key)[0])
  {
    hide KeyText, BmpText, ReadKey;
    ReadsKey(key, "]" + rest);
    assert ("]" + rest)[1..] == rest;
  }

  lemma {:induction false} ReadsPath(path: seq<string>, rest: string)
    requires path != []
    ensures ReadPath(PathText(path) + "]" + rest) == if BmpPath(path) then Got(path, rest) else Bad
    ensures PathText(path) != "" && !Blank(PathText(path)[0])
    decreases |path|
  {
    hide KeyText, BmpText, ReadPath;
    var k := path[0];
    ReadsLastPart(k, rest);
    if |path| == 1 {
      assert PathText(path) + "]" + rest == KeyText(k) + ("]" + rest);
      assert path == [k];
    } else {
      var more := PathText(path[1..]) + "]" + rest;
      ReadsPath(path[1..], rest);
      ReadsPart(k, more);
      assert PathText(path) + "]" + rest == KeyText(k) + ("." + more);
      assert path == [k] + path[1..];
      assert BmpPath(path) <==> BmpText(k) && BmpPath(path[1..]);
    }
  }

  /** A header is read back exactly when every part of its key is inside the BMP. */
  lemma ReadsHeader(path: seq<string>)
    requires path != []
    ensures Says("[" + PathText(path) + "]", Header(path), BmpPath(path))
  {
    hide ReadPath, BmpPath, PathText;
    forall more
      ensures ReadLine("[" + PathText(path) + "]" + "\n" + more) == if BmpPath(path) then Got(Header(path), "\n" + more) else Bad
    {
      ReadsPath(path, "\n" + more);
      var s := "[" + PathText(path) + "]" + "\n" + more;
      assert s[1..] == PathText(path) + "]" + ("\n" + more) && SkipWs(s[1..]) == s[1..];
      NewlineEnds(more);
    }
  }

  lemma {:induction false} PathLoose(path: seq<string>)
    ensures Loose(PathText(path))
    decreases |path|
  {
    hide KeyText, Loose;
    if path != [] {
      KeyLoose(path[0]);
      if |path| > 1 {
        PathLoose(path[1..]);
        LooseBoth(KeyText(path[0]), '.', PathText(path[1..]));
      }
    } else {
      NothingLoose();
    }
  }

  lemma NothingLoose()
    ensures Loose("")
  {
  }

  lemma HeaderShut(path: seq<string>)
    ensures Shut("[" + PathText(path) + "]")
  {
    hide PathText;
    PathLoose(path);
    LooseBoth("", '[', PathText(path));
    LooseBoth("[" + PathText(path), ']', "");
    assert "" + ['['] + PathText(path) == "[" + PathText(path);
    assert "[" + PathText(path) + [']'] + "" == "[" + PathText(path) + "]";
    LooseShut("[" + PathText(path) + "]");
  }

  // ── pins ──────────────────────────────────────────────────────────────

  /** What `freeze` relies on: the id needs no quotes, and the fields no escapes. */
  predicate PlainPin(p: Pin) {
    Bare(p.id) && RawText(p.url) && RawText(p.ref) && RawText(p.sha)
  }

  function PinTable(p: Pin): Value {
    Tab(PinEntry(p))
  }

  function PinEntry(p: Pin): Entries {
    Entry("url", Str(p.url), Entry("ref", Str(p.ref), Entry("sha", Str(p.sha), End)))
  }

  /** The fields of a pin, its brace already read, and what follows its line. */
  function PinFields(p: Pin, more: string): string {
    Field("url", p.url, ", " + PinRest(p, more))
  }

  function PinRest(p: Pin, more: string): string {
    Field("ref", p.ref, ", " + PinLast(p, more))
  }

  function PinLast(p: Pin, more: string): string {
    Field("sha", p.sha, " }\n" + more)
  }

  function Field(key: string, text: string, tail: string): string {
    key + " = " + Quoted(text, tail)
  }

  lemma Comma(head: string, field: string, next: string)
    ensures head + field + ", " + next == head + (field + (", " + next))
  {
  }

  lemma BraceAndLine(head: string, field: string, more: string)
    ensures head + field + " }" + "\n" + more == head + (field + (" }\n" + more))
  {
    assert " }" + "\n" + more == " }\n" + more;
  }

  lemma FieldIs(key: string, text: string, tail: string)
    ensures RawLine(key, text) + tail == Field(key, text, tail)
  {
  }

  lemma PinLineIs(p: Pin, more: string)
    ensures PinLine(p) + "\n" + more == p.id + " = " + ("{ " + PinFields(p, more))
  {
    FieldIs("sha", p.sha, " }\n" + more);
    FieldIs("ref", p.ref, ", " + PinLast(p, more));
    FieldIs("url", p.url, ", " + PinRest(p, more));
    hide RawLine, Field;
    var head := p.id + " = { ";
    var second := head + RawLine("url", p.url) + ", ";
    var third := second + RawLine("ref", p.ref) + ", ";
    BraceAndLine(third, RawLine("sha", p.sha), more);
    Comma(second, RawLine("ref", p.ref), PinLast(p, more));
    Comma(head, RawLine("url", p.url), PinRest(p, more));
    BraceOpens(p.id, PinFields(p, more));
  }

  lemma BraceOpens(id: string, fields: string)
    ensures id + " = { " + fields == id + " = " + ("{ " + fields)
  {
  }

  lemma FieldNames()
    ensures Bare("url") && Bare("ref") && Bare("sha")
    ensures "url" != "ref" && "url" != "sha" && "ref" != "sha"
  {
    assert "url"[0] != "ref"[0] && "url"[0] != "sha"[0] && "ref"[0] != "sha"[0];
  }

  lemma FieldStarts(key: string, text: string, tail: string)
    requires Bare(key)
    ensures Field(key, text, tail) != "" && !Blank(Field(key, text, tail)[0]) && Field(key, text, tail)[0] != '}'
  {
    assert BareChar(key[0]) && Field(key, text, tail)[0] == key[0];
  }

  lemma FieldShut(key: string, text: string, tail: string)
    requires Bare(key)
    ensures Shut(", " + Field(key, text, tail)) && NoQuoteFirst(", " + Field(key, text, tail))
  {
    BareIsBmp(key);
    KeyLoose(key);
    hide Bare, KeyText;
    var v := "= " + Quoted(text, tail);
    LooseThen(key, ' ', v);
    var s := ", " + Field(key, text, tail);
    assert s[1..][1..] == key + [' '] + v;
  }

  /** One field, and the fields after it. */
  lemma FieldPair(key: string, text: string, tail: string)
    requires Bare(key)
    ensures ReadPair(Field(key, text, tail)) ==
      var v := ReadValue(Quoted(text, tail)); if v.Bad? then Bad else Got((key, v.value), v.rest)
  {
    hide ReadLine, ReadPair, ReadValue, Bare;
    FieldPlain(key, Quoted(text, tail));
  }

  /** The table of a field and the ones after it. */
  lemma ReadsFields(key: string, text: string, next: string, e: Entries, rest: string)
    requires Bare(key) && RawText(text) && next != "" && !Blank(next[0])
    requires ReadPairs(next) == Got(e, rest) && key !in Keys(e)
    ensures ReadPairs(Field(key, text, ", " + next)) == Got(Entry(key, Str(text), e), rest)
  {
    hide ReadPair, ReadPairs, ReadValue, RawText, Bare, Field;
    FieldPair(key, text, ", " + next);
    ReadsQuoted(text, ", " + next);
    assert [','] + " " + next == ", " + next;
    MorePairs(Field(key, text, ", " + next), (key, Str(text)), next);
  }

  lemma ReadsLastField(key: string, text: string, more: string)
    requires Bare(key) && RawText(text)
    ensures ReadPairs(Field(key, text, " }" + more)) == Got(Entry(key, Str(text), End), more)
  {
    hide ReadPair, ReadPairs, ReadValue, RawText, Bare, Field;
    FieldPair(key, text, " }" + more);
    ReadsQuoted(text, " }" + more);
    LastPair(Field(key, text, " }" + more), (key, Str(text)), more);
  }

  lemma ReadsPinFields(p: Pin, more: string)
    requires PlainPin(p)
    ensures ReadPairs(PinFields(p, more)) == Got(PinEntry(p), "\n" + more)
  {
    hide ReadPairs, Field, RawText, Bare;
    FieldNames();
    assert " }" + ("\n" + more) == " }\n" + more;
    ReadsLastField("sha", p.sha, "\n" + more);
    FieldStarts("sha", p.sha, " }\n" + more);
    var last := Entry("sha", Str(p.sha), End);
    assert Keys(last) == {"sha"};
    ReadsFields("ref", p.ref, PinLast(p, more), last, "\n" + more);
    FieldStarts("ref", p.ref, ", " + PinLast(p, more));
    assert Keys(Entry("ref", Str(p.ref), last)) == {"ref", "sha"};
    ReadsFields("url", p.url, PinRest(p, more), Entry("ref", Str(p.ref), last), "\n" + more);
  }

  /** `ReadPairs` that got more than one pair. */
  lemma PairsBack(s: string, e: Entries, rest: string)
    requires ReadPairs(s) == Got(e, rest)
    ensures e.Entry? && ReadPair(s).Got? && ReadPair(s).value == (e.key, e.value)
    ensures e.rest.Entry? ==>
      var after := SkipWs(ReadPair(s).rest);
      after != "" && after[0] == ',' && ReadPairs(SkipWs(after[1..])) == Got(e.rest, rest)
  {
    hide ReadPair;
  }

  /** A field read back as itself needed no escape, and the next ones stand behind it. */
  lemma FieldBack(key: string, text: string, tail: string, e: Entries, rest: string)
    requires Bare(key) && Shut(tail) && NoQuoteFirst(tail)
    requires ReadPairs(Field(key, text, tail)) == Got(Entry(key, Str(text), e), rest)
    ensures RawText(text)
    ensures e.Entry? ==> var after := SkipWs(tail); after != "" && ReadPairs(SkipWs(after[1..])) == Got(e, rest)
  {
    hide ReadPair, ReadPairs, ReadValue, Field, Shut, RawText, Bare;
    PairsBack(Field(key, text, tail), Entry(key, Str(text), e), rest);
    FieldPair(key, text, tail);
    QuotedBack(text, tail);
  }

  lemma NextField(key: string, text: string, next: string, e: Entries, rest: string)
    requires Bare(key) && Shut(", " + next) && next != "" && !Blank(next[0])
    requires ReadPairs(Field(key, text, ", " + next)) == Got(Entry(key, Str(text), e), rest) && e.Entry?
    ensures RawText(text) && ReadPairs(next) == Got(e, rest)
  {
    hide ReadPairs, Field, Shut, RawText, Bare;
    FieldBack(key, text, ", " + next, e, rest);
    assert [','] + " " + next == ", " + next;
    AfterSpace(',', next);
  }

  /** A pin that is read back as itself needed no escape. */
  lemma PinBack(p: Pin, more: string, rest: string)
    requires Shut(more) && ReadPairs(PinFields(p, more)) == Got(PinEntry(p), rest)
    ensures RawText(p.url) && RawText(p.ref) && RawText(p.sha)
  {
    hide ReadPairs, Field, RawText, Shut, Bare;
    FieldNames();
    var last := Entry("sha", Str(p.sha), End);
    FieldStarts("ref", p.ref, ", " + PinLast(p, more));
    FieldStarts("sha", p.sha, " }\n" + more);
    FieldShut("ref", p.ref, ", " + PinLast(p, more));
    FieldShut("sha", p.sha, " }\n" + more);
    BraceShut(more);
    NextField("url", p.url, PinRest(p, more), Entry("ref", Str(p.ref), last), rest);
    NextField("ref", p.ref, PinLast(p, more), last, rest);
    FieldBack("sha", p.sha, " }\n" + more, End, rest);
  }

  lemma BraceShut(more: string)
    requires Shut(more)
    ensures Shut(" }\n" + more)
  {
    var s := " }\n" + more;
    assert s[1..][1..][1..] == more;
  }

  /** The value a brace opens. */
  lemma ValueOfFields(fields: string)
    requires fields != "" && !Blank(fields[0]) && fields[0] != '}'
    ensures ReadValue("{ " + fields) ==
      if ReadPairs(fields).Bad? then Bad else Got(Tab(ReadPairs(fields).value), ReadPairs(fields).rest)
  {
    hide ReadPairs;
    AfterSpace('{', fields);
    assert "{ " + fields == ['{'] + " " + fields;
  }

  lemma PinLineValue(p: Pin, more: string)
    requires Bare(p.id)
    ensures ReadLine(PinLine(p) + "\n" + more) ==
      var v := ReadPairs(PinFields(p, more));
      if v.Bad? then Bad else ToLineEnd(Pair(p.id, Tab(v.value)), v.rest)
  {
    hide ReadLine, ReadPair, ReadPairs, ReadValue, Bare, Field;
    PinLineIs(p, more);
    FieldNames();
    FieldStarts("url", p.url, ", " + PinRest(p, more));
    ValueOfFields(PinFields(p, more));
    FieldPlain(p.id, "{ " + PinFields(p, more));
  }

  /** A pin's line is read back as its pin if its fields need no escapes, and as something else or not at all if one does. */
  lemma ReadsPinLine(p: Pin)
    requires Bare(p.id)
    ensures var t := Pair(p.id, PinTable(p));
      if PlainPin(p) then Exact(PinLine(p), t) else Strays(PinLine(p), t)
  {
    hide ReadLine, ReadPairs, PinFields, PinLine, RawText, Bare, Shut;
    forall more ensures PlainPin(p) ==> ReadLine(PinLine(p) + "\n" + more) == Got(Pair(p.id, PinTable(p)), "\n" + more) {
      PinLineValue(p, more);
      if PlainPin(p) {
        ReadsPinFields(p, more);
        NewlineEnds(more);
      }
    }
    forall more | Shut(more) ensures !PlainPin(p) ==> StraysBefore(PinLine(p), Pair(p.id, PinTable(p)), more) {
      PinLineValue(p, more);
      var v := ReadPairs(PinFields(p, more));
      if v.Got? && v.value == PinEntry(p) { PinBack(p, more, v.rest); }
    }
  }

  lemma PinLineShut(p: Pin)
    requires Bare(p.id)
    ensures Shut(PinLine(p))
  {
    hide Shut, RawLine, Bare;
    var head := p.id + " = { ";
    HeadShut(p.id);
    var url, ref, sha := RawLine("url", p.url), RawLine("ref", p.ref), RawLine("sha", p.sha);
    ShutMore(head, url);
    ShutMore(head + url, ", ");
    ShutMore(head + url + ", ", ref);
    ShutMore(head + url + ", " + ref, ", ");
    ShutMore(head + url + ", " + ref + ", ", sha);
    ShutMore(head + url + ", " + ref + ", " + sha, " }");
  }

  lemma HeadShut(id: string)
    requires Bare(id)
    ensures Shut(id + " = { ") && '=' in id + " = { "
  {
    BareIsBmp(id);
    KeyLoose(id);
    hide Bare, KeyText;
    LooseThen(id, ' ', "= { ");
    assert id + [' '] + "= { " == id + " = { ";
    assert (id + " = { ")[|id| + 1] == '=';
  }
}
