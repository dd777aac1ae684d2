/** `cdui project freeze` writes a manifest that reads back as what it was told to write. */
module ManifestRoundTrip {
  import opened Wrappers
  import opened Sequences
  import opened TomlText
  import opened TomlReader
  import opened TomlValues
  import opened ProjectManifest
  import opened QuotedText
  import opened ManifestReading
  import opened ManifestNormal

  // ── the lines of a table, read ────────────────────────────────────────

  function PairTokens(e: Entries): seq<Line> {
    if e.End? then [] else [Pair(e.key, e.value)] + PairTokens(e.rest)
  }

  function SectionTokens(path: seq<string>, e: Entries): seq<Line> {
    [Header(path)] + PairTokens(e) + [Nothing]
  }

  function TableTokens(path: seq<string>, t: Entries): seq<Line>
    decreases t, 1
  {
    SectionTokens(path, Scalars(t)) + SubtableTokens(path, t)
  }

  function SubtableTokens(path: seq<string>, t: Entries): seq<Line>
    decreases t, 0
  {
    if t.End? then []
    else if t.value.Tab? then TableTokens(path + [t.key], t.value.entries) + SubtableTokens(path, t.rest)
    else SubtableTokens(path, t.rest)
  }

  function Before(tokens: seq<Line>, rest: Option<seq<Line>>): Option<seq<Line>> {
    if rest.None? then None else Some(tokens + rest.value)
  }

  /** `lines` are read as `tokens` if `good`, and otherwise not at all, whatever follows them. */
  ghost predicate Reads(lines: seq<string>, tokens: seq<Line>, good: bool) {
    forall more :: ReadLines(Join(lines) + more) == if good then Before(tokens, ReadLines(more)) else None
  }

  lemma {:induction false} JoinConcat(a: seq<string>, b: seq<string>)
    ensures Join(a + b) == Join(a) + Join(b)
  {
    if a == [] {
      assert a + b == b;
    } else {
      assert (a + b)[1..] == a[1..] + b;
      JoinConcat(a[1..], b);
    }
  }

  lemma ReadsBoth(a: seq<string>, s: seq<Line>, p: bool, b: seq<string>, t: seq<Line>, q: bool)
    requires Reads(a, s, p) && Reads(b, t, q)
    ensures Reads(a + b, s + t, p && q)
  {
    hide ReadLines;
    JoinConcat(a, b);
    forall more ensures ReadLines(Join(a + b) + more) == if p && q then Before(s + t, ReadLines(more)) else None {
      assert Join(a + b) + more == Join(a) + (Join(b) + more);
      if ReadLines(more).Some? { Associative(s, t, ReadLines(more).value); }
    }
  }

  lemma ReadsOne(line: string, token: Line, good: bool)
    requires Says(line, token, good)
    ensures Reads([line], [token], good)
  {
    hide ReadLine;
    assert Join([line][1..]) == "";
    forall more ensures ReadLines(Join([line]) + more) == if good then Before([token], ReadLines(more)) else None {
      assert Join([line]) + more == line + "\n" + more;
      assert ("\n" + more)[1..] == more;
    }
  }

  lemma ReadsBlank()
    ensures Reads([""], [Nothing], true)
  {
    BlankSays();
    ReadsOne("", Nothing, true);
  }

  lemma BlankSays()
    ensures Exact("", Nothing)
  {
    hide ReadPath, ReadPair;
    forall more ensures ReadLine("" + "\n" + more) == Got(Nothing, "\n" + more) {
      assert "" + "\n" + more == "\n" + more;
      NewlineEnds(more);
    }
  }

  lemma ReadsNone()
    ensures Reads([], [], true)
  {
    hide ReadLines;
    forall more ensures ReadLines(Join([]) + more) == Before([], ReadLines(more)) {
      assert Join([]) + more == more;
      if ReadLines(more).Some? { assert [] + ReadLines(more).value == ReadLines(more).value; }
    }
  }

  lemma {:induction false} ReadsPairs(e: Entries)
    requires DistinctEntries(e)
    ensures Reads(PairLines(e), PairTokens(e), ReadableEntries(e))
  {
    hide Reads, PairLine, BmpText, Readable;
    if e.End? {
      ReadsNone();
    } else {
      ReadsPairLine(e.key, e.value);
      ReadsOne(PairLine(e.key, e.value), Pair(e.key, e.value), BmpText(e.key) && Readable(e.value));
      ReadsPairs(e.rest);
      ReadsBoth([PairLine(e.key, e.value)], [Pair(e.key, e.value)], BmpText(e.key) && Readable(e.value),
                PairLines(e.rest), PairTokens(e.rest), ReadableEntries(e.rest));
    }
  }

  /** The tables of `t` can be read. */
  predicate ReadableTables(t: Entries) {
    t.Entry? ==> (t.value.Tab? ==> BmpText(t.key) && ReadableEntries(t.value.entries)) && ReadableTables(t.rest)
  }

  lemma ReadableSplit(t: Entries)
    ensures ReadableEntries(t) <==> ReadableEntries(Scalars(t)) && ReadableTables(t)
  {
  }

  lemma BmpPathAppend(path: seq<string>, key: string)
    ensures BmpPath(path + [key]) <==> BmpPath(path) && BmpText(key)
  {
    hide BmpText;
    if BmpPath(path + [key]) {
      assert (path + [key])[|path|] == key;
      forall i | 0 <= i < |path| ensures BmpText(path[i]) { assert (path + [key])[i] == path[i]; }
    }
  }

  lemma {:induction false} ReadsTable(path: seq<string>, t: Entries)
    requires path != [] && DistinctEntries(t)
    ensures Reads(TableLines(PathText(path), t), TableTokens(path, t), BmpPath(path) && ReadableEntries(t))
    decreases t, 1
  {
    hide Reads, PathText, BmpPath, PairLines, PairTokens, ReadableEntries, DistinctEntries, ReadableTables;
    FilteredDistinct(t, {});
    ReadsHeader(path);
    var header := "[" + PathText(path) + "]";
    ReadsOne(header, Header(path), BmpPath(path));
    ReadsPairs(Scalars(t));
    ReadsBlank();
    ReadsBoth([header], [Header(path)], BmpPath(path), PairLines(Scalars(t)), PairTokens(Scalars(t)), ReadableEntries(Scalars(t)));
    ReadsBoth([header] + PairLines(Scalars(t)), [Header(path)] + PairTokens(Scalars(t)),
              BmpPath(path) && ReadableEntries(Scalars(t)), [""], [Nothing], true);
    ReadsSubtables(path, t);
    ReadableSplit(t);
    ReadsBoth([header] + PairLines(Scalars(t)) + [""], SectionTokens(path, Scalars(t)),
              BmpPath(path) && ReadableEntries(Scalars(t)),
              SubtableLines(PathText(path), t), SubtableTokens(path, t), SubtablesGood(path, t));
    if BmpPath(path) { SubtablesOf(path, t); }
  }

  /** Whether the sections of the tables of `t` can be read. */
  predicate SubtablesGood(path: seq<string>, t: Entries) {
    t.Entry? ==> (t.value.Tab? ==> BmpPath(path) && BmpText(t.key) && ReadableEntries(t.value.entries)) && SubtablesGood(path, t.rest)
  }

  lemma SubtablesOf(path: seq<string>, t: Entries)
    requires BmpPath(path)
    ensures SubtablesGood(path, t) <==> ReadableTables(t)
  {
  }

  lemma {:induction false} ReadsSubtables(path: seq<string>, t: Entries)
    requires path != [] && DistinctEntries(t)
    ensures Reads(SubtableLines(PathText(path), t), SubtableTokens(path, t), SubtablesGood(path, t))
    decreases t, 0
  {
    hide Reads, PathText, BmpPath;
    if t.End? {
      ReadsNone();
    } else {
      ReadsSubtables(path, t.rest);
      if t.value.Tab? {
        PathAppend(path, t.key);
        BmpPathAppend(path, t.key);
        ReadsTable(path + [t.key], t.value.entries);
        ReadsBoth(TableLines(PathText(path + [t.key]), t.value.entries), TableTokens(path + [t.key], t.value.entries),
                  BmpPath(path + [t.key]) && ReadableEntries(t.value.entries),
                  SubtableLines(PathText(path), t.rest), SubtableTokens(path, t.rest), SubtablesGood(path, t.rest));
      }
    }
  }

  /** The user's own tables at the top level. */
  lemma {:induction false} ReadsExtras(e: Entries)
    requires DistinctEntries(e)
    ensures Reads(ExtraLines(e), SubtableTokens([], e), ReadableTables(e))
  {
    hide Reads, TableLines, TableTokens;
    if e.End? {
      ReadsNone();
    } else {
      ReadsExtras(e.rest);
      if e.value.Tab? {
        ReadsTable([e.key], e.value.entries);
        assert [] + [e.key] == [e.key];
        ReadsBoth(TableLines(KeyText(e.key), e.value.entries), TableTokens([e.key], e.value.entries),
                  BmpText(e.key) && ReadableEntries(e.value.entries),
                  ExtraLines(e.rest), SubtableTokens([], e.rest), ReadableTables(e.rest));
        assert BmpPath([e.key]) <==> BmpText(e.key);
      }
    }
  }

  // ── the managed sections, read ────────────────────────────────────────

  lemma TokensConcat(a: Entries, b: Entries)
    ensures PairTokens(Concat(a, b)) == PairTokens(a) + PairTokens(b)
  {
    if a.Entry? {
      TokensConcat(a.rest, b);
      Associative([Pair(a.key, a.value)], PairTokens(a.rest), PairTokens(b));
    }
  }

  /** Two stretches of pairs of one table. */
  lemma ReadsMore(lines: seq<string>, a: Entries, p: bool, more: seq<string>, b: Entries, q: bool)
    requires Reads(lines, PairTokens(a), p) && Reads(more, PairTokens(b), q)
    ensures Reads(lines + more, PairTokens(Concat(a, b)), p && q)
  {
    hide Reads;
    TokensConcat(a, b);
    ReadsBoth(lines, PairTokens(a), p, more, PairTokens(b), q);
  }

  lemma ReadsSection(name: string, pairs: seq<string>, e: Entries, good: bool)
    requires Bare(name) && Reads(pairs, PairTokens(e), good)
    ensures Reads(["[" + name + "]"] + pairs + [""], SectionTokens([name], e), good)
  {
    hide Reads, PairTokens;
    BareIsBmp(name);
    ReadsHeader([name]);
    ReadsOne("[" + name + "]", Header([name]), true);
    ReadsBoth(["[" + name + "]"], [Header([name])], true, pairs, PairTokens(e), good);
    ReadsBlank();
    ReadsBoth(["[" + name + "]"] + pairs, [Header([name])] + PairTokens(e), good, [""], [Nothing], true);
  }

  lemma ReadsRawField(key: string, text: string)
    requires Bare(key) && RawText(text)
    ensures Reads([RawLine(key, text)], PairTokens(Entry(key, Str(text), End)), true)
  {
    hide Reads, RawLine, Says;
    ReadsRawLine(key, text);
    assert [Pair(key, Str(text))] + [] == [Pair(key, Str(text))];
    ReadsOne(RawLine(key, text), Pair(key, Str(text)), true);
  }

  lemma ReadsOptional(e: Entries, key: string)
    requires Bare(key) && RawText(TextOf(e, key))
    ensures Reads(OptionalLine(e, key), PairTokens(Optional(e, key)), true)
  {
    hide Reads, RawLine;
    if TextOf(e, key) != "" { ReadsRawField(key, TextOf(e, key)); } else { ReadsNone(); }
  }

  lemma ReadsField(key: string, value: Value)
    requires Bare(key) && Distinct(value) && Readable(value)
    ensures Reads([PairLine(key, value)], PairTokens(Entry(key, value, End)), true)
  {
    hide Reads, PairLine, Says;
    BareIsBmp(key);
    ReadsPairLine(key, value);
    assert [Pair(key, value)] + [] == [Pair(key, value)];
    ReadsOne(PairLine(key, value), Pair(key, value), true);
  }

  predicate PlainPins(pins: seq<Pin>) {
    pins != [] ==> PlainPin(pins[0]) && PlainPins(pins[1..])
  }

  function Ids(pins: seq<Pin>): set<string> {
    if pins == [] then {} else {pins[0].id} + Ids(pins[1..])
  }

  /** The pins are a dict: each id once. */
  predicate DistinctPins(pins: seq<Pin>) {
    pins != [] ==> pins[0].id !in Ids(pins[1..]) && DistinctPins(pins[1..])
  }

  /** The raw-quoted fields of the manifest need no escapes. */
  ghost predicate RawManifest(m: Entries, pins: seq<Pin>) {
    && RawText(TextOf(TableOf(m, "project"), "name"))
    && RawText(TextOf(TableOf(m, "project"), "requires_codefyui"))
    && RawText(TextOf(TableOf(m, "publish"), "graph"))
    && RawText(TextOf(TableOf(m, "publish"), "slug"))
    && PlainPins(pins) && DistinctPins(pins)
  }

  predicate ReadableManifest(m: Entries) {
    && ReadableEntries(Extras(m))
    && ReadableEntries(Without(TableOf(m, "project"), PROJECT_KEYS))
    && ReadableEntries(Without(TableOf(m, "publish"), PUBLISH_KEYS))
  }

  /** Four stretches of pairs of one table, the last of them the user's. */
  lemma ReadsFour(k: seq<string>, a: Entries, l: seq<string>, b: Entries, m: seq<string>, c: Entries,
                  n: seq<string>, d: Entries, good: bool)
    requires Reads(k, PairTokens(a), true) && Reads(l, PairTokens(b), true) && Reads(m, PairTokens(c), true)
    requires Reads(n, PairTokens(d), good)
    ensures Reads(k + l + m + n, PairTokens(Concat(a, Concat(b, Concat(c, d)))), good)
  {
    hide Reads, PairTokens;
    ReadsMore(k, a, true, l, b, true);
    ReadsMore(k + l, Concat(a, b), true, m, c, true);
    ReadsMore(k + l + m, Concat(Concat(a, b), c), true, n, d, good);
    ConcatAssoc(Concat(a, b), c, d);
    ConcatAssoc(a, b, Concat(c, d));
  }

  lemma VersionLine(n: int)
    ensures Reads(["format_version = " + Repr(n)], PairTokens(Entry("format_version", Int(n), End)), true)
  {
    hide Reads, PairTokens;
    ReadsField("format_version", Int(n));
    BareIsBmp("format_version");
    assert "format_version" + " = " == "format_version = ";
  }

  lemma ReadsProject(p: Entries)
    requires DistinctEntries(p) && RawText(TextOf(p, "name")) && RawText(TextOf(p, "requires_codefyui"))
    ensures Reads(ProjectLines(p), SectionTokens(["project"], NormalProject(p)), ReadableEntries(Without(p, PROJECT_KEYS)))
  {
    hide Reads, PairTokens, SectionTokens, RawLine, PairLines, ReadableEntries, DistinctEntries, OptionalLine, Optional,
         Without, TextOf, FormatVersion, RawText;
    var others := Without(p, PROJECT_KEYS);
    ReadsRawField("name", TextOf(p, "name"));
    VersionLine(FormatVersion(p));
    ReadsOptional(p, "requires_codefyui");
    FilteredDistinct(p, PROJECT_KEYS);
    ReadsPairs(others);
    ReadsFour([RawLine("name", TextOf(p, "name"))], Entry("name", Str(TextOf(p, "name")), End),
              ["format_version = " + Repr(FormatVersion(p))], Entry("format_version", Int(FormatVersion(p)), End),
              OptionalLine(p, "requires_codefyui"), Optional(p, "requires_codefyui"),
              PairLines(others), others, ReadableEntries(others));
    ReadsSection("project", ProjectPairs(p), NormalProject(p), ReadableEntries(others));
    assert "[" + "project" + "]" == "[project]";
  }

  lemma ReadsRecordIo(p: Entries)
    ensures Reads(RecordIoLine(p), PairTokens(RecordIo(p)), true)
  {
    hide Reads;
    if "record_io" in Keys(p) {
      var flag := Truthy(Get(p, "record_io"));
      ReadsField("record_io", Bool(flag));
      BareIsBmp("record_io");
      assert "record_io" + " = " == "record_io = ";
    } else {
      ReadsNone();
    }
  }

  function PublishTokens(p: Entries): seq<Line> {
    if p.End? then [] else SectionTokens(["publish"], NormalPublish(p))
  }

  lemma ReadsPublish(p: Entries)
    requires DistinctEntries(p) && RawText(TextOf(p, "graph")) && RawText(TextOf(p, "slug"))
    ensures Reads(PublishLines(p), PublishTokens(p), ReadableEntries(Without(p, PUBLISH_KEYS)))
  {
    hide Reads, PairTokens, SectionTokens, PairLines, ReadableEntries, DistinctEntries, OptionalLine, Optional,
         Without, TextOf, RawText, RecordIoLine, RecordIo;
    var others := Without(p, PUBLISH_KEYS);
    if p.End? {
      ReadsNone();
      NothingReadable(PUBLISH_KEYS);
    } else {
      ReadsOptional(p, "graph");
      ReadsOptional(p, "slug");
      ReadsRecordIo(p);
      FilteredDistinct(p, PUBLISH_KEYS);
      ReadsPairs(others);
      ReadsFour(OptionalLine(p, "graph"), Optional(p, "graph"), OptionalLine(p, "slug"), Optional(p, "slug"),
                RecordIoLine(p), RecordIo(p), PairLines(others), others, ReadableEntries(others));
      ReadsSection("publish", PublishPairs(p), NormalPublish(p), ReadableEntries(others));
      assert "[" + "publish" + "]" == "[publish]";
    }
  }

  lemma NothingReadable(names: set<string>)
    ensures ReadableEntries(Without(End, names))
  {
  }

  lemma {:induction false} ReadsPins(pins: seq<Pin>)
    requires PlainPins(pins)
    ensures Reads(PinLines(pins), PairTokens(PinEntries(pins)), true)
  {
    hide Reads, PinLine, RawText, PinTable, Says;
    if pins == [] {
      ReadsNone();
    } else {
      ReadsPinLine(pins[0]);
      ReadsOne(PinLine(pins[0]), Pair(pins[0].id, PinTable(pins[0])), true);
      ReadsPins(pins[1..]);
      ReadsBoth([PinLine(pins[0])], [Pair(pins[0].id, PinTable(pins[0]))], true,
                PinLines(pins[1..]), PairTokens(PinEntries(pins[1..])), true);
    }
  }

  function PluginTokens(pins: seq<Pin>): seq<Line> {
    [Header(["plugins"]), Nothing] + PairTokens(PinEntries(SortPins(pins))) + [Nothing]
  }

  lemma ReadsPluginsHead()
    ensures Reads(["[plugins]", PLUGINS_COMMENT], [Header(["plugins"]), Nothing], true)
  {
    hide Reads, Says, PLUGINS_COMMENT;
    ReadsHeader(["plugins"]);
    assert BmpPath(["plugins"]);
    assert PathText(["plugins"]) == "plugins" && "[" + "plugins" + "]" == "[plugins]";
    ReadsOne("[plugins]", Header(["plugins"]), true);
    CommentIsNothing();
    ReadsOne(PLUGINS_COMMENT, Nothing, true);
    ReadsBoth(["[plugins]"], [Header(["plugins"])], true, [PLUGINS_COMMENT], [Nothing], true);
    assert ["[plugins]"] + [PLUGINS_COMMENT] == ["[plugins]", PLUGINS_COMMENT];
    assert [Header(["plugins"])] + [Nothing] == [Header(["plugins"]), Nothing];
  }

  lemma ReadsPlugins(pins: seq<Pin>)
    requires PlainPins(SortPins(pins))
    ensures Reads(PluginLines(pins), PluginTokens(pins), true)
  {
    hide Reads, PairTokens, PinEntries, SortPins, PinLines, PlainPins;
    ReadsPluginsHead();
    ReadsPins(SortPins(pins));
    ReadsBoth(["[plugins]", PLUGINS_COMMENT], [Header(["plugins"]), Nothing], true,
              PinLines(SortPins(pins)), PairTokens(PinEntries(SortPins(pins))), true);
    ReadsBlank();
    ReadsBoth(["[plugins]", PLUGINS_COMMENT] + PinLines(SortPins(pins)),
              [Header(["plugins"]), Nothing] + PairTokens(PinEntries(SortPins(pins))), true, [""], [Nothing], true);
  }

  lemma CommentIsNothing()
    ensures Exact(PLUGINS_COMMENT, Nothing)
  {
    PlainComment();
    hide PLUGINS_COMMENT, ReadPath, ReadPair;
    forall more ensures ReadLine(PLUGINS_COMMENT + "\n" + more) == Got(Nothing, "\n" + more) {
      CommentEnds(PLUGINS_COMMENT, more);
    }
  }

  /** Printable text without a quote. */
  predicate Unquoted(s: string) {
    Printable(s) && '"' !in s
  }

  lemma UnquotedBoth(a: string, b: string)
    requires Unquoted(a) && Unquoted(b)
    ensures Unquoted(a + b)
  {
  }

  lemma PlainComment()
    ensures Unquoted(PLUGINS_COMMENT) && PLUGINS_COMMENT != "" && PLUGINS_COMMENT[0] == '#'
  {
    CommentWords();
    var first := "# written by " + Command("freeze");
    var second := first + "; installed by ";
    hide Unquoted;
    UnquotedBoth("# written by ", Command("freeze"));
    UnquotedBoth(first, "; installed by ");
    UnquotedBoth(second, Command("restore"));
  }

  lemma CommentWords()
    ensures Unquoted("# written by ") && Unquoted("; installed by ")
    ensures Unquoted(Command("freeze")) && Unquoted(Command("restore"))
  {
    assert Unquoted("`cdui project ") && Unquoted("freeze") && Unquoted("restore") && Unquoted("`");
    UnquotedBoth("`cdui project ", "freeze");
    UnquotedBoth("`cdui project ", "restore");
  }

  lemma {:induction false} CommentEnds(s: string, more: string)
    requires Printable(s)
    ensures CommentEnd(s + "\n" + more) == Some("\n" + more)
  {
    if s == "" {
      assert s + "\n" + more == "\n" + more;
    } else {
      assert (s + "\n" + more)[1..] == s[1..] + "\n" + more;
      CommentEnds(s[1..], more);
    }
  }

  function RootTokens(e: Entries): seq<Line> {
    PairTokens(Scalars(e)) + if Scalars(e).End? then [] else [Nothing]
  }

  lemma ReadsRoot(m: Entries)
    requires DistinctEntries(Extras(m))
    ensures Reads(RootLines(m), RootTokens(Extras(m)), ReadableEntries(Scalars(Extras(m))))
  {
    hide Reads, PairTokens, PairLines, ReadableEntries, Extras, DistinctEntries;
    FilteredDistinct(Extras(m), {});
    ReadsPairs(Scalars(Extras(m)));
    if Scalars(Extras(m)).End? { ReadsNone(); } else { ReadsBlank(); }
    ReadsBoth(PairLines(Scalars(Extras(m))), PairTokens(Scalars(Extras(m))), ReadableEntries(Scalars(Extras(m))),
              if Scalars(Extras(m)).End? then [] else [""], if Scalars(Extras(m)).End? then [] else [Nothing], true);
  }

  function ManifestTokens(m: Entries, pins: seq<Pin>): seq<Line> {
    RootTokens(Extras(m)) + SectionTokens(["project"], NormalProject(TableOf(m, "project"))) + PluginTokens(pins)
    + PublishTokens(TableOf(m, "publish")) + SubtableTokens([], Extras(m))
  }

  /** All of the printed lines. */
  lemma ReadsManifest(m: Entries, pins: seq<Pin>)
    requires DistinctEntries(m) && RawManifest(m, pins) && PlainPins(SortPins(pins))
    ensures Reads(ManifestLines(m, pins), ManifestTokens(m, pins), ReadableManifest(m))
  {
    hide Reads, RootLines, RootTokens, ProjectLines, SectionTokens, PluginLines, PluginTokens, PublishLines, PublishTokens,
         ExtraLines, SubtableTokens, PlainPins, DistinctEntries, ReadableEntries, ReadableTables, RawText, TableOf, Extras, Without;
    var project, publish, extras := TableOf(m, "project"), TableOf(m, "publish"), Extras(m);
    ExtrasDistinct(m);
    TableDistinct(m, "project");
    TableDistinct(m, "publish");
    ReadsRoot(m);
    ReadsProject(project);
    ReadsPlugins(pins);
    ReadsPublish(publish);
    ReadsExtras(extras);
    ReadableSplit(extras);
    var good := ReadableEntries(Scalars(extras));
    var goodProject := ReadableEntries(Without(project, PROJECT_KEYS));
    var goodPublish := ReadableEntries(Without(publish, PUBLISH_KEYS));
    ReadsBoth(RootLines(m), RootTokens(extras), good, ProjectLines(project), SectionTokens(["project"], NormalProject(project)), goodProject);
    var lines := RootLines(m) + ProjectLines(project);
    var tokens := RootTokens(extras) + SectionTokens(["project"], NormalProject(project));
    ReadsBoth(lines, tokens, good && goodProject, PluginLines(pins), PluginTokens(pins), true);
    ReadsBoth(lines + PluginLines(pins), tokens + PluginTokens(pins), good && goodProject,
              PublishLines(publish), PublishTokens(publish), goodPublish);
    ReadsBoth(lines + PluginLines(pins) + PublishLines(publish), tokens + PluginTokens(pins) + PublishTokens(publish),
              good && goodProject && goodPublish, ExtraLines(extras), SubtableTokens([], extras), ReadableTables(extras));
  }

  lemma ExtrasDistinct(m: Entries)
    requires DistinctEntries(m)
    ensures DistinctEntries(Extras(m))
  {
    FilteredDistinct(m, MANAGED);
  }

  // ── the document built from them ──────────────────────────────────────

  // Every header stands inside an opened table.

  lemma {:induction false} MoreTables(lines: seq<Line>, tables: set<seq<string>>, more: set<seq<string>>)
    requires InsideOpened(lines, tables) && tables <= more
    ensures InsideOpened(lines, more)
    decreases |lines|
  {
    if lines != [] {
      if lines[0].Header? {
        MoreTables(lines[1..], tables + {lines[0].path}, more + {lines[0].path});
      } else {
        MoreTables(lines[1..], tables, more);
      }
    }
  }

  lemma {:induction false} InsideConcat(a: seq<Line>, b: seq<Line>, tables: set<seq<string>>)
    requires InsideOpened(a, tables) && InsideOpened(b, tables)
    ensures InsideOpened(a + b, tables)
    decreases |a|
  {
    if a == [] {
      assert a + b == b;
    } else {
      assert (a + b)[1..] == a[1..] + b;
      if a[0].Header? {
        MoreTables(b, tables, tables + {a[0].path});
        InsideConcat(a[1..], b, tables + {a[0].path});
      } else {
        InsideConcat(a[1..], b, tables);
      }
    }
  }

  lemma {:induction false} PairsInside(e: Entries, tables: set<seq<string>>)
    ensures InsideOpened(PairTokens(e), tables)
  {
    if e.Entry? {
      PairsInside(e.rest, tables);
      assert PairTokens(e)[1..] == PairTokens(e.rest);
    }
  }

  lemma BlankInside(tables: set<seq<string>>)
    ensures InsideOpened([Nothing], tables)
  {
    assert [Nothing][1..] == [];
  }

  /** A header under an open table, and lines that are inside once it is open as well. */
  lemma HeaderInside(path: seq<string>, key: string, rest: seq<Line>, tables: set<seq<string>>)
    requires path in tables && InsideOpened(rest, tables + {path + [key]})
    ensures InsideOpened([Header(path + [key])] + rest, tables)
  {
    assert ([Header(path + [key])] + rest)[1..] == rest;
    assert (path + [key])[..|path + [key]| - 1] == path;
  }

  lemma SectionInside(path: seq<string>, key: string, e: Entries, more: seq<Line>, tables: set<seq<string>>)
    requires path in tables && InsideOpened(more, tables + {path + [key]})
    ensures InsideOpened(SectionTokens(path + [key], e) + more, tables)
  {
    hide InsideOpened, PairTokens;
    var deeper := tables + {path + [key]};
    PairsInside(e, deeper);
    BlankInside(deeper);
    InsideConcat(PairTokens(e), [Nothing], deeper);
    InsideConcat(PairTokens(e) + [Nothing], more, deeper);
    HeaderInside(path, key, PairTokens(e) + [Nothing] + more, tables);
    assert SectionTokens(path + [key], e) + more == [Header(path + [key])] + (PairTokens(e) + [Nothing] + more);
  }

  lemma {:induction false} TableInside(path: seq<string>, key: string, t: Entries, tables: set<seq<string>>)
    requires path in tables
    ensures InsideOpened(TableTokens(path + [key], t), tables)
    decreases t, 1
  {
    hide InsideOpened, SectionTokens;
    SubtablesInside(path + [key], t, tables + {path + [key]});
    SectionInside(path, key, Scalars(t), SubtableTokens(path + [key], t), tables);
  }

  lemma {:induction false} SubtablesInside(path: seq<string>, t: Entries, tables: set<seq<string>>)
    requires path in tables
    ensures InsideOpened(SubtableTokens(path, t), tables)
    decreases t, 0
  {
    hide TableTokens;
    if t.Entry? {
      SubtablesInside(path, t.rest, tables);
      if t.value.Tab? {
        TableInside(path, t.key, t.value.entries, tables);
        InsideConcat(TableTokens(path + [t.key], t.value.entries), SubtableTokens(path, t.rest), tables);
      }
    }
  }

  lemma TopInside(key: string, e: Entries)
    ensures InsideOpened(SectionTokens([key], e), {[]})
  {
    hide SectionTokens;
    SectionInside([], key, e, [], {[]});
    assert [] + [key] == [key] && SectionTokens([key], e) + [] == SectionTokens([key], e);
  }

  lemma PluginsInside(pins: seq<Pin>)
    ensures InsideOpened(PluginTokens(pins), {[]})
  {
    hide InsideOpened, PairTokens;
    var e := PinEntries(SortPins(pins));
    var tables: set<seq<string>> := {[]} + {[] + ["plugins"]};
    PairsInside(e, tables);
    BlankInside(tables);
    InsideConcat([Nothing], PairTokens(e), tables);
    InsideConcat([Nothing] + PairTokens(e), [Nothing], tables);
    HeaderInside([], "plugins", [Nothing] + PairTokens(e) + [Nothing], {[]});
    assert [] + ["plugins"] == ["plugins"];
    assert PluginTokens(pins) == [Header(["plugins"])] + ([Nothing] + PairTokens(e) + [Nothing]);
  }

  lemma NothingInside()
    ensures InsideOpened([], {[]})
  {
  }

  /** The manifest opens every table before what is inside it. */
  lemma ManifestInside(m: Entries, pins: seq<Pin>)
    ensures InsideOpened(ManifestTokens(m, pins) + [Nothing], {[]})
  {
    hide InsideOpened, SectionTokens, PluginTokens, SubtableTokens, PairTokens;
    var root, project, publish := RootTokens(Extras(m)), SectionTokens(["project"], NormalProject(TableOf(m, "project"))), PublishTokens(TableOf(m, "publish"));
    PairsInside(Scalars(Extras(m)), {[]});
    BlankInside({[]});
    NothingInside();
    InsideConcat(PairTokens(Scalars(Extras(m))), if Scalars(Extras(m)).End? then [] else [Nothing], {[]});
    TopInside("project", NormalProject(TableOf(m, "project")));
    TopInside("publish", NormalPublish(TableOf(m, "publish")));
    PluginsInside(pins);
    SubtablesInside([], Extras(m), {[]});
    InsideConcat(root, project, {[]});
    InsideConcat(root + project, PluginTokens(pins), {[]});
    InsideConcat(root + project + PluginTokens(pins), publish, {[]});
    InsideConcat(root + project + PluginTokens(pins) + publish, SubtableTokens([], Extras(m)), {[]});
    InsideConcat(ManifestTokens(m, pins), [Nothing], {[]});
  }

  /** Lines that do not add to the table opened before them. */
  predicate Opens(lines: seq<Line>) {
    lines != [] ==> lines[0].Header? || (lines[0].Nothing? && Opens(lines[1..]))
  }

  /** Such lines build the same whatever table was open. */
  lemma {:induction false} OpensAnywhere(root: Entries, at: seq<string>, lines: seq<Line>)
    requires Opens(lines)
    ensures Build(root, at, lines) == Build(root, [], lines)
    decreases |lines|
  {
    if lines != [] && lines[0].Nothing? { OpensAnywhere(root, at, lines[1..]); }
  }

  lemma OpensConcat(a: seq<Line>, b: seq<Line>)
    requires Opens(a) && Opens(b)
    ensures Opens(a + b)
    decreases |a|
  {
    if a != [] && a[0].Nothing? {
      assert (a + b)[1..] == a[1..] + b;
      OpensConcat(a[1..], b);
    } else if a == [] {
      assert a + b == b;
    }
  }

  lemma TableStarts(path: seq<string>, t: Entries)
    ensures TableTokens(path, t) != [] && TableTokens(path, t)[0] == Header(path)
  {
    assert SectionTokens(path, Scalars(t))[0] == Header(path);
  }

  lemma {:induction false} SubtablesOpen(path: seq<string>, t: Entries)
    ensures Opens(SubtableTokens(path, t))
  {
    if t.Entry? {
      SubtablesOpen(path, t.rest);
      if t.value.Tab? {
        TableStarts(path + [t.key], t.value.entries);
      }
    }
  }

  /** The pairs of `e` go to the end of the open table. */
  lemma {:induction false} BuildPairs(root: Entries, at: seq<string>, e: Entries, rest: seq<Line>)
    requires TableAt(root, at).Some? && DistinctEntries(e) && Keys(e) !! Keys(TableAt(root, at).value)
    ensures Build(root, at, PairTokens(e) + rest)
         == Build(SetTableAt(root, at, Concat(TableAt(root, at).value, e)), at, rest)
    decreases e
  {
    var table := TableAt(root, at).value;
    if e.End? {
      ConcatEnd(table);
      SetSame(root, at);
      assert PairTokens(e) + rest == rest;
    } else {
      var one := Entry(e.key, e.value, End);
      var next := SetTableAt(root, at, Concat(table, one));
      BuildOnePair(root, at, e.key, e.value, PairTokens(e.rest) + rest);
      assert PairTokens(e) + rest == [Pair(e.key, e.value)] + (PairTokens(e.rest) + rest);
      SetThenAt(root, at, Concat(table, one));
      ConcatKeys(table, one);
      BuildPairs(next, at, e.rest, rest);
      ConcatAssoc(table, one, e.rest);
      SetTwice(root, at, Concat(table, one), Concat(table, e));
    }
  }

  lemma BuildOnePair(root: Entries, at: seq<string>, key: string, value: Value, rest: seq<Line>)
    requires TableAt(root, at).Some? && key !in Keys(TableAt(root, at).value)
    ensures Build(root, at, [Pair(key, value)] + rest)
         == Build(SetTableAt(root, at, Concat(TableAt(root, at).value, Entry(key, value, End))), at, rest)
  {
    PutNew(TableAt(root, at).value, key, value);
    assert ([Pair(key, value)] + rest)[1..] == rest;
  }

  lemma {:induction false} SetSame(root: Entries, path: seq<string>)
    requires TableAt(root, path).Some?
    ensures SetTableAt(root, path, TableAt(root, path).value) == root
    decreases |path|
  {
    if path != [] {
      SetSame(Get(root, path[0]).entries, path[1..]);
      PutSame(root, path[0]);
    }
  }

  lemma PutSame(e: Entries, key: string)
    requires key in Keys(e)
    ensures Put(e, key, Get(e, key)) == e
  {
  }

  /** A header opens a new, empty table at the end of the one it names. */
  lemma BuildHeader(root: Entries, at: seq<string>, path: seq<string>, key: string, rest: seq<Line>)
    requires TableAt(root, path).Some? && key !in Keys(TableAt(root, path).value)
    ensures Build(root, at, [Header(path + [key])] + rest)
         == Build(SetTableAt(root, path, Concat(TableAt(root, path).value, Entry(key, Tab(End), End))), path + [key], rest)
  {
    hide TableAt, SetTableAt, Put, Concat, Keys;
    PutNew(TableAt(root, path).value, key, Tab(End));
    var lines := [Header(path + [key])] + rest;
    assert lines[0] == Header(path + [key]) && lines[1..] == rest;
    assert (path + [key])[..|path + [key]| - 1] == path && (path + [key])[|path + [key]| - 1] == key;
  }

  lemma BuildNothing(root: Entries, at: seq<string>, rest: seq<Line>)
    ensures Build(root, at, [Nothing] + rest) == Build(root, at, rest)
  {
    assert ([Nothing] + rest)[1..] == rest;
  }

  /** The table at `path`, and with it the one at `path + [key]`, once that has been filled. */
  lemma Filled(root: Entries, path: seq<string>, key: string, before: Entries, after: Entries)
    requires TableAt(root, path).Some? && key !in Keys(TableAt(root, path).value)
    ensures var grown := SetTableAt(root, path, Concat(TableAt(root, path).value, Entry(key, Tab(before), End)));
      && TableAt(grown, path + [key]) == Some(before)
      && SetTableAt(grown, path + [key], after)
         == SetTableAt(root, path, Concat(TableAt(root, path).value, Entry(key, Tab(after), End)))
  {
    var table := TableAt(root, path).value;
    var grown := SetTableAt(root, path, Concat(table, Entry(key, Tab(before), End)));
    SetThenAt(root, path, Concat(table, Entry(key, Tab(before), End)));
    GetLast(table, key, Tab(before));
    AtDeeper(grown, path, key);
    SetDeeper(grown, path, key, after);
    PutLast(table, key, Tab(before), Tab(after));
    SetTwice(root, path, Concat(table, Entry(key, Tab(before), End)), Concat(table, Entry(key, Tab(after), End)));
  }

  /** A whole section: header, pairs, blank line. */
  lemma BuildSection(root: Entries, at: seq<string>, path: seq<string>, key: string, e: Entries, rest: seq<Line>)
    requires TableAt(root, path).Some? && key !in Keys(TableAt(root, path).value) && DistinctEntries(e)
    ensures Build(root, at, SectionTokens(path + [key], e) + rest)
         == Build(SetTableAt(root, path, Concat(TableAt(root, path).value, Entry(key, Tab(e), End))), path + [key], rest)
  {
    hide Build, DistinctEntries;
    var tail := PairTokens(e) + ([Nothing] + rest);
    assert SectionTokens(path + [key], e) + rest == [Header(path + [key])] + tail;
    BuildHeader(root, at, path, key, tail);
    var grown := SetTableAt(root, path, Concat(TableAt(root, path).value, Entry(key, Tab(End), End)));
    Filled(root, path, key, End, e);
    BuildPairs(grown, path + [key], e, [Nothing] + rest);
    BuildNothing(SetTableAt(grown, path + [key], e), path + [key], rest);
  }

  /** A section and the sections of its tables, whatever follows them. */
  lemma {:induction false} BuildTable(root: Entries, at: seq<string>, path: seq<string>, key: string, t: Entries, rest: seq<Line>)
    requires TableAt(root, path).Some? && key !in Keys(TableAt(root, path).value) && DistinctEntries(t) && Opens(rest)
    ensures Build(root, at, TableTokens(path + [key], t) + rest)
         == Build(SetTableAt(root, path, Concat(TableAt(root, path).value, Entry(key, Tab(NormalTable(t)), End))), [], rest)
    decreases t, 1
  {
    hide Build, DistinctEntries, Opens, SectionTokens;
    var deeper := path + [key];
    FilteredDistinct(t, {});
    BuildSection(root, at, path, key, Scalars(t), SubtableTokens(deeper, t) + rest);
    assert TableTokens(deeper, t) + rest == SectionTokens(deeper, Scalars(t)) + (SubtableTokens(deeper, t) + rest);
    var grown := SetTableAt(root, path, Concat(TableAt(root, path).value, Entry(key, Tab(Scalars(t)), End)));
    Filled(root, path, key, Scalars(t), NormalTable(t));
    BuildSubtables(grown, deeper, deeper, t, rest);
  }

  lemma {:induction false} BuildSubtables(root: Entries, at: seq<string>, path: seq<string>, t: Entries, rest: seq<Line>)
    requires TableAt(root, path).Some? && Keys(TableAt(root, path).value) !! Keys(NormalTables(t))
    requires DistinctEntries(t) && Opens(rest)
    ensures Build(root, at, SubtableTokens(path, t) + rest)
         == Build(SetTableAt(root, path, Concat(TableAt(root, path).value, NormalTables(t))), [], rest)
    decreases t, 0
  {
    hide Build, TableTokens;
    var table := TableAt(root, path).value;
    if t.End? {
      ConcatEnd(table);
      SetSame(root, path);
      assert SubtableTokens(path, t) + rest == rest;
      OpensAnywhere(root, at, rest);
    } else if !t.value.Tab? {
      BuildSubtables(root, at, path, t.rest, rest);
    } else {
      var more := SubtableTokens(path, t.rest) + rest;
      assert SubtableTokens(path, t) + rest == TableTokens(path + [t.key], t.value.entries) + more;
      SubtablesOpen(path, t.rest);
      OpensConcat(SubtableTokens(path, t.rest), rest);
      BuildTable(root, at, path, t.key, t.value.entries, more);
      var one := Entry(t.key, Tab(NormalTable(t.value.entries)), End);
      var grown := SetTableAt(root, path, Concat(table, one));
      SetThenAt(root, path, Concat(table, one));
      ConcatKeys(table, one);
      FilteredKeys(t.rest, {});
      BuildSubtables(grown, [], path, t.rest, rest);
      ConcatAssoc(table, one, NormalTables(t.rest));
      SetTwice(root, path, Concat(table, one), Concat(table, NormalTables(t)));
    }
  }
}
