/**
 The other half of what `cdui project freeze` promises: a manifest that reads
 back as it should was printed without a raw-quoted field that needs an
 escape.
 */
module FreezeExact {
  import opened Wrappers
  import opened TomlText
  import opened TomlReader
  import opened ProjectManifest
  import opened ManifestTypes
  import opened QuotedText
  import opened ManifestReading
  import opened ManifestNormal
  import opened ManifestRoundTrip
  import opened FreezeRoundTrip
  import opened StrayLines

  // ── the printed parts ─────────────────────────────────────────────────

  /** Line by line exact or straying, and exact throughout only if `raw`. */
  ghost predicate Follows(lines: seq<string>, tokens: seq<Line>, raw: bool) {
    Aligned(lines, tokens) && (AllExact(lines, tokens) ==> raw) && ShortHeaders(tokens) && ShutEach(lines)
  }

  lemma {:induction false} AlignedBoth(a: seq<string>, s: seq<Line>, b: seq<string>, t: seq<Line>)
    requires Aligned(a, s) && Aligned(b, t)
    ensures Aligned(a + b, s + t)
    ensures AllExact(a + b, s + t) ==> AllExact(a, s) && AllExact(b, t)
    decreases |a|
  {
    hide Exact, Strays;
    if a == [] {
      assert a + b == b && s + t == t;
    } else {
      assert (a + b)[1..] == a[1..] + b && (s + t)[1..] == s[1..] + t;
      AlignedBoth(a[1..], s[1..], b, t);
    }
  }

  lemma {:induction false} ShutBoth(a: seq<string>, b: seq<string>)
    requires ShutEach(a) && ShutEach(b)
    ensures ShutEach(a + b)
  {
    hide Shut;
    if a == [] {
      assert a + b == b;
    } else {
      assert (a + b)[1..] == a[1..] + b;
      ShutBoth(a[1..], b);
    }
  }

  lemma FollowsBoth(a: seq<string>, s: seq<Line>, p: bool, b: seq<string>, t: seq<Line>, q: bool)
    requires Follows(a, s, p) && Follows(b, t, q)
    ensures Follows(a + b, s + t, p && q)
  {
    hide Aligned, AllExact, ShutEach;
    AlignedBoth(a, s, b, t);
    ShutBoth(a, b);
  }

  lemma FollowsOne(line: string, token: Line, raw: bool)
    requires Exact(line, token) || Strays(line, token)
    requires Exact(line, token) ==> raw
    requires token.Header? ==> |token.path| == 1
    requires Shut(line)
    ensures Follows([line], [token], raw)
  {
    hide Exact, Strays, Shut;
    assert [line][1..] == [] && [token][1..] == [];
    assert Aligned([line][1..], [token][1..]) && AllExact([line][1..], [token][1..]) && ShutEach([line][1..]);
  }

  lemma FollowsNone()
    ensures Follows([], [], true)
  {
    hide Exact, Strays;
    var lines: seq<string>, tokens: seq<Line> := [], [];
    assert Aligned(lines, tokens) && ShortHeaders(tokens) && ShutEach(lines);
  }

  /** A line cannot be both. */
  lemma ExactIsNoStray(line: string, t: Line)
    requires Exact(line, t)
    ensures !Strays(line, t)
  {
    assert !StraysBefore(line, t, "");
  }

  lemma NotAtAll(line: string, t: Line)
    requires Says(line, t, false)
    ensures Strays(line, t)
  {
    hide ReadLine, Shut;
    forall more | Shut(more) ensures StraysBefore(line, t, more) {
      assert ReadLine(line + "\n" + more).Bad?;
    }
  }

  lemma {:induction false} FollowsPairs(e: Entries)
    requires DistinctEntries(e)
    ensures Follows(PairLines(e), PairTokens(e), true)
  {
    hide Follows, PairLine, BmpText, Readable, Says, Strays, Shut;
    if e.End? {
      FollowsNone();
    } else {
      var line, t := PairLine(e.key, e.value), Pair(e.key, e.value);
      ReadsPairLine(e.key, e.value);
      if !(BmpText(e.key) && Readable(e.value)) { NotAtAll(line, t); }
      PairLineShut(e.key, e.value);
      FollowsOne(line, t, true);
      FollowsPairs(e.rest);
      FollowsBoth([line], [t], true, PairLines(e.rest), PairTokens(e.rest), true);
    }
  }

  lemma FollowsRaw(key: string, text: string)
    requires Bare(key)
    ensures Follows([RawLine(key, text)], PairTokens(Entry(key, Str(text), End)), RawText(text))
  {
    hide Follows, RawLine, RawText, Exact, Strays, Shut;
    ReadsRawLine(key, text);
    RawLineShut(key, text);
    var t := Pair(key, Str(text));
    if Exact(RawLine(key, text), t) { ExactIsNoStray(RawLine(key, text), t); }
    FollowsOne(RawLine(key, text), t, RawText(text));
    assert [t] + [] == [t];
  }

  lemma FollowsOptional(e: Entries, key: string)
    requires Bare(key)
    ensures Follows(OptionalLine(e, key), PairTokens(Optional(e, key)), RawText(TextOf(e, key)))
  {
    hide Follows, RawLine, TextOf;
    if TextOf(e, key) != "" { FollowsRaw(key, TextOf(e, key)); } else { FollowsNone(); }
  }

  lemma FollowsMore(lines: seq<string>, a: Entries, p: bool, more: seq<string>, b: Entries, q: bool)
    requires Follows(lines, PairTokens(a), p) && Follows(more, PairTokens(b), q)
    ensures Follows(lines + more, PairTokens(Concat(a, b)), p && q)
  {
    hide Follows;
    TokensConcat(a, b);
    FollowsBoth(lines, PairTokens(a), p, more, PairTokens(b), q);
  }

  lemma FollowsFour(k: seq<string>, a: Entries, p: bool, l: seq<string>, b: Entries, q: bool,
                    m: seq<string>, c: Entries, r: bool, n: seq<string>, d: Entries)
    requires Follows(k, PairTokens(a), p) && Follows(l, PairTokens(b), q) && Follows(m, PairTokens(c), r)
    requires Follows(n, PairTokens(d), true)
    ensures Follows(k + l + m + n, PairTokens(Concat(a, Concat(b, Concat(c, d)))), p && q && r)
  {
    hide Follows, PairTokens;
    FollowsMore(k, a, p, l, b, q);
    FollowsMore(k + l, Concat(a, b), p && q, m, c, r);
    FollowsMore(k + l + m, Concat(Concat(a, b), c), p && q && r, n, d, true);
    ConcatAssoc(Concat(a, b), c, d);
    ConcatAssoc(a, b, Concat(c, d));
  }

  lemma FollowsHeader(name: string)
    requires Bare(name)
    ensures Follows(["[" + name + "]"], [Header([name])], true)
  {
    hide Follows, Says, Strays, Shut;
    BareIsBmp(name);
    ReadsHeader([name]);
    HeaderShut([name]);
    FollowsOne("[" + name + "]", Header([name]), true);
  }

  lemma FollowsSection(name: string, pairs: seq<string>, e: Entries, raw: bool)
    requires Bare(name) && Follows(pairs, PairTokens(e), raw)
    ensures Follows(["[" + name + "]"] + pairs + [""], SectionTokens([name], e), raw)
  {
    hide Follows, PairTokens;
    FollowsHeader(name);
    FollowsBoth(["[" + name + "]"], [Header([name])], true, pairs, PairTokens(e), raw);
    FollowsBlank();
    FollowsBoth(["[" + name + "]"] + pairs, [Header([name])] + PairTokens(e), raw, [""], [Nothing], true);
  }

  lemma FollowsBlank()
    ensures Follows([""], [Nothing], true)
  {
    hide Follows, Says, Strays;
    BlankSays();
    FollowsOne("", Nothing, true);
  }

  /** One pair that is always read as itself. */
  lemma FollowsField(key: string, value: Value)
    requires Bare(key) && Distinct(value) && Readable(value)
    ensures Follows([PairLine(key, value)], PairTokens(Entry(key, value, End)), true)
  {
    hide Follows, PairLine, Says, Strays, Shut;
    BareIsBmp(key);
    ReadsPairLine(key, value);
    PairLineShut(key, value);
    assert [Pair(key, value)] + [] == [Pair(key, value)];
    FollowsOne(PairLine(key, value), Pair(key, value), true);
  }

  lemma FollowsVersion(n: int)
    ensures Follows(["format_version = " + Repr(n)], PairTokens(Entry("format_version", Int(n), End)), true)
  {
    hide Follows, PairTokens;
    FollowsField("format_version", Int(n));
    BareIsBmp("format_version");
    assert "format_version" + " = " == "format_version = ";
  }

  lemma FollowsRecordIo(p: Entries)
    ensures Follows(RecordIoLine(p), PairTokens(RecordIo(p)), true)
  {
    hide Follows;
    if "record_io" in Keys(p) {
      FollowsField("record_io", Bool(Truthy(Get(p, "record_io"))));
      BareIsBmp("record_io");
      assert "record_io" + " = " == "record_io = ";
    } else {
      FollowsNone();
    }
  }

  lemma FollowsProject(p: Entries)
    requires DistinctEntries(p)
    ensures Follows(ProjectLines(p), SectionTokens(["project"], NormalProject(p)),
                    RawText(TextOf(p, "name")) && RawText(TextOf(p, "requires_codefyui")))
  {
    hide Follows, PairTokens, SectionTokens, RawLine, PairLines, DistinctEntries, OptionalLine, Optional,
         Without, TextOf, FormatVersion, RawText;
    var others := Without(p, PROJECT_KEYS);
    var version := Entry("format_version", Int(FormatVersion(p)), End);
    FollowsRaw("name", TextOf(p, "name"));
    FollowsVersion(FormatVersion(p));
    FollowsOptional(p, "requires_codefyui");
    FilteredDistinct(p, PROJECT_KEYS);
    FollowsPairs(others);
    var raw := RawText(TextOf(p, "name")) && RawText(TextOf(p, "requires_codefyui"));
    FollowsFour([RawLine("name", TextOf(p, "name"))], Entry("name", Str(TextOf(p, "name")), End), RawText(TextOf(p, "name")),
                ["format_version = " + Repr(FormatVersion(p))], version, true,
                OptionalLine(p, "requires_codefyui"), Optional(p, "requires_codefyui"), RawText(TextOf(p, "requires_codefyui")),
                PairLines(others), others);
    FollowsSection("project", ProjectPairs(p), NormalProject(p), raw);
    assert "[" + "project" + "]" == "[project]";
  }

  lemma FollowsPublish(p: Entries)
    requires DistinctEntries(p)
    ensures Follows(PublishLines(p), PublishTokens(p), RawText(TextOf(p, "graph")) && RawText(TextOf(p, "slug")))
  {
    hide Follows, PairTokens, SectionTokens, PairLines, DistinctEntries, OptionalLine, Optional,
         Without, TextOf, RawText, RecordIoLine, RecordIo;
    var raw := RawText(TextOf(p, "graph")) && RawText(TextOf(p, "slug"));
    if p.End? {
      FollowsNone();
      NothingIsRaw("graph");
      NothingIsRaw("slug");
    } else {
      var others := Without(p, PUBLISH_KEYS);
      FollowsOptional(p, "graph");
      FollowsOptional(p, "slug");
      FollowsRecordIo(p);
      FilteredDistinct(p, PUBLISH_KEYS);
      FollowsPairs(others);
      FollowsFour(OptionalLine(p, "graph"), Optional(p, "graph"), RawText(TextOf(p, "graph")),
                  OptionalLine(p, "slug"), Optional(p, "slug"), RawText(TextOf(p, "slug")),
                  RecordIoLine(p), RecordIo(p), true, PairLines(others), others);
      FollowsSection("publish", PublishPairs(p), NormalPublish(p), raw);
      assert "[" + "publish" + "]" == "[publish]";
    }
  }

  lemma NothingIsRaw(key: string)
    ensures RawText(TextOf(End, key))
  {
  }

  /** The ids are the names of plugins, which need no quotes. */
  predicate BareIds(pins: seq<Pin>) {
    forall p | p in pins :: Bare(p.id)
  }

  lemma SortedIds(pins: seq<Pin>)
    requires BareIds(pins)
    ensures BareIds(SortPins(pins))
  {
    hide SortPins, Bare;
    SortKeepsPins(pins);
    forall p | p in SortPins(pins) ensures Bare(p.id) {
      assert p in multiset(SortPins(pins));
    }
  }

  lemma {:induction false} FollowsPins(pins: seq<Pin>)
    requires BareIds(pins)
    ensures Follows(PinLines(pins), PairTokens(PinEntries(pins)), PlainPins(pins))
  {
    hide Follows, PinLine, PlainPin, PinTable, Bare, Exact, Strays, Shut;
    if pins == [] {
      FollowsNone();
    } else {
      var t := Pair(pins[0].id, PinTable(pins[0]));
      ReadsPinLine(pins[0]);
      PinLineShut(pins[0]);
      if Exact(PinLine(pins[0]), t) { ExactIsNoStray(PinLine(pins[0]), t); }
      FollowsOne(PinLine(pins[0]), t, PlainPin(pins[0]));
      FollowsPins(pins[1..]);
      FollowsBoth([PinLine(pins[0])], [Pair(pins[0].id, PinTable(pins[0]))], PlainPin(pins[0]),
                  PinLines(pins[1..]), PairTokens(PinEntries(pins[1..])), PlainPins(pins[1..]));
    }
  }

  lemma FollowsPlugins(pins: seq<Pin>)
    requires BareIds(pins)
    ensures Follows(PluginLines(pins), PluginTokens(pins), PlainPins(pins))
  {
    hide Follows, PairTokens, PinEntries, SortPins, PinLines, PlainPins, ReadLine, BareIds;
    SortedIds(pins);
    SortedPins(pins);
    FollowsPins(SortPins(pins));
    FollowsPluginsHead();
    FollowsBoth(["[plugins]", PLUGINS_COMMENT], [Header(["plugins"]), Nothing], true,
                PinLines(SortPins(pins)), PairTokens(PinEntries(SortPins(pins))), PlainPins(pins));
    FollowsBlank();
    FollowsBoth(["[plugins]", PLUGINS_COMMENT] + PinLines(SortPins(pins)),
                [Header(["plugins"]), Nothing] + PairTokens(PinEntries(SortPins(pins))), PlainPins(pins), [""], [Nothing], true);
  }

  lemma FollowsPluginsHead()
    ensures Follows(["[plugins]", PLUGINS_COMMENT], [Header(["plugins"]), Nothing], true)
  {
    hide Follows, Says, Strays, Shut, PLUGINS_COMMENT;
    FollowsHeader("plugins");
    assert "[" + "plugins" + "]" == "[plugins]";
    CommentIsNothing();
    CommentShut();
    FollowsOne(PLUGINS_COMMENT, Nothing, true);
    FollowsBoth(["[plugins]"], [Header(["plugins"])], true, [PLUGINS_COMMENT], [Nothing], true);
    assert ["[plugins]"] + [PLUGINS_COMMENT] == ["[plugins]", PLUGINS_COMMENT];
    assert [Header(["plugins"])] + [Nothing] == [Header(["plugins"]), Nothing];
  }

  lemma CommentShut()
    ensures Shut(PLUGINS_COMMENT)
  {
    hide PLUGINS_COMMENT, Shut;
    PlainComment();
    LooseShut(PLUGINS_COMMENT);
  }

  lemma FollowsRoot(m: Entries)
    requires DistinctEntries(Extras(m))
    ensures Follows(RootLines(m), RootTokens(Extras(m)), true)
  {
    hide Follows, PairTokens, PairLines, Extras, DistinctEntries;
    FilteredDistinct(Extras(m), {});
    FollowsPairs(Scalars(Extras(m)));
    if Scalars(Extras(m)).End? { FollowsNone(); } else { FollowsBlank(); }
    FollowsBoth(PairLines(Scalars(Extras(m))), PairTokens(Scalars(Extras(m))), true,
                if Scalars(Extras(m)).End? then [] else [""], if Scalars(Extras(m)).End? then [] else [Nothing], true);
  }

  // ── the whole manifest ────────────────────────────────────────────────

  /** Everything before the user's own tables. */
  function FrontLines(m: Entries, pins: seq<Pin>): seq<string> {
    RootLines(m) + ProjectLines(TableOf(m, "project")) + PluginLines(pins) + PublishLines(TableOf(m, "publish"))
  }

  function FrontTokens(m: Entries, pins: seq<Pin>): seq<Line> {
    RootTokens(Extras(m)) + SectionTokens(["project"], NormalProject(TableOf(m, "project"))) + PluginTokens(pins)
    + PublishTokens(TableOf(m, "publish"))
  }

  lemma FollowsFront(m: Entries, pins: seq<Pin>)
    requires DistinctEntries(m) && BareIds(pins) && DistinctPins(pins)
    ensures Follows(FrontLines(m, pins), FrontTokens(m, pins), RawManifest(m, pins))
  {
    hide Follows, RootLines, RootTokens, ProjectLines, SectionTokens, PluginLines, PluginTokens, PublishLines, PublishTokens,
         PlainPins, DistinctEntries, DistinctPins, RawText, TableOf, Extras, BareIds;
    var project, publish, extras := TableOf(m, "project"), TableOf(m, "publish"), Extras(m);
    ExtrasDistinct(m);
    TableDistinct(m, "project");
    TableDistinct(m, "publish");
    FollowsRoot(m);
    FollowsProject(project);
    FollowsPlugins(pins);
    FollowsPublish(publish);
    var raw := RawText(TextOf(project, "name")) && RawText(TextOf(project, "requires_codefyui"));
    var lines := RootLines(m) + ProjectLines(project);
    var tokens := RootTokens(extras) + SectionTokens(["project"], NormalProject(project));
    FollowsBoth(RootLines(m), RootTokens(extras), true, ProjectLines(project), SectionTokens(["project"], NormalProject(project)), raw);
    FollowsBoth(lines, tokens, raw, PluginLines(pins), PluginTokens(pins), PlainPins(pins));
    FollowsBoth(lines + PluginLines(pins), tokens + PluginTokens(pins), raw && PlainPins(pins),
                PublishLines(publish), PublishTokens(publish), RawText(TextOf(publish, "graph")) && RawText(TextOf(publish, "slug")));
  }

  lemma FrontIsFirst(m: Entries, pins: seq<Pin>)
    ensures ManifestLines(m, pins) == FrontLines(m, pins) + ExtraLines(Extras(m))
    ensures ManifestTokens(m, pins) + [Nothing] == FrontTokens(m, pins) + (SubtableTokens([], Extras(m)) + [Nothing])
  {
    hide RootLines, RootTokens, ProjectLines, SectionTokens, PluginLines, PluginTokens, PublishLines, PublishTokens, ExtraLines, SubtableTokens;
  }

  // The user's own tables.

  lemma {:induction false} PairsShut(e: Entries)
    ensures ShutEach(PairLines(e))
  {
    hide PairLine, Shut;
    if e.Entry? {
      PairLineShut(e.key, e.value);
      PairsShut(e.rest);
      assert PairLines(e)[1..] == PairLines(e.rest);
    }
  }

  lemma {:induction false} TableShut(path: seq<string>, t: Entries)
    requires path != []
    ensures ShutEach(TableLines(PathText(path), t))
    decreases t, 1
  {
    hide PathText, Shut, PairLines, SubtableLines;
    var header := "[" + PathText(path) + "]";
    HeaderShut(path);
    PairsShut(Scalars(t));
    SubtablesShut(path, t);
    EachOne(header);
    EachOne("");
    EmptyShut();
    ShutBoth([header], PairLines(Scalars(t)));
    ShutBoth([header] + PairLines(Scalars(t)), [""]);
    ShutBoth([header] + PairLines(Scalars(t)) + [""], SubtableLines(PathText(path), t));
  }

  lemma EmptyShut()
    ensures Shut("")
  {
  }

  lemma EachOne(line: string)
    ensures Shut(line) ==> ShutEach([line])
  {
    hide Shut;
    assert [line][1..] == [];
  }

  lemma {:induction false} SubtablesShut(path: seq<string>, t: Entries)
    requires path != []
    ensures ShutEach(SubtableLines(PathText(path), t))
    decreases t, 0
  {
    hide PathText, Shut, TableLines;
    if t.Entry? {
      SubtablesShut(path, t.rest);
      if t.value.Tab? {
        PathAppend(path, t.key);
        TableShut(path + [t.key], t.value.entries);
        ShutBoth(TableLines(PathText(path + [t.key]), t.value.entries), SubtableLines(PathText(path), t.rest));
      }
    }
  }

  lemma {:induction false} ExtraShut(e: Entries)
    ensures ShutEach(ExtraLines(e))
  {
    hide Shut, TableLines;
    if e.Entry? {
      ExtraShut(e.rest);
      if e.value.Tab? {
        TableShut([e.key], e.value.entries);
        ShutBoth(TableLines(KeyText(e.key), e.value.entries), ExtraLines(e.rest));
      }
    }
  }

  lemma ExtraTextShut(e: Entries)
    ensures Shut(Join(ExtraLines(e)))
  {
    hide Shut, ExtraLines;
    ExtraShut(e);
    EmptyShut();
    ShutLines(ExtraLines(e), "");
    assert Join(ExtraLines(e)) + "" == Join(ExtraLines(e));
  }

  /** A raw-quoted field that needs an escape, and the manifest does not read back. */
  lemma NotReadBack(m: Entries, pins: seq<Pin>)
    requires DistinctEntries(m) && DistinctPins(pins) && BareIds(pins) && !RawManifest(m, pins)
    ensures ReadDocument(Render(m, pins)) != Some(Normal(m, pins))
  {
    hide DistinctEntries, DistinctPins, BareIds, RawManifest, ReadLines, Build, InsideOpened, Normal, ManifestTokens, ManifestLines,
         FrontLines, FrontTokens, Aligned, AllExact, ShortHeaders, ShutEach, Shut;
    FollowsFront(m, pins);
    FrontIsFirst(m, pins);
    ManifestInside(m, pins);
    BuildManifest(m, pins);
    ExtraTextShut(Extras(m));
    JoinConcat(FrontLines(m, pins), ExtraLines(Extras(m)));
    StrayBreaks(FrontLines(m, pins), FrontTokens(m, pins), Join(ExtraLines(Extras(m))), SubtableTokens([], Extras(m)) + [Nothing], End, [], {[]});
  }

  lemma RenderedReadsBack(m: Entries, pins: seq<Pin>)
    requires DistinctEntries(m) && DistinctPins(pins) && BareIds(pins)
    ensures ReadDocument(Render(m, pins)) == Some(Normal(m, pins)) <==> ReadableManifest(m) && RawManifest(m, pins)
  {
    hide DistinctEntries, DistinctPins, BareIds, RawManifest, Normal, ReadDocument, Render, ReadableManifest;
    if RawManifest(m, pins) {
      ReadsBack(m, pins);
    } else {
      NotReadBack(m, pins);
    }
  }

  /**
   What `freeze` prints of any manifest is read back as that manifest, with the
   pins replaced and the managed fields filled in and of their types, exactly
   when what it escapes is inside the BMP and what it does not escape needs none.
   */
  lemma ReadsBackIff(m: Entries, pins: seq<Pin>, py: Python)
    requires DistinctEntries(m) && Typed(m, py).Ok? && DistinctPins(pins) && BareIds(pins)
    ensures var t := Typed(m, py).value;
      ReadDocument(Render(t, pins)) == Some(Normal(t, pins)) <==> ReadableManifest(m) && RawManifest(t, pins)
  {
    hide DistinctEntries, DistinctPins, BareIds, RawManifest, Normal, ReadDocument, Render, Typed;
    TypedDistinct(m, py);
    RenderedReadsBack(Typed(m, py).value, pins);
    TypedReadable(m, py);
  }

  lemma TypedReadable(m: Entries, py: Python)
    requires Typed(m, py).Ok?
    ensures ReadableManifest(Typed(m, py).value) <==> ReadableManifest(m)
  {
    hide ReadableEntries, TypedProject, TypedPublish, Without, Extras;
    TypedParts(m, py);
    TypedSections(m, py);
  }

  lemma TypedSections(m: Entries, py: Python)
    requires Typed(m, py).Ok?
    ensures TypedProject(TableOf(m, "project"), py).Ok?
    ensures Without(TypedProject(TableOf(m, "project"), py).value, PROJECT_KEYS) == Without(TableOf(m, "project"), PROJECT_KEYS)
    ensures Without(TypedPublish(TableOf(m, "publish"), py), PUBLISH_KEYS) == Without(TableOf(m, "publish"), PUBLISH_KEYS)
  {
    hide TypedProject, TypedPublish, Without;
    TypedProjectSays(TableOf(m, "project"), py);
    TypedPublishSays(TableOf(m, "publish"), py);
  }
}
