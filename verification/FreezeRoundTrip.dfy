/**
 The promises of `cdui project freeze`: the manifest it writes reads back as
 the one it was given, with the pins replaced and the managed fields filled
 in; and a second freeze writes the same text.
 */
module FreezeRoundTrip {
  import opened Wrappers
  import opened Sequences
  import opened TomlText
  import opened TomlReader
  import opened ProjectManifest
  import opened QuotedText
  import opened ManifestReading
  import opened ManifestNormal
  import opened ManifestRoundTrip

  // ── pins ──────────────────────────────────────────────────────────────

  lemma {:induction false} InsertedPin(p: Pin, sorted: seq<Pin>)
    ensures Ids(InsertPin(p, sorted)) == Ids(sorted) + {p.id}
    ensures p.id !in Ids(sorted) && DistinctPins(sorted) ==> DistinctPins(InsertPin(p, sorted))
    ensures PlainPins(InsertPin(p, sorted)) <==> PlainPins(sorted) && PlainPin(p)
  {
    hide PlainPin, Less;
    if sorted != [] {
      InsertedPin(p, sorted[1..]);
      assert ([p] + sorted)[1..] == sorted;
      assert ([sorted[0]] + InsertPin(p, sorted[1..]))[1..] == InsertPin(p, sorted[1..]);
    }
  }

  lemma {:induction false} SortedPins(pins: seq<Pin>)
    ensures Ids(SortPins(pins)) == Ids(pins)
    ensures DistinctPins(pins) ==> DistinctPins(SortPins(pins))
    ensures PlainPins(SortPins(pins)) <==> PlainPins(pins)
  {
    hide PlainPin, InsertPin;
    if pins != [] {
      SortedPins(pins[1..]);
      InsertedPin(pins[0], SortPins(pins[1..]));
    }
  }

  lemma PinTableDistinct(p: Pin)
    ensures Distinct(PinTable(p))
  {
    assert "url"[0] != "ref"[0] && "url"[0] != "sha"[0] && "ref"[0] != "sha"[0];
    var last := Entry("sha", Str(p.sha), End);
    var more := Entry("ref", Str(p.ref), last);
    assert Keys(last) == {"sha"} && Keys(more) == {"ref", "sha"};
    assert DistinctEntries(End);
    assert DistinctEntries(last) && Distinct(Str(p.ref));
    assert DistinctEntries(more) && Distinct(Str(p.url));
  }

  lemma {:induction false} PinKeys(pins: seq<Pin>)
    ensures Keys(PinEntries(pins)) == Ids(pins)
    ensures DistinctPins(pins) ==> DistinctEntries(PinEntries(pins))
  {
    hide PinTable;
    if pins != [] {
      PinKeys(pins[1..]);
      PinTableDistinct(pins[0]);
    }
  }

  lemma {:induction false} InsertedPinKept(p: Pin, sorted: seq<Pin>)
    ensures multiset(InsertPin(p, sorted)) == multiset(sorted) + multiset{p}
  {
    hide Less;
    if sorted != [] {
      InsertedPinKept(p, sorted[1..]);
      assert sorted == [sorted[0]] + sorted[1..];
    }
  }

  /** Sorting loses and invents no pin. */
  lemma {:induction false} SortKeepsPins(pins: seq<Pin>)
    ensures multiset(SortPins(pins)) == multiset(pins)
  {
    if pins != [] {
      SortKeepsPins(pins[1..]);
      InsertedPinKept(pins[0], SortPins(pins[1..]));
      assert pins == [pins[0]] + pins[1..];
    }
  }

  lemma {:induction false} LessOrder(a: string, b: string, c: string)
    ensures !(Less(a, b) && Less(b, a)) && (a == b || Less(a, b) || Less(b, a))
    ensures Less(a, b) && Less(b, c) ==> Less(a, c)
    decreases |a|
  {
    if a != "" && b != "" {
      LessOrder(a[1..], b[1..], if c == "" then "" else c[1..]);
      assert a == [a[0]] + a[1..] && b == [b[0]] + b[1..];
    }
  }

  /** Every id of `pins` comes after `id`. */
  predicate After(id: string, pins: seq<Pin>) {
    pins != [] ==> Less(id, pins[0].id) && After(id, pins[1..])
  }

  predicate InOrder(pins: seq<Pin>) {
    pins != [] ==> After(pins[0].id, pins[1..]) && InOrder(pins[1..])
  }

  lemma {:induction false} AfterBoth(a: string, b: string, pins: seq<Pin>)
    requires Less(a, b) && After(b, pins)
    ensures After(a, pins)
  {
    hide Less;
    if pins != [] {
      LessOrder(a, b, pins[0].id);
      AfterBoth(a, b, pins[1..]);
    }
  }

  lemma {:induction false} InsertedAfter(id: string, p: Pin, sorted: seq<Pin>)
    requires Less(id, p.id) && After(id, sorted)
    ensures After(id, InsertPin(p, sorted))
  {
    hide Less;
    if sorted != [] {
      InsertedAfter(id, p, sorted[1..]);
      assert ([p] + sorted)[1..] == sorted;
      assert ([sorted[0]] + InsertPin(p, sorted[1..]))[1..] == InsertPin(p, sorted[1..]);
    }
  }

  lemma {:induction false} InsertedInOrder(p: Pin, sorted: seq<Pin>)
    requires InOrder(sorted) && p.id !in Ids(sorted)
    ensures InOrder(InsertPin(p, sorted))
  {
    hide Less;
    if sorted != [] {
      LessOrder(p.id, sorted[0].id, "");
      if Less(p.id, sorted[0].id) {
        AfterBoth(p.id, sorted[0].id, sorted[1..]);
        assert ([p] + sorted)[1..] == sorted;
      } else {
        InsertedInOrder(p, sorted[1..]);
        InsertedAfter(sorted[0].id, p, sorted[1..]);
        assert ([sorted[0]] + InsertPin(p, sorted[1..]))[1..] == InsertPin(p, sorted[1..]);
      }
    }
  }

  /** The pins come out in the order of their ids. */
  lemma {:induction false} SortOrders(pins: seq<Pin>)
    requires DistinctPins(pins)
    ensures InOrder(SortPins(pins))
  {
    hide InsertPin, InOrder;
    if pins == [] {
      NoneInOrder();
    } else {
      SortOrders(pins[1..]);
      SortedPins(pins[1..]);
      InsertedInOrder(pins[0], SortPins(pins[1..]));
    }
  }

  lemma NoneInOrder()
    ensures InOrder([])
  {
  }

  lemma {:induction false} PinFound(pins: seq<Pin>, p: Pin)
    requires DistinctPins(pins) && p in pins
    ensures p.id in Keys(PinEntries(pins)) && Get(PinEntries(pins), p.id) == PinTable(p)
  {
    PinKeys(pins);
    if p == pins[0] {
    } else {
      assert p in pins[1..];
      PinFound(pins[1..], p);
      PinKeys(pins[1..]);
    }
  }

  // ── building the manifest ─────────────────────────────────────────────

  lemma OptionalKeys(e: Entries, key: string)
    ensures Keys(Optional(e, key)) <= {key} && DistinctEntries(Optional(e, key))
  {
  }

  lemma DistinctConcat(a: Entries, b: Entries)
    requires DistinctEntries(a) && DistinctEntries(b) && Keys(a) !! Keys(b)
    ensures DistinctEntries(Concat(a, b)) && Keys(Concat(a, b)) == Keys(a) + Keys(b)
  {
    if a.Entry? {
      DistinctConcat(a.rest, b);
      ConcatKeys(a.rest, b);
    }
  }

  lemma ProjectDistinct(p: Entries)
    requires DistinctEntries(p)
    ensures DistinctEntries(NormalProject(p))
  {
    hide Optional, Without, TextOf, FormatVersion;
    DifferentNames();
    FilteredDistinct(p, PROJECT_KEYS);
    FilteredKeys(p, PROJECT_KEYS);
    OptionalKeys(p, "requires_codefyui");
    DistinctConcat(Optional(p, "requires_codefyui"), Without(p, PROJECT_KEYS));
    var rest := Concat(Optional(p, "requires_codefyui"), Without(p, PROJECT_KEYS));
    assert "name" in PROJECT_KEYS && "format_version" in PROJECT_KEYS;
    assert "format_version" !in Keys(rest) && "name" !in Keys(rest);
    var more := Entry("format_version", Int(FormatVersion(p)), rest);
    assert "name" !in Keys(more) && DistinctEntries(more);
  }

  /** The parts of a printed `[publish]` share no key. */
  lemma PublishApart(p: Entries)
    ensures Keys(RecordIo(p)) !! Keys(Without(p, PUBLISH_KEYS))
    ensures Keys(Optional(p, "slug")) !! Keys(RecordIo(p)) + Keys(Without(p, PUBLISH_KEYS))
    ensures Keys(Optional(p, "graph")) !! Keys(Optional(p, "slug")) + (Keys(RecordIo(p)) + Keys(Without(p, PUBLISH_KEYS)))
  {
    RecordIoKeys(p);
    hide Optional, Without, TextOf, RecordIo;
    DifferentNames();
    FilteredKeys(p, PUBLISH_KEYS);
    OptionalKeys(p, "graph");
    OptionalKeys(p, "slug");
    assert "graph" in PUBLISH_KEYS && "slug" in PUBLISH_KEYS && "record_io" in PUBLISH_KEYS;
  }

  lemma PublishDistinct(p: Entries)
    requires DistinctEntries(p)
    ensures DistinctEntries(NormalPublish(p))
    ensures Keys(NormalPublish(p))
         == Keys(Optional(p, "graph")) + Keys(Optional(p, "slug")) + Keys(RecordIo(p)) + Keys(Without(p, PUBLISH_KEYS))
  {
    RecordIoKeys(p);
    hide Optional, Without, TextOf, RecordIo, DistinctEntries;
    PublishApart(p);
    FilteredDistinct(p, PUBLISH_KEYS);
    OptionalKeys(p, "graph");
    OptionalKeys(p, "slug");
    DistinctConcat(RecordIo(p), Without(p, PUBLISH_KEYS));
    DistinctConcat(Optional(p, "slug"), Concat(RecordIo(p), Without(p, PUBLISH_KEYS)));
    DistinctConcat(Optional(p, "graph"), Concat(Optional(p, "slug"), Concat(RecordIo(p), Without(p, PUBLISH_KEYS))));
  }

  lemma RecordIoKeys(p: Entries)
    ensures Keys(RecordIo(p)) <= {"record_io"} && DistinctEntries(RecordIo(p))
  {
  }

  /** A section at the top level. */
  lemma BuildTop(root: Entries, at: seq<string>, key: string, e: Entries, rest: seq<Line>)
    requires key !in Keys(root) && DistinctEntries(e) && Opens(rest)
    ensures Build(root, at, SectionTokens([key], e) + rest) == Build(Concat(root, Entry(key, Tab(e), End)), [], rest)
  {
    hide Build, SectionTokens, Opens;
    assert [] + [key] == [key];
    BuildSection(root, at, [], key, e, rest);
    OpensAnywhere(Concat(root, Entry(key, Tab(e), End)), [key], rest);
  }

  lemma BuildPlugins(root: Entries, pins: seq<Pin>, rest: seq<Line>)
    requires "plugins" !in Keys(root) && DistinctEntries(PinEntries(SortPins(pins))) && Opens(rest)
    ensures Build(root, [], PluginTokens(pins) + rest)
         == Build(Concat(root, Entry("plugins", Tab(PinEntries(SortPins(pins))), End)), [], rest)
  {
    hide Build, Opens, SortPins, PinEntries, DistinctEntries, PairTokens;
    var e := PinEntries(SortPins(pins));
    var pairs := PairTokens(e) + ([Nothing] + rest);
    assert [] + ["plugins"] == ["plugins"];
    assert PluginTokens(pins) + rest == [Header(["plugins"])] + ([Nothing] + pairs);
    BuildHeader(root, [], [], "plugins", [Nothing] + pairs);
    var grown := Concat(root, Entry("plugins", Tab(End), End));
    Filled(root, [], "plugins", End, e);
    BuildNothing(grown, [] + ["plugins"], pairs);
    BuildPairs(grown, [] + ["plugins"], e, [Nothing] + rest);
    BuildNothing(Concat(root, Entry("plugins", Tab(e), End)), [] + ["plugins"], rest);
    OpensAnywhere(Concat(root, Entry("plugins", Tab(e), End)), [] + ["plugins"], rest);
  }

  lemma BuildPublish(root: Entries, p: Entries, rest: seq<Line>)
    requires "publish" !in Keys(root) && DistinctEntries(p) && Opens(rest)
    ensures Build(root, [], PublishTokens(p) + rest) == Build(Concat(root, PublishEntry(p)), [], rest)
  {
    hide Build, Opens, NormalPublish;
    if p.End? {
      ConcatEnd(root);
      assert PublishTokens(p) + rest == rest;
    } else {
      PublishDistinct(p);
      BuildTop(root, [], "publish", NormalPublish(p), rest);
    }
  }

  lemma BuildRoot(e: Entries, rest: seq<Line>)
    requires DistinctEntries(e) && Opens(rest)
    ensures Build(End, [], RootTokens(e) + rest) == Build(Scalars(e), [], rest)
  {
    hide Build, Opens, Scalars, PairTokens, DistinctEntries;
    FilteredDistinct(e, {});
    if Scalars(e).End? {
      BuildPairs(End, [], Scalars(e), rest);
      assert RootTokens(e) == PairTokens(Scalars(e));
    } else {
      BuildPairs(End, [], Scalars(e), [Nothing] + rest);
      BuildNothing(Scalars(e), [], rest);
      assert RootTokens(e) == PairTokens(Scalars(e)) + [Nothing];
      Associative(PairTokens(Scalars(e)), [Nothing], rest);
    }
    assert Concat(End, Scalars(e)) == Scalars(e);
  }

  lemma ExtraKeys(m: Entries)
    ensures Keys(Extras(m)) == Keys(m) - MANAGED
    ensures Keys(Scalars(Extras(m))) <= Keys(m) - MANAGED && Keys(NormalTables(Extras(m))) <= Keys(m) - MANAGED
  {
    FilteredKeys(m, MANAGED);
    FilteredKeys(Extras(m), {});
  }

  lemma PublishEntryKeys(p: Entries)
    ensures Keys(PublishEntry(p)) <= {"publish"}
  {
  }

  /** The whole document, built section by section. */
  lemma BuildManifest(m: Entries, pins: seq<Pin>)
    requires DistinctEntries(m) && DistinctPins(pins)
    ensures Build(End, [], ManifestTokens(m, pins) + [Nothing]) == Some(Normal(m, pins))
  {
    hide Build, RootTokens, SectionTokens, PluginTokens, PublishTokens, SubtableTokens, Opens, Extras, TableOf, Scalars,
         NormalTables, NormalProject, PublishEntry, PinEntries, SortPins, DistinctEntries, DistinctPins;
    var extras, project, publish := Extras(m), TableOf(m, "project"), TableOf(m, "publish");
    var sorted := PinEntries(SortPins(pins));
    ExtrasDistinct(m);
    TableDistinct(m, "project");
    TableDistinct(m, "publish");
    ProjectDistinct(project);
    SortedPins(pins);
    PinKeys(SortPins(pins));
    ExtraKeys(m);
    PublishEntryKeys(publish);
    DifferentNames();
    var tables := SubtableTokens([], extras) + [Nothing];
    var third := PublishTokens(publish) + tables;
    var second := PluginTokens(pins) + third;
    var first := SectionTokens(["project"], NormalProject(project)) + second;
    ManifestTokensAre(m, pins);
    TailsOpen(m, pins);
    var e0 := Scalars(extras);
    var e1 := Concat(e0, Entry("project", Tab(NormalProject(project)), End));
    var e2 := Concat(e1, Entry("plugins", Tab(sorted), End));
    var e3 := Concat(e2, PublishEntry(publish));
    ConcatKeys(e0, Entry("project", Tab(NormalProject(project)), End));
    ConcatKeys(e1, Entry("plugins", Tab(sorted), End));
    ConcatKeys(e2, PublishEntry(publish));
    ScalarsApart(m);
    BuildRoot(extras, first);
    BuildTop(e0, [], "project", NormalProject(project), second);
    BuildPlugins(e1, pins, third);
    BuildPublish(e2, publish, tables);
    LastOpens();
    BuildSubtables(e3, [], [], extras, [Nothing]);
    BuildEnd(Concat(e3, NormalTables(extras)));
    NormalIs(e0, NormalProject(project), sorted, PublishEntry(publish), NormalTables(extras));
  }

  lemma ScalarsApart(m: Entries)
    requires DistinctEntries(m)
    ensures Keys(Scalars(Extras(m))) !! Keys(NormalTables(Extras(m)))
  {
    ExtrasDistinct(m);
    FilteredDistinct(Extras(m), {});
  }

  lemma LastOpens()
    ensures Opens([Nothing])
  {
    assert [Nothing][1..] == [];
  }

  lemma BuildEnd(root: Entries)
    ensures Build(root, [], [Nothing]) == Some(root)
  {
    assert [Nothing][1..] == [];
  }

  lemma NormalIs(e0: Entries, project: Entries, sorted: Entries, publish: Entries, tables: Entries)
    ensures Concat(Concat(Concat(Concat(e0, Entry("project", Tab(project), End)), Entry("plugins", Tab(sorted), End)), publish), tables)
         == Concat(e0, Entry("project", Tab(project), Entry("plugins", Tab(sorted), Concat(publish, tables))))
  {
    var a, b := Entry("project", Tab(project), End), Entry("plugins", Tab(sorted), End);
    ConcatAssoc(Concat(Concat(e0, a), b), publish, tables);
    ConcatAssoc(Concat(e0, a), b, Concat(publish, tables));
    ConcatAssoc(e0, a, Concat(b, Concat(publish, tables)));
  }

  lemma ManifestTokensAre(m: Entries, pins: seq<Pin>)
    ensures ManifestTokens(m, pins) + [Nothing] ==
      RootTokens(Extras(m))
      + (SectionTokens(["project"], NormalProject(TableOf(m, "project")))
         + (PluginTokens(pins) + (PublishTokens(TableOf(m, "publish")) + (SubtableTokens([], Extras(m)) + [Nothing]))))
  {
    hide RootTokens, SectionTokens, PluginTokens, PublishTokens, SubtableTokens;
  }

  /** Every section starts with its header. */
  lemma TailsOpen(m: Entries, pins: seq<Pin>)
    ensures var tables := SubtableTokens([], Extras(m)) + [Nothing];
      var third := PublishTokens(TableOf(m, "publish")) + tables;
      var second := PluginTokens(pins) + third;
      Opens(tables) && Opens(third) && Opens(second)
      && Opens(SectionTokens(["project"], NormalProject(TableOf(m, "project"))) + second)
  {
    SubtablesOpen([], Extras(m));
    LastOpens();
    var tables := SubtableTokens([], Extras(m)) + [Nothing];
    OpensConcat(SubtableTokens([], Extras(m)), [Nothing]);
    PublishOpens(TableOf(m, "publish"));
    OpensConcat(PublishTokens(TableOf(m, "publish")), tables);
    var third := PublishTokens(TableOf(m, "publish")) + tables;
    PluginsOpen(pins);
    OpensConcat(PluginTokens(pins), third);
    SectionOpens("project", NormalProject(TableOf(m, "project")));
    OpensConcat(SectionTokens(["project"], NormalProject(TableOf(m, "project"))), PluginTokens(pins) + third);
  }

  lemma SectionOpens(key: string, e: Entries)
    ensures Opens(SectionTokens([key], e))
  {
    assert SectionTokens([key], e)[0] == Header([key]);
  }

  lemma PublishOpens(p: Entries)
    ensures Opens(PublishTokens(p))
  {
    SectionOpens("publish", NormalPublish(p));
  }

  lemma PluginsOpen(pins: seq<Pin>)
    ensures Opens(PluginTokens(pins))
  {
    assert PluginTokens(pins)[0] == Header(["plugins"]);
  }

  // ── the theorems ──────────────────────────────────────────────────────

  /**
   A TOML reader applied to what `freeze` printed gives the normal form of the
   manifest, exactly when every string that goes through `json.dumps` is inside
   the BMP; otherwise it refuses the file.
   */
  lemma ReadsBack(m: Entries, pins: seq<Pin>)
    requires DistinctEntries(m) && RawManifest(m, pins)
    ensures ReadDocument(Render(m, pins)) == if ReadableManifest(m) then Some(Normal(m, pins)) else None
  {
    hide RawText, PlainPins, DistinctPins, DistinctEntries, ReadLines, ReadableManifest, Build, InsideOpened, Normal, ManifestTokens, ManifestLines;
    RawPins(m, pins);
    SortedPins(pins);
    ReadsManifest(m, pins);
    LastLine();
    assert Join(ManifestLines(m, pins)) + "" == Render(m, pins);
    ManifestInside(m, pins);
    BuildManifest(m, pins);
  }

  lemma LastLine()
    ensures ReadLines("") == Some([Nothing])
  {
  }

  lemma RawPins(m: Entries, pins: seq<Pin>)
    requires RawManifest(m, pins)
    ensures PlainPins(pins) && DistinctPins(pins)
  {
  }
}
