/** What the normal form of a manifest keeps, and what a second freeze prints. */
module FreezeMeaning {
  import opened Wrappers
  import opened Sequences
  import opened TomlText
  import opened TomlReader
  import opened ProjectManifest
  import opened ManifestTypes
  import opened ManifestReading
  import opened ManifestNormal
  import opened ManifestRoundTrip
  import opened FreezeRoundTrip

  // ── a table as a dict ─────────────────────────────────────────────────

  /** A value as Python compares it: tables are dicts, whatever their order. */
  datatype Meaning = Leaf(value: Value) | Dict(entries: map<string, Meaning>)

  function Mean(v: Value): Meaning {
    if v.Tab? then Dict(MeanEntries(v.entries)) else Leaf(v)
  }

  function MeanEntries(e: Entries): map<string, Meaning> {
    if e.End? then map[] else MeanEntries(e.rest)[e.key := Mean(e.value)]
  }

  lemma MeanKeys(e: Entries)
    ensures MeanEntries(e).Keys == Keys(e)
  {
  }

  lemma {:induction false} MeanConcat(a: Entries, b: Entries)
    requires Keys(a) !! Keys(b)
    ensures MeanEntries(Concat(a, b)) == MeanEntries(b) + MeanEntries(a)
  {
    MeanKeys(a);
    MeanKeys(b);
    if a.Entry? { MeanConcat(a.rest, b); }
  }

  /** Moving the tables behind the pairs, at every depth, keeps the dict. */
  lemma {:induction false} NormalTableMeans(t: Entries)
    requires DistinctEntries(t)
    ensures MeanEntries(NormalTable(t)) == MeanEntries(t)
    decreases t, 1
  {
    FilteredDistinct(t, {});
    MeanConcat(Scalars(t), NormalTables(t));
    NormalTablesMean(t);
  }

  lemma {:induction false} NormalTablesMean(t: Entries)
    requires DistinctEntries(t)
    ensures MeanEntries(NormalTables(t)) + MeanEntries(Scalars(t)) == MeanEntries(t)
    decreases t, 0
  {
    if t.Entry? {
      NormalTablesMean(t.rest);
      FilteredKeys(t.rest, {});
      MeanKeys(NormalTables(t.rest));
      MeanKeys(Scalars(t.rest));
      if t.value.Tab? {
        NormalTableMeans(t.value.entries);
        assert t.key !in MeanEntries(Scalars(t.rest));
      }
    }
  }

  lemma {:induction false} NormalTablesGet(t: Entries, key: string)
    requires DistinctEntries(t)
    ensures key in Keys(t) ==> (key in Keys(Scalars(t)) <==> !Get(t, key).Tab?) && (key in Keys(NormalTables(t)) <==> Get(t, key).Tab?)
    ensures key in Keys(Scalars(t)) ==> key in Keys(t) && Get(Scalars(t), key) == Get(t, key)
    ensures key in Keys(NormalTables(t)) ==> key in Keys(t) && Mean(Get(NormalTables(t), key)) == Mean(Get(t, key))
  {
    if t.Entry? {
      NormalTablesGet(t.rest, key);
      FilteredKeys(t.rest, {});
      if t.value.Tab? { NormalTableMeans(t.value.entries); }
    }
  }

  lemma WithoutGet(e: Entries, names: set<string>, key: string)
    requires key !in names
    ensures key in Keys(Without(e, names)) <==> key in Keys(e)
    ensures key in Keys(e) ==> Get(Without(e, names), key) == Get(e, key)
  {
    FilteredKeys(e, names);
  }

  /** Every key `freeze` does not own means what it meant. */
  lemma UserKeysKept(m: Entries, pins: seq<Pin>, key: string)
    requires DistinctEntries(m) && key !in {"project", "plugins", "publish"}
    ensures key in Keys(Normal(m, pins)) <==> key in Keys(m)
    ensures key in Keys(m) ==> Mean(Get(Normal(m, pins), key)) == Mean(Get(m, key))
  {
    hide DistinctEntries, NormalProject, PinEntries, SortPins, NormalTables, Scalars, TableOf, Extras, PublishEntry;
    NormalParts(m, pins, key);
    ExtrasDistinct(m);
    ExtrasGet(m, key);
    NormalTablesGet(Extras(m), key);
  }

  lemma ExtrasGet(m: Entries, key: string)
    requires key !in MANAGED
    ensures key in Keys(Extras(m)) <==> key in Keys(m)
    ensures key in Keys(m) ==> Get(Extras(m), key) == Get(m, key)
  {
    WithoutGet(m, MANAGED, key);
  }

  /** Where a key of the user's is in the normal form. */
  lemma NormalParts(m: Entries, pins: seq<Pin>, key: string)
    requires key !in MANAGED
    ensures key in Keys(Normal(m, pins)) <==> key in Keys(Scalars(Extras(m))) || key in Keys(NormalTables(Extras(m)))
    ensures key in Keys(Scalars(Extras(m))) ==> Get(Normal(m, pins), key) == Get(Scalars(Extras(m)), key)
    ensures key !in Keys(Scalars(Extras(m))) && key in Keys(NormalTables(Extras(m))) ==>
              Get(Normal(m, pins), key) == Get(NormalTables(Extras(m)), key)
  {
    hide Scalars, NormalTables, Extras, TableOf, NormalProject, PinEntries, SortPins, PublishEntry;
    assert "project" in MANAGED && "plugins" in MANAGED && "publish" in MANAGED;
    var publish, tables := PublishEntry(TableOf(m, "publish")), NormalTables(Extras(m));
    PublishEntryKeys(TableOf(m, "publish"));
    ConcatKeys(publish, tables);
    var tail := Concat(publish, tables);
    var plugins := Entry("plugins", Tab(PinEntries(SortPins(pins))), tail);
    var project := Entry("project", Tab(NormalProject(TableOf(m, "project"))), plugins);
    ConcatKeys(Scalars(Extras(m)), project);
    assert Keys(project) == {"project"} + ({"plugins"} + Keys(tail));
    if key in Keys(Scalars(Extras(m))) + Keys(project) { ConcatGet(Scalars(Extras(m)), project, key); }
    if key in Keys(publish) + Keys(tables) {
      ConcatGet(publish, tables, key);
      assert Get(project, key) == Get(plugins, key) == Get(tail, key);
    }
  }

  /** The three managed tables of the normal form. */
  lemma ManagedParts(m: Entries, pins: seq<Pin>)
    ensures TableOf(Normal(m, pins), "project") == NormalProject(TableOf(m, "project"))
    ensures TableOf(Normal(m, pins), "plugins") == PinEntries(SortPins(pins))
    ensures TableOf(Normal(m, pins), "publish")
         == if TableOf(m, "publish").End? then End else NormalPublish(TableOf(m, "publish"))
    ensures TableOrNothing(Normal(m, pins), "project") && TableOrNothing(Normal(m, pins), "publish")
  {
    hide Scalars, NormalTables, Extras, NormalProject, PinEntries, SortPins, NormalPublish;
    DifferentNames();
    ExtraKeys(m);
    var scalars, tables := Scalars(Extras(m)), NormalTables(Extras(m));
    assert "project" in MANAGED && "plugins" in MANAGED && "publish" in MANAGED;
    ManagedTail(TableOf(m, "publish"), tables);
    var tail := Concat(PublishEntry(TableOf(m, "publish")), tables);
    var plugins := Entry("plugins", Tab(PinEntries(SortPins(pins))), tail);
    var project := Entry("project", Tab(NormalProject(TableOf(m, "project"))), plugins);
    ConcatTable(scalars, project, "project");
    ConcatTable(scalars, project, "plugins");
    ConcatTable(scalars, project, "publish");
    SkipTable("project", project.value, plugins, "plugins");
    SkipTable("project", project.value, plugins, "publish");
    SkipTable("plugins", plugins.value, tail, "publish");
  }

  lemma ManagedTail(p: Entries, tables: Entries)
    requires "publish" !in Keys(tables)
    ensures TableOf(Concat(PublishEntry(p), tables), "publish") == if p.End? then End else NormalPublish(p)
    ensures TableOrNothing(Concat(PublishEntry(p), tables), "publish")
  {
  }

  lemma ConcatTable(a: Entries, b: Entries, key: string)
    requires key !in Keys(a)
    ensures TableOf(Concat(a, b), key) == TableOf(b, key)
    ensures TableOrNothing(Concat(a, b), key) <==> TableOrNothing(b, key)
  {
    ConcatKeys(a, b);
    if key in Keys(b) { ConcatGet(a, b, key); }
  }

  lemma SkipTable(k: string, v: Value, rest: Entries, key: string)
    requires k != key
    ensures TableOf(Entry(k, v, rest), key) == TableOf(rest, key)
    ensures TableOrNothing(Entry(k, v, rest), key) <==> TableOrNothing(rest, key)
  {
  }

  /** The pins are exactly those given, each under its id. */
  lemma PinsReplaced(m: Entries, pins: seq<Pin>, p: Pin)
    requires DistinctPins(pins) && p in pins
    ensures var plugins := TableOf(Normal(m, pins), "plugins");
      Keys(plugins) == Ids(pins) && p.id in Keys(plugins) && Get(plugins, p.id) == PinTable(p)
  {
    ManagedParts(m, pins);
    SortedPins(pins);
    SortKeepsPins(pins);
    PinKeys(SortPins(pins));
    assert p in multiset(pins);
    PinFound(SortPins(pins), p);
  }

  /** `[project]`: every key of the user's as it was. */
  lemma ProjectUserKeys(p: Entries, key: string)
    requires DistinctEntries(p) && key !in {"name", "format_version", "requires_codefyui"}
    ensures key in Keys(NormalProject(p)) <==> key in Keys(p)
    ensures key in Keys(p) ==> Get(NormalProject(p), key) == Get(p, key)
  {
    hide Without, FormatVersion, TextOf;
    OptionalKeys(p, "requires_codefyui");
    FilteredKeys(p, PROJECT_KEYS);
    var optional, others := Optional(p, "requires_codefyui"), Without(p, PROJECT_KEYS);
    assert "name" in PROJECT_KEYS && "format_version" in PROJECT_KEYS && "requires_codefyui" in PROJECT_KEYS;
    ConcatKeys(optional, others);
    WithoutGet(p, PROJECT_KEYS, key);
    if key in Keys(others) { ConcatGet(optional, others, key); }
  }

  /** `[project]`: the managed fields filled in, and read back as they were. */
  lemma ProjectKept(p: Entries)
    requires DistinctEntries(p)
    ensures TextOf(NormalProject(p), "name") == TextOf(p, "name")
    ensures FormatVersion(NormalProject(p)) == FormatVersion(p)
    ensures TextOf(NormalProject(p), "requires_codefyui") == TextOf(p, "requires_codefyui")
    ensures Without(NormalProject(p), PROJECT_KEYS) == Without(p, PROJECT_KEYS)
  {
    hide Without, FormatVersion, TextOf, Optional;
    DifferentNames();
    FilteredKeys(p, PROJECT_KEYS);
    var optional, others := Optional(p, "requires_codefyui"), Without(p, PROJECT_KEYS);
    assert "name" in PROJECT_KEYS && "format_version" in PROJECT_KEYS && "requires_codefyui" in PROJECT_KEYS;
    var rest := Concat(optional, others);
    var version := Entry("format_version", Int(FormatVersion(p)), rest);
    TextHead("name", TextOf(p, "name"), version);
    VersionAt("name", Str(TextOf(p, "name")), FormatVersion(p), rest);
    OptionalText(p, "requires_codefyui", others);
    TextSkip("format_version", Int(FormatVersion(p)), rest, "requires_codefyui");
    TextSkip("name", Str(TextOf(p, "name")), version, "requires_codefyui");
    WithoutHead("name", Str(TextOf(p, "name")), version, PROJECT_KEYS);
    WithoutHead("format_version", Int(FormatVersion(p)), rest, PROJECT_KEYS);
    WithoutConcat(optional, others, PROJECT_KEYS);
    WithoutOptional(p, "requires_codefyui", PROJECT_KEYS);
    WithoutTwice(p, PROJECT_KEYS);
    assert Concat(End, others) == others;
  }

  lemma TextHead(key: string, text: string, rest: Entries)
    ensures TextOf(Entry(key, Str(text), rest), key) == text
  {
  }

  lemma TextSkip(k: string, v: Value, rest: Entries, key: string)
    requires k != key
    ensures TextOf(Entry(k, v, rest), key) == TextOf(rest, key)
  {
  }

  lemma VersionAt(k: string, v: Value, n: int, rest: Entries)
    requires k != "format_version"
    ensures FormatVersion(Entry(k, v, Entry("format_version", Int(n), rest))) == n
  {
    var e := Entry("format_version", Int(n), rest);
    assert "format_version" in Keys(e) && Get(e, "format_version") == Int(n);
    assert "format_version" in Keys(Entry(k, v, e)) && Get(Entry(k, v, e), "format_version") == Int(n);
  }

  lemma OptionalText(e: Entries, key: string, others: Entries)
    requires key !in Keys(others)
    ensures TextOf(Concat(Optional(e, key), others), key) == TextOf(e, key)
  {
  }

  lemma WithoutHead(key: string, value: Value, rest: Entries, names: set<string>)
    requires key in names
    ensures Without(Entry(key, value, rest), names) == Without(rest, names)
  {
  }

  lemma WithoutConcat(a: Entries, b: Entries, names: set<string>)
    ensures Without(Concat(a, b), names) == Concat(Without(a, names), Without(b, names))
  {
  }

  lemma WithoutOptional(e: Entries, key: string, names: set<string>)
    requires key in names
    ensures Without(Optional(e, key), names) == End
  {
  }

  lemma WithoutTwice(e: Entries, names: set<string>)
    ensures Without(Without(e, names), names) == Without(e, names)
  {
  }

  /** `[publish]`: empty targets dropped, `record_io` a boolean, every other key as it was. */
  lemma PublishKept(p: Entries)
    requires DistinctEntries(p)
    ensures TextOf(NormalPublish(p), "graph") == TextOf(p, "graph")
    ensures TextOf(NormalPublish(p), "slug") == TextOf(p, "slug")
    ensures RecordIo(NormalPublish(p)) == RecordIo(p)
    ensures Without(NormalPublish(p), PUBLISH_KEYS) == Without(p, PUBLISH_KEYS)
  {
    hide Without;
    DifferentNames();
    FilteredKeys(p, PUBLISH_KEYS);
    RecordIoKeys(p);
    OptionalKeys(p, "graph");
    OptionalKeys(p, "slug");
    var graph, slug, io, others := Optional(p, "graph"), Optional(p, "slug"), RecordIo(p), Without(p, PUBLISH_KEYS);
    assert {"graph", "slug", "record_io"} == PUBLISH_KEYS;
    ConcatKeys(io, others);
    ConcatKeys(slug, Concat(io, others));
    OptionalText(p, "graph", Concat(slug, Concat(io, others)));
    OptionalText(p, "slug", Concat(io, others));
    ConcatText(graph, Concat(slug, Concat(io, others)), "slug");
    PublishRecordIo(p);
    WithoutConcat(graph, Concat(slug, Concat(io, others)), PUBLISH_KEYS);
    WithoutConcat(slug, Concat(io, others), PUBLISH_KEYS);
    WithoutConcat(io, others, PUBLISH_KEYS);
    WithoutOptional(p, "graph", PUBLISH_KEYS);
    WithoutOptional(p, "slug", PUBLISH_KEYS);
    WithoutRecordIo(p);
    WithoutTwice(p, PUBLISH_KEYS);
  }

  /** Unknown keys of `[publish]` keep their values as well. */
  lemma PublishUserKeys(p: Entries, key: string)
    requires DistinctEntries(p) && key !in {"graph", "slug", "record_io"}
    ensures key in Keys(NormalPublish(p)) <==> key in Keys(p)
    ensures key in Keys(p) ==> Get(NormalPublish(p), key) == Get(p, key)
  {
    RecordIoKeys(p);
    hide Without, TextOf, RecordIo, Optional;
    OptionalKeys(p, "graph");
    OptionalKeys(p, "slug");
    var graph, slug, io, others := Optional(p, "graph"), Optional(p, "slug"), RecordIo(p), Without(p, PUBLISH_KEYS);
    ConcatKeys(io, others);
    ConcatKeys(slug, Concat(io, others));
    ConcatKeys(graph, Concat(slug, Concat(io, others)));
    WithoutGet(p, PUBLISH_KEYS, key);
    if key in Keys(others) {
      ConcatGet(io, others, key);
      ConcatGet(slug, Concat(io, others), key);
      ConcatGet(graph, Concat(slug, Concat(io, others)), key);
    }
  }

  lemma ConcatText(a: Entries, b: Entries, key: string)
    requires key !in Keys(a)
    ensures TextOf(Concat(a, b), key) == TextOf(b, key)
  {
    ConcatKeys(a, b);
    if key in Keys(b) { ConcatGet(a, b, key); }
  }

  lemma WithoutRecordIo(p: Entries)
    ensures Without(RecordIo(p), PUBLISH_KEYS) == End
  {
  }

  lemma PublishRecordIo(p: Entries)
    requires DistinctEntries(p)
    ensures RecordIo(NormalPublish(p)) == RecordIo(p)
  {
    PublishDistinct(p);
    OptionalKeys(p, "graph");
    OptionalKeys(p, "slug");
    FilteredKeys(p, PUBLISH_KEYS);
    hide Optional, Without, TextOf;
    DifferentNames();
    var graph, slug, others := Optional(p, "graph"), Optional(p, "slug"), Without(p, PUBLISH_KEYS);
    ConcatKeys(RecordIo(p), others);
    ConcatKeys(slug, Concat(RecordIo(p), others));
    if "record_io" in Keys(p) {
      ConcatGet(graph, Concat(slug, Concat(RecordIo(p), others)), "record_io");
      ConcatGet(slug, Concat(RecordIo(p), others), "record_io");
      ConcatGet(RecordIo(p), others, "record_io");
    }
  }

  // ── freezing again ────────────────────────────────────────────────────

  lemma ScalarsConcat(a: Entries, b: Entries)
    ensures Scalars(Concat(a, b)) == Concat(Scalars(a), Scalars(b))
  {
  }

  lemma ScalarsOfNormal(t: Entries)
    ensures Scalars(Scalars(t)) == Scalars(t) && Scalars(NormalTables(t)) == End
  {
  }

  lemma {:induction false} TableAgain(header: string, t: Entries)
    ensures TableLines(header, NormalTable(t)) == TableLines(header, t)
    decreases t, 1
  {
    hide PairLines;
    ScalarsConcat(Scalars(t), NormalTables(t));
    ScalarsOfNormal(t);
    ConcatEnd(Scalars(t));
    SubtablesConcat(header, Scalars(t), NormalTables(t));
    SubtablesOfScalars(header, t);
    SubtablesAgain(header, t);
  }

  lemma {:induction false} SubtablesAgain(header: string, t: Entries)
    ensures SubtableLines(header, NormalTables(t)) == SubtableLines(header, t)
    decreases t, 0
  {
    hide TableLines, NormalTable, KeyText;
    if t.Entry? {
      SubtablesAgain(header, t.rest);
      if t.value.Tab? { TableAgain(header + "." + KeyText(t.key), t.value.entries); }
    }
  }

  lemma SubtablesConcat(header: string, a: Entries, b: Entries)
    ensures SubtableLines(header, Concat(a, b)) == SubtableLines(header, a) + SubtableLines(header, b)
  {
    hide TableLines, KeyText;
    if a.Entry? {
      SubtablesConcat(header, a.rest, b);
      if a.value.Tab? {
        Associative(TableLines(header + "." + KeyText(a.key), a.value.entries), SubtableLines(header, a.rest), SubtableLines(header, b));
      }
    }
  }

  lemma SubtablesOfScalars(header: string, t: Entries)
    ensures SubtableLines(header, Scalars(t)) == []
  {
  }

  lemma ExtrasConcat(a: Entries, b: Entries)
    ensures ExtraLines(Concat(a, b)) == ExtraLines(a) + ExtraLines(b)
  {
    hide TableLines, KeyText;
    if a.Entry? {
      ExtrasConcat(a.rest, b);
      if a.value.Tab? { Associative(TableLines(KeyText(a.key), a.value.entries), ExtraLines(a.rest), ExtraLines(b)); }
    }
  }

  lemma {:induction false} ExtrasAgain(t: Entries)
    ensures ExtraLines(Scalars(t)) == [] && ExtraLines(NormalTables(t)) == ExtraLines(t)
  {
    hide TableLines, NormalTable, KeyText;
    if t.Entry? {
      ExtrasAgain(t.rest);
      if t.value.Tab? { TableAgain(KeyText(t.key), t.value.entries); }
    }
  }

  lemma WithoutDisjoint(e: Entries, names: set<string>)
    requires Keys(e) !! names
    ensures Without(e, names) == e
  {
  }

  /** The user's part of the normal form. */
  lemma ExtrasOfNormal(m: Entries, pins: seq<Pin>)
    ensures Extras(Normal(m, pins)) == NormalTable(Extras(m))
  {
    hide Scalars, NormalTables, NormalProject, PinEntries, SortPins, PublishEntry, Without, Extras;
    ExtraKeys(m);
    var scalars, tables, publish := Scalars(Extras(m)), NormalTables(Extras(m)), PublishEntry(TableOf(m, "publish"));
    var plugins := Entry("plugins", Tab(PinEntries(SortPins(pins))), Concat(publish, tables));
    var project := Entry("project", Tab(NormalProject(TableOf(m, "project"))), plugins);
    assert "project" in MANAGED && "plugins" in MANAGED;
    ExtrasIs(Normal(m, pins));
    WithoutConcat(scalars, project, MANAGED);
    WithoutHead("project", project.value, plugins, MANAGED);
    WithoutHead("plugins", plugins.value, Concat(publish, tables), MANAGED);
    WithoutConcat(publish, tables, MANAGED);
    WithoutPublish(TableOf(m, "publish"));
    WithoutDisjoint(scalars, MANAGED);
    WithoutDisjoint(tables, MANAGED);
  }

  lemma ExtrasIs(m: Entries)
    ensures Extras(m) == Without(m, MANAGED)
  {
  }

  lemma WithoutPublish(p: Entries)
    ensures Without(PublishEntry(p), MANAGED) == End
  {
  }

  /** The one thing a second freeze prints differently: a `[publish]` that held only empty targets is gone. */
  predicate OnlyEmptyTargets(p: Entries) {
    p.Entry? && Keys(p) <= {"graph", "slug"} && forall key | key in Keys(p) :: !Truthy(Get(p, key))
  }

  /** Exactly then nothing of it is printed. */
  lemma NothingToPublish(p: Entries)
    requires TextOrNothing(p, "graph") && TextOrNothing(p, "slug")
    ensures OnlyEmptyTargets(p) <==> p.Entry? && NormalPublish(p).End?
  {
    hide Truthy, TextOf, TextOrNothing, Optional, RecordIo, Without;
    DifferentNames();
    var io, others := RecordIo(p), Without(p, PUBLISH_KEYS);
    OptionalNone(p, "graph");
    OptionalNone(p, "slug");
    RecordIoNone(p);
    FilteredKeys(p, PUBLISH_KEYS);
    EndHasNoKeys(others);
    OnlyTargets(Keys(p));
    ConcatNone(io, others);
    ConcatNone(Optional(p, "slug"), Concat(io, others));
    ConcatNone(Optional(p, "graph"), Concat(Optional(p, "slug"), Concat(io, others)));
  }

  lemma OnlyTargets(keys: set<string>)
    ensures keys <= {"graph", "slug"} <==> "record_io" !in keys && keys - PUBLISH_KEYS == {}
  {
    DifferentNames();
    if "record_io" !in keys && keys - PUBLISH_KEYS == {} {
      forall key | key in keys ensures key in {"graph", "slug"} {
        assert key !in keys - PUBLISH_KEYS;
      }
    }
  }

  lemma ConcatNone(a: Entries, b: Entries)
    ensures Concat(a, b).End? <==> a.End? && b.End?
  {
  }

  lemma OptionalNone(p: Entries, key: string)
    requires TextOrNothing(p, key)
    ensures Optional(p, key).End? <==> (key in Keys(p) ==> !Truthy(Get(p, key)))
  {
  }

  lemma RecordIoNone(p: Entries)
    ensures RecordIo(p).End? <==> "record_io" !in Keys(p)
  {
  }

  lemma TypedTargets(p: Entries, py: Python)
    ensures OnlyEmptyTargets(TypedPublish(p, py)) <==> OnlyEmptyTargets(p)
    ensures TextOrNothing(TypedPublish(p, py), "graph") && TextOrNothing(TypedPublish(p, py), "slug")
  {
    hide Shown, ShownAt, Truthy;
    DifferentNames();
    TypedPublishSays(p, py);
    TypedTruth(p, py);
  }

  /** Printing a field as text does not change whether it is true. */
  lemma TypedTruth(p: Entries, py: Python)
    ensures Keys(TypedPublish(p, py)) == Keys(p)
    ensures forall key | key in Keys(p) && key in {"graph", "slug"} :: Truthy(Get(TypedPublish(p, py), key)) == Truthy(Get(p, key))
  {
    DifferentNames();
    var a := ShownAt(p, "graph", false, py);
    ShownAtTruth(p, "graph", py);
    ShownAtTruth(a, "slug", py);
  }

  lemma ShownAtTruth(e: Entries, key: string, py: Python)
    ensures SameBut(ShownAt(e, key, false, py), e, key)
    ensures key in Keys(e) ==> Truthy(Get(ShownAt(e, key, false, py), key)) == Truthy(Get(e, key))
  {
    hide Shown;
    if key in Keys(e) && Truthy(Get(e, key)) {
      PutSays(e, key, Str(Shown(Get(e, key), py)));
      ShownTrue(Get(e, key), py);
    }
  }

  lemma SectionsAgain(m: Entries, pins: seq<Pin>)
    requires DistinctEntries(m) && TextOrNothing(TableOf(m, "publish"), "graph") && TextOrNothing(TableOf(m, "publish"), "slug")
    ensures var n := Normal(m, pins);
      && RootLines(n) == RootLines(m)
      && ProjectLines(TableOf(n, "project")) == ProjectLines(TableOf(m, "project"))
      && ExtraLines(Extras(n)) == ExtraLines(Extras(m))
      && PublishLines(TableOf(n, "publish"))
         == if OnlyEmptyTargets(TableOf(m, "publish")) then [] else PublishLines(TableOf(m, "publish"))
  {
    hide PairLines, TableLines, NormalTables, Normal, Scalars, OptionalLine, NormalProject, NormalPublish, RawLine, Without,
         TextOf, FormatVersion, Extras, TableOf, DistinctEntries, ExtraLines, OnlyEmptyTargets, TextOrNothing;
    var x := Extras(m);
    ExtrasOfNormal(m, pins);
    ManagedParts(m, pins);
    TableDistinct(m, "project");
    TableDistinct(m, "publish");
    ProjectKept(TableOf(m, "project"));
    ScalarsConcat(Scalars(x), NormalTables(x));
    ScalarsOfNormal(x);
    ConcatEnd(Scalars(x));
    ExtrasConcat(Scalars(x), NormalTables(x));
    ExtrasAgain(x);
    OptionalAgain(NormalProject(TableOf(m, "project")), TableOf(m, "project"), "requires_codefyui");
    NothingToPublish(TableOf(m, "publish"));
    PublishAgain(TableOf(m, "publish"));
  }

  lemma OptionalAgain(a: Entries, b: Entries, key: string)
    requires TextOf(a, key) == TextOf(b, key)
    ensures OptionalLine(a, key) == OptionalLine(b, key)
  {
  }

  lemma PublishAgain(p: Entries)
    requires DistinctEntries(p)
    ensures PublishPairs(NormalPublish(p)) == PublishPairs(p)
  {
    hide PairLines, OptionalLine, NormalPublish, Without, TextOf;
    PublishKept(p);
    OptionalAgain(NormalPublish(p), p, "graph");
    OptionalAgain(NormalPublish(p), p, "slug");
    RecordIoAgain(NormalPublish(p), p);
  }

  lemma RecordIoAgain(a: Entries, b: Entries)
    requires RecordIo(a) == RecordIo(b)
    ensures RecordIoLine(a) == RecordIoLine(b)
  {
  }

  lemma RenderTwice(m: Entries, pins: seq<Pin>)
    requires DistinctEntries(m) && TextOrNothing(TableOf(m, "publish"), "graph") && TextOrNothing(TableOf(m, "publish"), "slug")
    ensures Render(Normal(m, pins), pins) == Render(m, pins) <==> !OnlyEmptyTargets(TableOf(m, "publish"))
  {
    hide RootLines, ProjectLines, PluginLines, ExtraLines, Join, Normal, OnlyEmptyTargets, DistinctEntries, Extras, TableOf, PublishLines, TextOrNothing;
    SectionsAgain(m, pins);
    if OnlyEmptyTargets(TableOf(m, "publish")) {
      var before := RootLines(m) + ProjectLines(TableOf(m, "project")) + PluginLines(pins);
      EmptyTargets(TableOf(m, "publish"));
      assert before + [] == before;
      FewerLines(before, PublishLines(TableOf(m, "publish")), ExtraLines(Extras(m)));
    }
  }

  /** What `freeze` wrote has the types it prints. */
  lemma NormalIsTyped(m: Entries, pins: seq<Pin>, py: Python)
    ensures Typed(Normal(m, pins), py) == Ok(Normal(m, pins))
  {
    hide Normal, TypedProject, TypedPublish, NormalProject, NormalPublish;
    var n := Normal(m, pins);
    ManagedParts(m, pins);
    NormalProjectTyped(TableOf(m, "project"), py);
    NormalPublishTyped(TableOf(m, "publish"), py);
    NothingTyped(py);
    TableBack(n, "project");
    TableBack(n, "publish");
  }

  lemma TableBack(m: Entries, key: string)
    ensures PutTable(m, key, TableOf(m, key)) == m
  {
    if key in Keys(m) && Get(m, key).Tab? { PutBack(m, key); }
  }

  lemma NormalProjectTyped(p: Entries, py: Python)
    ensures TypedProject(NormalProject(p), py) == Ok(NormalProject(p))
  {
    hide ShownAt, Without, FormatVersion, TextOf;
    DifferentNames();
    var n := NormalProject(p);
    var optional, others := Optional(p, "requires_codefyui"), Without(p, PROJECT_KEYS);
    FilteredKeys(p, PROJECT_KEYS);
    ConcatKeys(optional, others);
    assert "requires_codefyui" in PROJECT_KEYS;
    var rest := Entry("format_version", Int(FormatVersion(p)), Concat(optional, others));
    assert Keys(n) == {"name"} + Keys(rest) && Keys(rest) == {"format_version"} + Keys(Concat(optional, others));
    if "requires_codefyui" in Keys(n) { ConcatGet(optional, others, "requires_codefyui"); }
    TextStays(n, "name", true, py);
    TextStays(n, "requires_codefyui", false, py);
    PutBack(n, "format_version");
  }

  lemma NormalPublishTyped(p: Entries, py: Python)
    ensures TypedPublish(NormalPublish(p), py) == NormalPublish(p)
  {
    hide ShownAt, Without, TextOf;
    DifferentNames();
    FilteredKeys(p, PUBLISH_KEYS);
    RecordIoKeys(p);
    var graph, slug, io, others := Optional(p, "graph"), Optional(p, "slug"), RecordIo(p), Without(p, PUBLISH_KEYS);
    var n := NormalPublish(p);
    assert "graph" in PUBLISH_KEYS && "slug" in PUBLISH_KEYS;
    OptionalKeys(p, "graph");
    OptionalKeys(p, "slug");
    ConcatKeys(io, others);
    ConcatKeys(slug, Concat(io, others));
    ConcatKeys(graph, Concat(slug, Concat(io, others)));
    if "graph" in Keys(n) { ConcatGet(graph, Concat(slug, Concat(io, others)), "graph"); }
    if "slug" in Keys(n) {
      ConcatGet(graph, Concat(slug, Concat(io, others)), "slug");
      ConcatGet(slug, Concat(io, others), "slug");
    }
    TextStays(n, "graph", false, py);
    TextStays(n, "slug", false, py);
  }

  /**
   A second freeze with the same pins finds nothing to convert and writes the
   same text, unless `[publish]` held only empty targets.
   */
  lemma FreezeTwice(m: Entries, pins: seq<Pin>, py: Python)
    requires DistinctEntries(m) && Typed(m, py).Ok?
    ensures var t := Typed(m, py).value;
      var n := Normal(t, pins);
      Typed(n, py) == Ok(n) && (Render(n, pins) == Render(t, pins) <==> !OnlyEmptyTargets(TableOf(m, "publish")))
  {
    hide Normal, OnlyEmptyTargets, DistinctEntries, Typed, Render, TextOrNothing, TypedPublish, TypedProject;
    var t := Typed(m, py).value;
    TypedDistinct(m, py);
    TypedParts(m, py);
    TypedTargets(TableOf(m, "publish"), py);
    RenderTwice(t, pins);
    NormalIsTyped(t, pins, py);
  }

  lemma EmptyTargets(p: Entries)
    requires OnlyEmptyTargets(p)
    ensures |PublishLines(p)| > 0
  {
  }

  lemma {:induction false} JoinGrows(lines: seq<string>)
    ensures |Join(lines)| >= |lines|
  {
    if lines != [] { JoinGrows(lines[1..]); }
  }

  /** Without some of its lines, a text is shorter. */
  lemma FewerLines(a: seq<string>, b: seq<string>, c: seq<string>)
    requires b != []
    ensures Join(a + c) != Join(a + b + c)
  {
    hide Join;
    JoinConcat(a + b, c);
    JoinConcat(a, b);
    JoinConcat(a, c);
    JoinGrows(b);
  }

  // ── what is read back of the user's keys ──────────────────────────────

  /** `a` has `key` exactly if `b` has, with the same value. */
  predicate SameAt(a: Entries, b: Entries, key: string) {
    (key in Keys(a) <==> key in Keys(b)) && (key in Keys(b) ==> Get(a, key) == Get(b, key))
  }

  lemma TypedProjectKeys(p: Entries, py: Python, key: string)
    requires TypedProject(p, py).Ok? && key !in {"name", "format_version", "requires_codefyui"}
    ensures SameAt(TypedProject(p, py).value, p, key)
  {
    hide Shown, Truthy, Number, ShownAt;
    ShownAtSays(p, "name", true, py, {"name"});
    ShownAtSays(ShownAt(p, "name", true, py), "requires_codefyui", false, py, {"requires_codefyui"});
    TypedVersion(p, py);
  }

  lemma TypedPublishKeys(q: Entries, py: Python, key: string)
    requires key !in {"graph", "slug"}
    ensures SameAt(TypedPublish(q, py), q, key)
  {
    hide Shown, Truthy, ShownAt;
    ShownAtSays(q, "graph", false, py, {"graph"});
    ShownAtSays(ShownAt(q, "graph", false, py), "slug", false, py, {"slug"});
  }

  lemma TypedUserKeys(m: Entries, py: Python, key: string)
    requires Typed(m, py).Ok?
    ensures TypedProject(TableOf(m, "project"), py).Ok?
    ensures key !in {"name", "format_version", "requires_codefyui"} ==>
      SameAt(TypedProject(TableOf(m, "project"), py).value, TableOf(m, "project"), key)
    ensures key !in {"graph", "slug"} ==> SameAt(TypedPublish(TableOf(m, "publish"), py), TableOf(m, "publish"), key)
    ensures key !in {"project", "publish"} ==> SameAt(Typed(m, py).value, m, key)
  {
    hide TypedProject, TypedPublish, TableOf;
    var p, q := TableOf(m, "project"), TableOf(m, "publish");
    if key !in {"name", "format_version", "requires_codefyui"} { TypedProjectKeys(p, py, key); }
    if key !in {"graph", "slug"} { TypedPublishKeys(q, py, key); }
    PutTableOther(m, "project", TypedProject(p, py).value, key);
    PutTableOther(PutTable(m, "project", TypedProject(p, py).value), "publish", TypedPublish(q, py), key);
  }

  lemma TypedVersion(p: Entries, py: Python)
    requires TypedProject(p, py).Ok?
    ensures var shown := ShownAt(ShownAt(p, "name", true, py), "requires_codefyui", false, py);
      Keys(shown) == Keys(p) ==> SameBut(TypedProject(p, py).value, shown, "format_version")
  {
    hide ShownAt, Number;
    var shown := ShownAt(ShownAt(p, "name", true, py), "requires_codefyui", false, py);
    if "format_version" in Keys(p) && Keys(shown) == Keys(p) {
      PutSays(shown, "format_version", Int(Number(Get(p, "format_version"), py).value));
    }
  }

  lemma PutTableOther(m: Entries, key: string, table: Entries, other: string)
    ensures other != key ==> SameAt(PutTable(m, key, table), m, other)
  {
    if key in Keys(m) && Get(m, key).Tab? { PutSays(m, key, Tab(table)); }
  }

  /**
   What a TOML reader gets back from the printed text has every key the user
   wrote, at the top level and in `[project]` and `[publish]`, and no other,
   but for the nine this program writes itself.
   */
  lemma UserKeysReadBack(m: Entries, pins: seq<Pin>, py: Python, key: string)
    requires DistinctEntries(m) && Typed(m, py).Ok? && RawManifest(Typed(m, py).value, pins)
    requires ReadableManifest(Typed(m, py).value)
    ensures var read := ReadDocument(Render(Typed(m, py).value, pins));
      && read.Some?
      && (key !in {"project", "plugins", "publish"} ==>
            (key in Keys(read.value) <==> key in Keys(m)) && (key in Keys(m) ==> Mean(Get(read.value, key)) == Mean(Get(m, key))))
      && (key !in {"name", "format_version", "requires_codefyui"} ==>
            SameAt(TableOf(read.value, "project"), TableOf(m, "project"), key))
      && (key !in {"graph", "slug", "record_io"} ==> SameAt(TableOf(read.value, "publish"), TableOf(m, "publish"), key))
  {
    hide DistinctEntries, Normal, ReadDocument, Render, Typed, RawManifest, ReadableManifest, TypedProject, TypedPublish,
         NormalProject, NormalPublish, TableOf, Mean;
    var t := Typed(m, py).value;
    TypedDistinct(m, py);
    TypedParts(m, py);
    TypedUserKeys(m, py, key);
    TypedPublishSays(TableOf(m, "publish"), py);
    ReadsBack(t, pins);
    ManagedParts(t, pins);
    TableDistinct(t, "project");
    TableDistinct(t, "publish");
    if key !in {"project", "plugins", "publish"} { UserKeysKept(t, pins, key); }
    if key !in {"name", "format_version", "requires_codefyui"} { ProjectUserKeys(TableOf(t, "project"), key); }
    if key !in {"graph", "slug", "record_io"} { PublishUserKeys(TableOf(t, "publish"), key); }
  }
}
