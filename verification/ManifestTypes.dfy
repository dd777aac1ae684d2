/**
 The program of `_render_manifest`, over whatever `tomllib` returned: the
 managed fields need not have the types the loaders give them, and what is
 printed is the manifest in which they do.
 */
module ManifestTypes {
  import opened Wrappers
  import opened TomlText
  import opened ProjectManifest
  import opened ManifestNormal

  // ── managed fields of any type ────────────────────────────────────────

  datatype TypeError = NotATable | NotANumber

  /** What Python does with a value of another type: `int` of a text, and what `str` puts between a list's or a dict's brackets. */
  datatype Python = Python(parse: string -> Option<int>, inside: Value -> string)

  /** `str(v)` */
  function Shown(v: Value, py: Python): string {
    match v
    case Str(text) => text
    case Int(number) => Repr(number)
    case Bool(flag) => if flag then "True" else "False"
    case Arr(_) => "[" + py.inside(v) + "]"
    case Tab(_) => "{" + py.inside(v) + "}"
  }

  /** `int(v)` */
  function Number(v: Value, py: Python): Option<int> {
    match v
    case Str(text) => py.parse(text)
    case Int(number) => Some(number)
    case Bool(flag) => Some(if flag then 1 else 0)
    case _ => None
  }

  /** `table[key]` as it is printed, in its place; `always`, or only if it is true. */
  function ShownAt(e: Entries, key: string, always: bool, py: Python): Entries {
    if key in Keys(e) && (always || Truthy(Get(e, key))) then Put(e, key, Str(Shown(Get(e, key), py))) else e
  }

  function TypedProject(p: Entries, py: Python): Result<Entries, TypeError> {
    var shown := ShownAt(ShownAt(p, "name", true, py), "requires_codefyui", false, py);
    if "format_version" !in Keys(p) then Ok(shown)
    else
      var number := Number(Get(p, "format_version"), py);
      if number.None? then Err(NotANumber) else Ok(Put(shown, "format_version", Int(number.value)))
  }

  function TypedPublish(p: Entries, py: Python): Entries {
    ShownAt(ShownAt(p, "graph", false, py), "slug", false, py)
  }

  /** A table, or nothing that is true. */
  predicate TableOrNothing(m: Entries, key: string) {
    key in Keys(m) ==> Get(m, key).Tab? || !Truthy(Get(m, key))
  }

  function PutTable(m: Entries, key: string, table: Entries): Entries {
    if key in Keys(m) && Get(m, key).Tab? then Put(m, key, Tab(table)) else m
  }

  /** The manifest with its managed fields as they are printed; or what stops the program. */
  function Typed(m: Entries, py: Python): Result<Entries, TypeError> {
    if !TableOrNothing(m, "project") then Err(NotATable)
    else
      var project := TypedProject(TableOf(m, "project"), py);
      if project.Err? then Err(project.error)
      else if !TableOrNothing(m, "publish") then Err(NotATable)
      else Ok(PutTable(PutTable(m, "project", project.value), "publish", TypedPublish(TableOf(m, "publish"), py)))
  }

  /** What Python makes of a value of each type that `tomllib` returns. */
  lemma Conversions(py: Python, text: string, n: int, items: Values, entries: Entries)
    ensures Shown(Str(text), py) == text && Shown(Int(n), py) == Repr(n)
    ensures Shown(Bool(true), py) == "True" && Shown(Bool(false), py) == "False"
    ensures Shown(Arr(items), py) == "[" + py.inside(Arr(items)) + "]"
    ensures Shown(Tab(entries), py) == "{" + py.inside(Tab(entries)) + "}"
    ensures Number(Str(text), py) == py.parse(text) && Number(Int(n), py) == Some(n)
    ensures Number(Bool(true), py) == Some(1) && Number(Bool(false), py) == Some(0)
    ensures Number(Arr(items), py).None? && Number(Tab(entries), py).None?
  {
  }

  /** `[project]` or `[publish]` that is no table stops the program, unless it is false in Python's sense. */
  lemma NoTable(m: Entries, py: Python, v: Value)
    requires Keys(m) == {"project"} || Keys(m) == {"publish"}
    requires Get(m, if "project" in Keys(m) then "project" else "publish") == v && !v.Tab?
    ensures Typed(m, py) == if v in {Str(""), Int(0), Bool(false), Arr(NoMore)} then Ok(m) else Err(NotATable)
  {
    hide ShownAt;
    assert "project" != "publish";
  }

  // ── what a typed manifest says ────────────────────────────────────────

  /** The same keys with the same values, but for one of them. */
  ghost predicate SameBut(a: Entries, b: Entries, key: string) {
    Keys(a) == Keys(b) && forall k | k in Keys(b) && k != key :: Get(a, k) == Get(b, k)
  }

  lemma PutSays(e: Entries, key: string, value: Value)
    requires key in Keys(e)
    ensures SameBut(Put(e, key, value), e, key) && Get(Put(e, key, value), key) == value
  {
  }

  lemma WithoutPut(e: Entries, key: string, value: Value, names: set<string>)
    requires key in Keys(e) && key in names
    ensures Without(Put(e, key, value), names) == Without(e, names)
  {
  }

  /** `str` of what is true is not empty. */
  lemma ShownTrue(v: Value, py: Python)
    requires Truthy(v)
    ensures Shown(v, py) != ""
  {
  }

  /** A text, or nothing that is true. */
  predicate TextOrNothing(e: Entries, key: string) {
    key in Keys(e) ==> Get(e, key).Str? || !Truthy(Get(e, key))
  }

  /** What is printed of an optional field. */
  function ShownText(e: Entries, key: string, always: bool, py: Python): string {
    if key in Keys(e) && (always || Truthy(Get(e, key))) then Shown(Get(e, key), py) else ""
  }

  lemma ShownAtSays(e: Entries, key: string, always: bool, py: Python, names: set<string>)
    requires key in names
    ensures var r := ShownAt(e, key, always, py);
      && SameBut(r, e, key)
      && Without(r, names) == Without(e, names)
      && TextOf(r, key) == (if key in Keys(e) && Get(e, key).Str? then Get(e, key).text else ShownText(e, key, always, py))
      && (key in Keys(r) ==> Get(r, key).Str? || (!always && !Truthy(Get(r, key))))
  {
    if key in Keys(e) && (always || Truthy(Get(e, key))) {
      PutSays(e, key, Str(Shown(Get(e, key), py)));
      WithoutPut(e, key, Str(Shown(Get(e, key), py)), names);
    }
  }

  lemma OtherText(a: Entries, b: Entries, key: string, other: string)
    requires SameBut(a, b, key) && other != key
    ensures TextOf(a, other) == TextOf(b, other)
  {
  }

  /** A text is printed as itself. */
  lemma TextIsShown(e: Entries, key: string, always: bool, py: Python)
    requires key in Keys(e) && Get(e, key).Str?
    ensures ShownText(e, key, always, py) == Get(e, key).text
  {
  }

  lemma TypedProjectSays(p: Entries, py: Python)
    requires TypedProject(p, py).Ok?
    ensures var t := TypedProject(p, py).value;
      && TextOf(t, "name") == ShownText(p, "name", true, py)
      && TextOf(t, "requires_codefyui") == ShownText(p, "requires_codefyui", false, py)
      && FormatVersion(t) == (if "format_version" in Keys(p) then Number(Get(p, "format_version"), py).value else 1)
      && Without(t, PROJECT_KEYS) == Without(p, PROJECT_KEYS)
    ensures var t := TypedProject(p, py).value;
      && ("name" in Keys(t) ==> Get(t, "name").Str?)
      && ("format_version" in Keys(t) ==> Get(t, "format_version").Int?)
      && TextOrNothing(t, "requires_codefyui")
  {
    hide Shown, ShownAt, Without, Number, Truthy;
    DifferentNames();
    assert "name" in PROJECT_KEYS && "requires_codefyui" in PROJECT_KEYS && "format_version" in PROJECT_KEYS;
    var a := ShownAt(p, "name", true, py);
    var b := ShownAt(a, "requires_codefyui", false, py);
    ShownAtSays(p, "name", true, py, PROJECT_KEYS);
    ShownAtSays(a, "requires_codefyui", false, py, PROJECT_KEYS);
    OtherText(b, a, "requires_codefyui", "name");
    if "name" in Keys(p) && Get(p, "name").Str? { TextIsShown(p, "name", true, py); }
    if "requires_codefyui" in Keys(p) && Get(p, "requires_codefyui").Str? { TextIsShown(p, "requires_codefyui", false, py); }
    if "format_version" in Keys(p) {
      var n := Int(Number(Get(p, "format_version"), py).value);
      PutSays(b, "format_version", n);
      WithoutPut(b, "format_version", n, PROJECT_KEYS);
      OtherText(Put(b, "format_version", n), b, "format_version", "name");
      OtherText(Put(b, "format_version", n), b, "format_version", "requires_codefyui");
    }
  }

  lemma TypedPublishSays(p: Entries, py: Python)
    ensures var t := TypedPublish(p, py);
      && (t.End? <==> p.End?) && Keys(t) == Keys(p)
      && TextOf(t, "graph") == ShownText(p, "graph", false, py)
      && TextOf(t, "slug") == ShownText(p, "slug", false, py)
      && ("record_io" in Keys(p) ==> Get(t, "record_io") == Get(p, "record_io"))
      && Without(t, PUBLISH_KEYS) == Without(p, PUBLISH_KEYS)
      && TextOrNothing(t, "graph") && TextOrNothing(t, "slug")
  {
    hide Shown, ShownAt, Without, Truthy;
    DifferentNames();
    assert "graph" in PUBLISH_KEYS && "slug" in PUBLISH_KEYS;
    var a := ShownAt(p, "graph", false, py);
    ShownAtSays(p, "graph", false, py, PUBLISH_KEYS);
    ShownAtSays(a, "slug", false, py, PUBLISH_KEYS);
    OtherText(ShownAt(a, "slug", false, py), a, "slug", "graph");
    if "graph" in Keys(p) && Get(p, "graph").Str? { TextIsShown(p, "graph", false, py); }
    if "slug" in Keys(p) && Get(p, "slug").Str? { TextIsShown(p, "slug", false, py); }
    EndHasNoKeys(p);
    EndHasNoKeys(TypedPublish(p, py));
  }

  lemma EndHasNoKeys(e: Entries)
    ensures e.End? <==> Keys(e) == {}
  {
    if e.Entry? { assert e.key in Keys(e); }
  }

  lemma PutTableSays(m: Entries, key: string, table: Entries, other: string)
    requires key in MANAGED && other != key && (TableOf(m, key) == End ==> table == End)
    ensures Extras(PutTable(m, key, table)) == Extras(m)
    ensures TableOf(PutTable(m, key, table), key) == table && TableOf(PutTable(m, key, table), other) == TableOf(m, other)
    ensures Keys(PutTable(m, key, table)) == Keys(m)
    ensures other in Keys(m) ==> Get(PutTable(m, key, table), other) == Get(m, other)
    ensures TableOrNothing(m, key) ==> TableOrNothing(PutTable(m, key, table), key)
    ensures TableOrNothing(PutTable(m, key, table), other) <==> TableOrNothing(m, other)
  {
    if key in Keys(m) && Get(m, key).Tab? {
      PutSays(m, key, Tab(table));
      WithoutPut(m, key, Tab(table), MANAGED);
    }
  }

  /** The parts of a typed manifest. */
  lemma TypedParts(m: Entries, py: Python)
    requires Typed(m, py).Ok?
    ensures var t := Typed(m, py).value;
      && Extras(t) == Extras(m)
      && TableOf(t, "project") == TypedProject(TableOf(m, "project"), py).value
      && TableOf(t, "publish") == TypedPublish(TableOf(m, "publish"), py)
      && TableOrNothing(t, "project") && TableOrNothing(t, "publish")
  {
    hide TypedProject, TypedPublish, Extras;
    DifferentNames();
    NothingTyped(py);
    var project, publish := TypedProject(TableOf(m, "project"), py).value, TypedPublish(TableOf(m, "publish"), py);
    PutTableSays(m, "project", project, "publish");
    PutTableSays(PutTable(m, "project", project), "publish", publish, "project");
  }

  lemma NothingTyped(py: Python)
    ensures TypedProject(End, py) == Ok(End) && TypedPublish(End, py) == End
  {
    assert Keys(End) == {};
    assert forall key, always :: ShownAt(End, key, always, py) == End;
  }

  lemma PutDistinct(e: Entries, key: string, value: Value)
    requires DistinctEntries(e) && Distinct(value) && key in Keys(e)
    ensures DistinctEntries(Put(e, key, value)) && Keys(Put(e, key, value)) == Keys(e)
  {
  }

  lemma ShownAtDistinct(e: Entries, key: string, always: bool, py: Python)
    requires DistinctEntries(e)
    ensures DistinctEntries(ShownAt(e, key, always, py)) && Keys(ShownAt(e, key, always, py)) == Keys(e)
  {
    hide Shown, DistinctEntries;
    if key in Keys(e) { PutDistinct(e, key, Str(Shown(Get(e, key), py))); }
  }

  /** A dict stays one. */
  lemma TypedDistinct(m: Entries, py: Python)
    requires DistinctEntries(m) && Typed(m, py).Ok?
    ensures DistinctEntries(Typed(m, py).value)
  {
    hide DistinctEntries, ShownAt, Number;
    var project, publish := TableOf(m, "project"), TableOf(m, "publish");
    TableDistinct(m, "project");
    TableDistinct(m, "publish");
    ShownAtDistinct(project, "name", true, py);
    var named := ShownAt(project, "name", true, py);
    ShownAtDistinct(named, "requires_codefyui", false, py);
    if "format_version" in Keys(project) {
      PutDistinct(ShownAt(named, "requires_codefyui", false, py), "format_version", Int(Number(Get(project, "format_version"), py).value));
    }
    ShownAtDistinct(publish, "graph", false, py);
    ShownAtDistinct(ShownAt(publish, "graph", false, py), "slug", false, py);
    var typed := TypedProject(project, py).value;
    PutTableDistinct(m, "project", typed);
    PutTableDistinct(PutTable(m, "project", typed), "publish", TypedPublish(publish, py));
  }

  lemma PutTableDistinct(m: Entries, key: string, table: Entries)
    requires DistinctEntries(m) && DistinctEntries(table)
    ensures DistinctEntries(PutTable(m, key, table))
  {
    if key in Keys(m) && Get(m, key).Tab? { PutDistinct(m, key, Tab(table)); }
  }

  /** What has the type it is printed with stays as it is. */
  lemma TextStays(e: Entries, key: string, always: bool, py: Python)
    requires key in Keys(e) ==> Get(e, key).Str? || (!always && !Truthy(Get(e, key)))
    ensures ShownAt(e, key, always, py) == e
  {
    if key in Keys(e) { PutBack(e, key); }
  }

  lemma PutBack(e: Entries, key: string)
    requires key in Keys(e)
    ensures Put(e, key, Get(e, key)) == e
  {
  }

  /** The line of an optional field. */
  function OptionalShown(e: Entries, key: string, py: Python): seq<string> {
    if key in Keys(e) && Truthy(Get(e, key)) then [RawLine(key, Shown(Get(e, key), py))] else []
  }

  lemma OptionalIs(t: Entries, e: Entries, key: string, py: Python)
    requires TextOf(t, key) == ShownText(e, key, false, py)
    ensures OptionalLine(t, key) == OptionalShown(e, key, py)
  {
    hide Shown;
    if key in Keys(e) && Truthy(Get(e, key)) { ShownTrue(Get(e, key), py); }
  }

  lemma ProjectLinesAre(p: Entries, py: Python, lines: seq<string>)
    requires TypedProject(p, py).Ok?
    ensures lines + ProjectLines(TypedProject(p, py).value)
      == lines + ["[project]"] + [RawLine("name", ShownText(p, "name", true, py))]
         + ["format_version = " + Repr(if "format_version" in Keys(p) then Number(Get(p, "format_version"), py).value else 1)]
         + OptionalShown(p, "requires_codefyui", py) + PairLines(Without(p, PROJECT_KEYS)) + [""]
  {
    hide PairLines, RawLine, Shown, Without, TextOf, FormatVersion, TypedProject, OptionalLine, OptionalShown, ShownText, Number, Repr;
    var t := TypedProject(p, py).value;
    TypedProjectSays(p, py);
    OptionalIs(t, p, "requires_codefyui", py);
    var pairs := [RawLine("name", TextOf(t, "name"))] + ["format_version = " + Repr(FormatVersion(t))]
                 + OptionalLine(t, "requires_codefyui") + PairLines(Without(t, PROJECT_KEYS));
    assert ProjectLines(t) == ["[project]"] + pairs + [""];
    assert lines + (["[project]"] + pairs + [""]) == lines + ["[project]"] + [RawLine("name", TextOf(t, "name"))]
         + ["format_version = " + Repr(FormatVersion(t))] + OptionalLine(t, "requires_codefyui") + PairLines(Without(t, PROJECT_KEYS)) + [""];
  }

  lemma PublishLinesAre(p: Entries, py: Python)
    ensures PublishLines(TypedPublish(p, py))
      == if p.End? then []
         else ["[publish]"] + OptionalShown(p, "graph", py) + OptionalShown(p, "slug", py) + RecordIoLine(p)
              + PairLines(Without(p, PUBLISH_KEYS)) + [""]
  {
    hide PairLines, Without, TypedPublish, OptionalLine, OptionalShown, ShownText, TextOf, Truthy, RecordIoLine;
    var t := TypedPublish(p, py);
    TypedPublishSays(p, py);
    OptionalIs(t, p, "graph", py);
    OptionalIs(t, p, "slug", py);
    SameRecordIo(t, p);
    Flattened(["[publish]"], OptionalLine(t, "graph"), OptionalLine(t, "slug"), RecordIoLine(t), PairLines(Without(t, PUBLISH_KEYS)));
  }

  lemma SameRecordIo(t: Entries, p: Entries)
    requires Keys(t) == Keys(p) && ("record_io" in Keys(p) ==> Get(t, "record_io") == Get(p, "record_io"))
    ensures RecordIoLine(t) == RecordIoLine(p)
  {
    hide Truthy;
  }

  lemma Flattened<T>(a: seq<T>, b: seq<T>, c: seq<T>, d: seq<T>, e: seq<T>)
    ensures a + (b + c + d + e) == a + b + c + d + e
  {
  }

  // ── the program ───────────────────────────────────────────────────────

  /** `table.get(key, default)` between raw quotes. */
  method AppendProject(lines: seq<string>, project: Entries, py: Python) returns (r: Result<seq<string>, TypeError>)
    ensures r == var typed := TypedProject(project, py); if typed.Err? then Err(typed.error) else Ok(lines + ProjectLines(typed.value))
  {
    hide PairLines, RawLine, Shown, ShownAt, Without, ProjectLines, OptionalShown, Put;
    var name := if "name" in Keys(project) then Shown(Get(project, "name"), py) else "";
    var out := lines + ["[project]"] + [RawLine("name", name)];
    var version := 1;
    if "format_version" in Keys(project) {
      var number := Number(Get(project, "format_version"), py);
      if number.None? { return Err(NotANumber); }
      version := number.value;
    }
    out := out + ["format_version = " + Repr(version)];
    out := out + OptionalShown(project, "requires_codefyui", py);
    out := AppendOthers(out, project, PROJECT_KEYS);
    out := out + [""];
    ProjectLinesAre(project, py, lines);
    r := Ok(out);
  }

  method AppendPublish(lines: seq<string>, publish: Entries, py: Python) returns (r: seq<string>)
    ensures r == lines + PublishLines(TypedPublish(publish, py))
  {
    hide PairLines, OptionalShown, TypedPublish, Without, PublishLines, RecordIoLine;
    r := lines;
    PublishLinesAre(publish, py);
    if !publish.End? {
      r := r + ["[publish]"];
      r := r + OptionalShown(publish, "graph", py) + OptionalShown(publish, "slug", py) + RecordIoLine(publish);
      r := AppendOthers(r, publish, PUBLISH_KEYS);
      r := r + [""];
    }
  }

  /** `_render_manifest` */
  method RenderManifest(m: Entries, pins: seq<Pin>, py: Python) returns (r: Result<string, TypeError>)
    ensures r == var typed := Typed(m, py); if typed.Err? then Err(typed.error) else Ok(Render(typed.value, pins))
  {
    hide PairLines, ExtraLines, TypedProject, TypedPublish, ProjectLines, PluginLines, PublishLines, Extras, TableOf, PutTable, RootLines;
    var scalars := Scalars(Extras(m));
    var lines := AppendOthers([], scalars, {});
    WithoutNothing(scalars);
    if !scalars.End? { lines := lines + [""]; }
    RootLinesAre(m);
    assert lines == RootLines(m);
    if !TableOrNothing(m, "project") { return Err(NotATable); }
    var more := AppendProject(lines, TableOf(m, "project"), py);
    if more.Err? { return Err(more.error); }
    lines := AppendPins(more.value, pins);
    if !TableOrNothing(m, "publish") { return Err(NotATable); }
    lines := AppendPublish(lines, TableOf(m, "publish"), py);
    lines := AppendTables(lines, Extras(m));
    TypedParts(m, py);
    RootLinesAre(Typed(m, py).value);
    assert lines == ManifestLines(Typed(m, py).value, pins);
    r := Ok(Join(lines));
  }

  lemma RootLinesAre(m: Entries)
    ensures RootLines(m) == PairLines(Scalars(Extras(m))) + if Scalars(Extras(m)).End? then [] else [""]
  {
  }
}
