/**
 `cdui project freeze` rewriting `codefyui.project.toml`: `_render_extra_table`
 and `_render_manifest` of `scripts/project.py`.
 */
module ProjectManifest {
  import opened Sequences
  import opened TomlText

  datatype Pin = Pin(id: string, url: string, ref: string, sha: string)

  predicate Truthy(v: Value) {
    match v
    case Str(text) => text != ""
    case Int(number) => number != 0
    case Bool(flag) => flag
    case Arr(items) => items.More?
    case Tab(entries) => entries.Entry?
  }

  /** What Python takes for false. */
  lemma FalsyIff(v: Value)
    ensures !Truthy(v) <==> v in {Str(""), Int(0), Bool(false), Arr(NoMore), Tab(End)}
  {
  }

  function Without(e: Entries, names: set<string>): Entries {
    if e.End? then End
    else if e.key in names then Without(e.rest, names)
    else Entry(e.key, e.value, Without(e.rest, names))
  }

  function Scalars(e: Entries): Entries {
    if e.End? then End
    else if e.value.Tab? then Scalars(e.rest)
    else Entry(e.key, e.value, Scalars(e.rest))
  }

  /** `manifest.get(key, {}) or {}` */
  function TableOf(m: Entries, key: string): Entries {
    if key in Keys(m) && Get(m, key).Tab? then Get(m, key).entries else End
  }

  /** A text field, or "". */
  function TextOf(e: Entries, key: string): string {
    if key in Keys(e) && Get(e, key).Str? then Get(e, key).text else ""
  }

  function FormatVersion(project: Entries): int {
    if "format_version" in Keys(project) && Get(project, "format_version").Int?
    then Get(project, "format_version").number else 1
  }

  const MANAGED: set<string> := {"project", "plugins", "publish"}
  const PROJECT_KEYS: set<string> := {"name", "format_version", "requires_codefyui"}
  const PUBLISH_KEYS: set<string> := {"graph", "slug", "record_io"}

  lemma DifferentNames()
    ensures "name" != "format_version" && "name" != "requires_codefyui" && "format_version" != "requires_codefyui"
    ensures "graph" != "slug" && "graph" != "record_io" && "slug" != "record_io"
    ensures "project" != "plugins" && "project" != "publish" && "plugins" != "publish"
  {
    assert "name"[0] != "format_version"[0] && "name"[0] != "requires_codefyui"[0] && "format_version"[0] != "requires_codefyui"[0];
    assert "graph"[0] != "slug"[0] && "graph"[0] != "record_io"[0] && "slug"[0] != "record_io"[0];
    assert "project"[1] != "plugins"[1] && "project"[1] != "publish"[1] && "plugins"[1] != "publish"[1];
  }

  function Extras(m: Entries): Entries {
    Without(m, MANAGED)
  }

  // ── pins, sorted by id ────────────────────────────────────────────────

  /** Python's order on strings. */
  predicate Less(a: string, b: string) {
    b != "" && (a == "" || a[0] < b[0] || (a[0] == b[0] && Less(a[1..], b[1..])))
  }

  function InsertPin(p: Pin, sorted: seq<Pin>): seq<Pin> {
    if sorted == [] then [p]
    else if Less(p.id, sorted[0].id) then [p] + sorted
    else [sorted[0]] + InsertPin(p, sorted[1..])
  }

  function SortPins(pins: seq<Pin>): seq<Pin> {
    if pins == [] then [] else InsertPin(pins[0], SortPins(pins[1..]))
  }

  // ── the lines ─────────────────────────────────────────────────────────

  function PairLine(key: string, value: Value): string {
    KeyText(key) + " = " + Text(value)
  }

  function PairLines(e: Entries): seq<string> {
    if e.End? then [] else [PairLine(e.key, e.value)] + PairLines(e.rest)
  }

  /** A field printed between raw quotes. */
  function RawLine(key: string, text: string): string {
    key + " = \"" + text + "\""
  }

  function TableLines(header: string, t: Entries): seq<string>
    decreases t, 1
  {
    ["[" + header + "]"] + PairLines(Scalars(t)) + [""] + SubtableLines(header, t)
  }

  function SubtableLines(header: string, t: Entries): seq<string>
    decreases t, 0
  {
    if t.End? then []
    else if t.value.Tab? then TableLines(header + "." + KeyText(t.key), t.value.entries) + SubtableLines(header, t.rest)
    else SubtableLines(header, t.rest)
  }

  function RootLines(m: Entries): seq<string> {
    var scalars := Scalars(Extras(m));
    PairLines(scalars) + if scalars.End? then [] else [""]
  }

  function OptionalLine(e: Entries, key: string): seq<string> {
    if TextOf(e, key) != "" then [RawLine(key, TextOf(e, key))] else []
  }

  function ProjectPairs(p: Entries): seq<string> {
    [RawLine("name", TextOf(p, "name"))] + ["format_version = " + Repr(FormatVersion(p))]
    + OptionalLine(p, "requires_codefyui") + PairLines(Without(p, PROJECT_KEYS))
  }

  function ProjectLines(p: Entries): seq<string> {
    ["[project]"] + ProjectPairs(p) + [""]
  }

  function PinLine(p: Pin): string {
    p.id + " = { " + RawLine("url", p.url) + ", " + RawLine("ref", p.ref) + ", " + RawLine("sha", p.sha) + " }"
  }

  function PinLines(pins: seq<Pin>): seq<string> {
    if pins == [] then [] else [PinLine(pins[0])] + PinLines(pins[1..])
  }

  function Command(name: string): string {
    "`cdui project " + name + "`"
  }

  const PLUGINS_COMMENT: string := "# written by " + Command("freeze") + "; installed by " + Command("restore")

  lemma Commands()
    ensures Command("freeze") == "`cdui project freeze`" && Command("restore") == "`cdui project restore`"
  {
  }

  lemma WrittenBy()
    ensures "# written by " + "`cdui project freeze`" + "; installed by " == "# written by `cdui project freeze`; installed by "
  {
  }

  /** The comment names the two commands. */
  lemma PluginsComment()
    ensures PLUGINS_COMMENT == "# written by `cdui project freeze`; installed by " + "`cdui project restore`"
  {
    Commands();
    WrittenBy();
  }

  function PluginLines(pins: seq<Pin>): seq<string> {
    ["[plugins]", PLUGINS_COMMENT] + PinLines(SortPins(pins)) + [""]
  }

  function RecordIoLine(p: Entries): seq<string> {
    if "record_io" in Keys(p) then ["record_io = " + (if Truthy(Get(p, "record_io")) then "true" else "false")] else []
  }

  function PublishPairs(p: Entries): seq<string> {
    OptionalLine(p, "graph") + OptionalLine(p, "slug") + RecordIoLine(p) + PairLines(Without(p, PUBLISH_KEYS))
  }

  function PublishLines(p: Entries): seq<string> {
    if p.End? then [] else ["[publish]"] + PublishPairs(p) + [""]
  }

  /** The sections of the user's own tables. */
  function ExtraLines(e: Entries): seq<string> {
    if e.End? then []
    else if e.value.Tab? then TableLines(KeyText(e.key), e.value.entries) + ExtraLines(e.rest)
    else ExtraLines(e.rest)
  }

  function ManifestLines(m: Entries, pins: seq<Pin>): seq<string> {
    RootLines(m) + ProjectLines(TableOf(m, "project")) + PluginLines(pins)
    + PublishLines(TableOf(m, "publish")) + ExtraLines(Extras(m))
  }

  function Join(lines: seq<string>): string {
    if lines == [] then "" else lines[0] + "\n" + Join(lines[1..])
  }

  /** `_render_manifest`: `"\n".join(lines) + "\n"`, of at least one line. */
  function Render(m: Entries, pins: seq<Pin>): string {
    Join(ManifestLines(m, pins))
  }

  // ── the program ───────────────────────────────────────────────────────

  function NestedLines(header: string, subtables: seq<(string, Entries)>): seq<string> {
    if subtables == [] then []
    else NestedLines(header, subtables[..|subtables| - 1])
         + TableLines(header + "." + KeyText(subtables[|subtables| - 1].0), subtables[|subtables| - 1].1)
  }

  lemma NestedAppend(header: string, subtables: seq<(string, Entries)>, last: (string, Entries))
    ensures NestedLines(header, subtables + [last])
         == NestedLines(header, subtables) + TableLines(header + "." + KeyText(last.0), last.1)
  {
    assert (subtables + [last])[..|subtables|] == subtables;
  }

  /** What is printed and put aside so far, with what is still to come, is the whole table. */
  ghost predicate Halfway(header: string, table: Entries, rest: Entries, pairs: seq<string>, aside: seq<(string, Entries)>) {
    && pairs + PairLines(Scalars(rest)) == PairLines(Scalars(table))
    && NestedLines(header, aside) + SubtableLines(header, rest) == SubtableLines(header, table)
  }

  lemma NextPair(header: string, table: Entries, rest: Entries, pairs: seq<string>, aside: seq<(string, Entries)>)
    requires Halfway(header, table, rest, pairs, aside) && rest.Entry? && !rest.value.Tab?
    ensures Halfway(header, table, rest.rest, pairs + [PairLine(rest.key, rest.value)], aside)
  {
    hide TableLines, NestedLines, PairLine;
    var line := PairLine(rest.key, rest.value);
    assert pairs + [line] + PairLines(Scalars(rest.rest)) == pairs + ([line] + PairLines(Scalars(rest.rest)));
  }

  lemma NextTable(header: string, table: Entries, rest: Entries, pairs: seq<string>, aside: seq<(string, Entries)>)
    requires Halfway(header, table, rest, pairs, aside) && rest.Entry? && rest.value.Tab?
    ensures Halfway(header, table, rest.rest, pairs, aside + [(rest.key, rest.value.entries)])
  {
    hide TableLines, NestedLines, PairLines, SubtableLines, Scalars;
    NestedAppend(header, aside, (rest.key, rest.value.entries));
    SubtableFirst(header, rest);
    Associative(NestedLines(header, aside),
                TableLines(header + "." + KeyText(rest.key), rest.value.entries), SubtableLines(header, rest.rest));
  }

  lemma SubtableFirst(header: string, t: Entries)
    requires t.Entry? && t.value.Tab?
    ensures SubtableLines(header, t)
         == TableLines(header + "." + KeyText(t.key), t.value.entries) + SubtableLines(header, t.rest)
    ensures Scalars(t) == Scalars(t.rest)
  {
  }

  lemma AllSeen(header: string, table: Entries, pairs: seq<string>, aside: seq<(string, Entries)>)
    requires Halfway(header, table, End, pairs, aside)
    ensures ["[" + header + "]"] + pairs + [""] + NestedLines(header, aside) == TableLines(header, table)
  {
    hide NestedLines;
  }

  /** `_render_extra_table`: pairs first, the nested tables put aside and rendered after them. */
  method RenderExtraTable(header: string, table: Entries) returns (lines: seq<string>)
    ensures lines == TableLines(header, table)
    decreases table
  {
    hide Halfway, TableLines, NestedLines, PairLine;
    lines := ["[" + header + "]"];
    var rest := table;
    var subtables: seq<(string, Entries)> := [];
    ghost var pairs: seq<string> := [];
    NothingSeen(header, table);
    while rest.Entry?
      invariant lines == ["[" + header + "]"] + pairs
      invariant Halfway(header, table, rest, pairs, subtables)
      invariant forall i | 0 <= i < |subtables| :: subtables[i].1 < table
      invariant rest == table || rest < table
      decreases rest
    {
      if rest.value.Tab? {
        NextTable(header, table, rest, pairs, subtables);
        subtables := subtables + [(rest.key, rest.value.entries)];
      } else {
        NextPair(header, table, rest, pairs, subtables);
        Associative(["[" + header + "]"], pairs, [PairLine(rest.key, rest.value)]);
        pairs := pairs + [PairLine(rest.key, rest.value)];
        lines := lines + [PairLine(rest.key, rest.value)];
      }
      rest := rest.rest;
    }
    AllSeen(header, table, pairs, subtables);
    lines := lines + [""];
    ghost var head := lines;
    NoneNested(header);
    var i := 0;
    while i < |subtables|
      invariant 0 <= i <= |subtables|
      invariant lines == head + NestedLines(header, subtables[..i])
    {
      var nested := RenderExtraTable(header + "." + KeyText(subtables[i].0), subtables[i].1);
      NestedAppend(header, subtables[..i], subtables[i]);
      assert subtables[..i + 1] == subtables[..i] + [subtables[i]];
      lines := lines + nested;
      i := i + 1;
    }
    assert subtables[..i] == subtables;
  }

  lemma NothingSeen(header: string, table: Entries)
    ensures Halfway(header, table, table, [], [])
  {
    hide TableLines, SubtableLines, PairLines, Scalars;
    assert NestedLines(header, []) == [];
  }

  lemma NoneNested(header: string)
    ensures NestedLines(header, []) == []
  {
  }

  /** `for k, v in table.items(): if k not in names: lines.append(...)` */
  method AppendOthers(lines: seq<string>, table: Entries, names: set<string>) returns (r: seq<string>)
    ensures r == lines + PairLines(Without(table, names))
  {
    r := lines;
    var rest := table;
    while rest.Entry?
      invariant r + PairLines(Without(rest, names)) == lines + PairLines(Without(table, names))
      decreases rest
    {
      if rest.key !in names {
        Associative(r, [PairLine(rest.key, rest.value)], PairLines(Without(rest.rest, names)));
        r := r + [PairLine(rest.key, rest.value)];
      }
      rest := rest.rest;
    }
  }

  /** The `[plugins]` section: one line a pin, in the order of the ids. */
  method AppendPins(lines: seq<string>, pins: seq<Pin>) returns (r: seq<string>)
    ensures r == lines + PluginLines(pins)
  {
    hide PinLine;
    var sorted := SortPins(pins);
    r := lines + ["[plugins]", PLUGINS_COMMENT];
    var i := 0;
    while i < |sorted|
      invariant 0 <= i <= |sorted|
      invariant r + PinLines(sorted[i..]) == lines + ["[plugins]", PLUGINS_COMMENT] + PinLines(sorted)
    {
      Associative(r, [PinLine(sorted[i])], PinLines(sorted[i + 1..]));
      r := r + [PinLine(sorted[i])];
      i := i + 1;
    }
    assert r == lines + ["[plugins]", PLUGINS_COMMENT] + PinLines(sorted);
    r := r + [""];
    Associative(lines, ["[plugins]", PLUGINS_COMMENT] + PinLines(sorted), [""]);
    Associative(lines, ["[plugins]", PLUGINS_COMMENT], PinLines(sorted));
  }

  /** The sections of the user's own tables, after everything else. */
  method AppendTables(lines: seq<string>, extras: Entries) returns (r: seq<string>)
    ensures r == lines + ExtraLines(extras)
  {
    hide TableLines;
    r := lines;
    var rest := extras;
    while rest.Entry?
      invariant r + ExtraLines(rest) == lines + ExtraLines(extras)
      decreases rest
    {
      if rest.value.Tab? {
        var section := RenderExtraTable(KeyText(rest.key), rest.value.entries);
        Associative(r, section, ExtraLines(rest.rest));
        r := r + section;
      }
      rest := rest.rest;
    }
  }

  lemma WithoutNothing(e: Entries)
    ensures Without(e, {}) == e
  {
  }
}
