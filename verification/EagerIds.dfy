/**
 Which modules the frontend loads at start: `eagerIds` and `manualChunks` of
 `frontend/vite.config.ts`, over a module graph with static imports.
 */
module EagerIds {
  import opened Wrappers

  type Id = string

  /** `getModuleInfo(id)`: static imports only; a module it does not know has none. */
  datatype Info = Info(isEntry: bool, importedIds: seq<Id>)

  /** `GetManualChunk`'s second argument, one object a build. */
  class Meta {
    const graph: map<Id, Info>
    const moduleIds: seq<Id>       // getModuleIds()

    constructor (graph: map<Id, Info>, moduleIds: seq<Id>)
      requires forall id :: id in moduleIds <==> id in graph
      ensures this.graph == graph && this.moduleIds == moduleIds
    {
      this.graph, this.moduleIds := graph, moduleIds;
    }

    ghost predicate Listed() {
      forall id :: id in moduleIds <==> id in graph
    }
  }

  predicate IsEntry(g: map<Id, Info>, id: Id) {
    id in g && g[id].isEntry
  }

  function Imports(g: map<Id, Info>, id: Id): seq<Id> {
    if id in g then g[id].importedIds else []
  }

  /** A chain of static imports from an entry. */
  ghost predicate Chain(g: map<Id, Info>, path: seq<Id>) {
    && path != [] && IsEntry(g, path[0])
    && forall i | 0 <= i < |path| - 1 :: path[i + 1] in Imports(g, path[i])
  }

  ghost predicate Eager(g: map<Id, Info>, id: Id) {
    exists path :: Chain(g, path) && path[|path| - 1] == id
  }

  /** Exactly the modules reachable from an entry by static imports. */
  ghost predicate Exactly(g: map<Id, Info>, ids: set<Id>) {
    forall id :: id in ids <==> Eager(g, id)
  }

  lemma EntryIsEager(g: map<Id, Info>, id: Id)
    requires IsEntry(g, id)
    ensures Eager(g, id)
  {
    assert Chain(g, [id]);
  }

  lemma ImportIsEager(g: map<Id, Info>, id: Id, next: Id)
    requires Eager(g, id) && next in Imports(g, id)
    ensures Eager(g, next)
  {
    var path :| Chain(g, path) && path[|path| - 1] == id;
    assert Chain(g, path + [next]);
    assert (path + [next])[|path|] == next;
  }

  /** A module is eager exactly when it is an entry or an eager module imports it statically; one the graph does not know imports nothing. */
  lemma EagerIff(g: map<Id, Info>, id: Id)
    ensures Eager(g, id) <==>
      (id in g && g[id].isEntry) || exists from :: from in g && Eager(g, from) && id in g[from].importedIds
  {
    if Eager(g, id) {
      var path :| Chain(g, path) && path[|path| - 1] == id;
      if |path| > 1 {
        var shorter := path[..|path| - 1];
        assert forall i | 0 <= i < |shorter| - 1 :: shorter[i + 1] in Imports(g, shorter[i]);
        assert Chain(g, shorter);
        var from := shorter[|shorter| - 1];
        assert path[|path| - 2 + 1] in Imports(g, path[|path| - 2]);
        assert from in g && Eager(g, from) && id in g[from].importedIds;
      }
    }
    if id in g && g[id].isEntry { EntryIsEager(g, id); }
    if from :| from in g && Eager(g, from) && id in g[from].importedIds { ImportIsEager(g, from, id); }
  }

  /** A set that has the entries and follows every import has everything eager. */
  ghost predicate Closed(g: map<Id, Info>, ids: set<Id>) {
    && (forall id | IsEntry(g, id) :: id in ids)
    && (forall id, next | id in ids && next in Imports(g, id) :: next in ids)
  }

  lemma {:induction false} ChainInside(g: map<Id, Info>, ids: set<Id>, path: seq<Id>)
    requires Closed(g, ids) && Chain(g, path)
    ensures path[|path| - 1] in ids
    decreases |path|
  {
    if |path| > 1 {
      var shorter := path[..|path| - 1];
      assert forall i | 0 <= i < |shorter| - 1 :: shorter[i + 1] in Imports(g, shorter[i]);
      assert path[|path| - 2 + 1] in Imports(g, path[|path| - 2]);
      ChainInside(g, ids, shorter);
    }
  }

  lemma ClosedIsExact(g: map<Id, Info>, ids: set<Id>)
    requires Closed(g, ids) && forall id | id in ids :: Eager(g, id)
    ensures Exactly(g, ids)
  {
    forall id | Eager(g, id) ensures id in ids {
      var path :| Chain(g, path) && path[|path| - 1] == id;
      ChainInside(g, ids, path);
    }
  }

  // ── the worklist ──────────────────────────────────────────────────────

  /** Every id the graph mentions. */
  ghost function Universe(g: map<Id, Info>): set<Id> {
    g.Keys + set id, i | id in g && 0 <= i < |g[id].importedIds| :: g[id].importedIds[i]
  }

  lemma ImportsInUniverse(g: map<Id, Info>, id: Id, next: Id)
    requires next in Imports(g, id)
    ensures next in Universe(g)
  {
    var i :| 0 <= i < |g[id].importedIds| && g[id].importedIds[i] == next;
  }

  /** What is still to come follows the imports of what has been taken. */
  ghost predicate Pending(g: map<Id, Info>, ids: set<Id>, queue: seq<Id>) {
    && (forall id | IsEntry(g, id) :: id in ids || id in queue)
    && (forall id, next | id in ids && next in Imports(g, id) :: next in ids || next in queue)
  }

  ghost predicate Sound(g: map<Id, Info>, ids: set<Id>, queue: seq<Id>) {
    && (forall id | id in ids :: Eager(g, id))
    && (forall id | id in queue :: Eager(g, id) && id in Universe(g))
  }

  method Entries(meta: Meta) returns (queue: seq<Id>)
    requires meta.Listed()
    ensures forall id :: id in queue <==> IsEntry(meta.graph, id)
  {
    queue := [];
    for i := 0 to |meta.moduleIds|
      invariant forall id :: id in queue <==> id in meta.moduleIds[..i] && IsEntry(meta.graph, id)
    {
      var id := meta.moduleIds[i];
      assert meta.moduleIds[..i + 1] == meta.moduleIds[..i] + [id];
      if IsEntry(meta.graph, id) { queue := queue + [id]; }
    }
    assert meta.moduleIds[..|meta.moduleIds|] == meta.moduleIds;
  }

  /** One id taken off the queue for the first time: its imports go to the end. */
  lemma Take(g: map<Id, Info>, ids: set<Id>, id: Id, rest: seq<Id>)
    requires Pending(g, ids, [id] + rest) && Sound(g, ids, [id] + rest)
    ensures Pending(g, ids + {id}, rest + Imports(g, id)) && Sound(g, ids + {id}, rest + Imports(g, id))
    ensures id in Universe(g)
  {
    hide Eager, Universe;
    assert id in [id] + rest;
    forall next | next in Imports(g, id) ensures Eager(g, next) && next in Universe(g) {
      ImportIsEager(g, id, next);
      ImportsInUniverse(g, id, next);
    }
    forall x | x in rest ensures Eager(g, x) && x in Universe(g) { assert x in [id] + rest; }
  }

  lemma Skip(g: map<Id, Info>, ids: set<Id>, id: Id, rest: seq<Id>)
    requires Pending(g, ids, [id] + rest) && Sound(g, ids, [id] + rest) && id in ids
    ensures Pending(g, ids, rest) && Sound(g, ids, rest)
  {
    hide Eager, Universe;
    forall x | x in rest ensures Eager(g, x) && x in Universe(g) { assert x in [id] + rest; }
  }

  /** The loop of `eagerIds`, over a queue that grows while it is walked. */
  method Walk(g: map<Id, Info>, entries: seq<Id>) returns (ids: set<Id>)
    requires forall id :: id in entries <==> IsEntry(g, id)
    ensures Exactly(g, ids)
  {
    hide Pending, Sound, Eager, Universe;
    ids := {};
    var queue := entries;
    var i := 0;
    Start(g, entries);
    assert queue[0..] == queue;
    while i < |queue|
      invariant 0 <= i <= |queue|
      invariant Pending(g, ids, queue[i..]) && Sound(g, ids, queue[i..])
      decreases |Universe(g) - ids|, |queue| - i
    {
      var id := queue[i];
      assert queue[i..] == [id] + queue[i + 1..];
      if id in ids {
        Skip(g, ids, id, queue[i + 1..]);
        i := i + 1;
      } else {
        Take(g, ids, id, queue[i + 1..]);
        Fewer(Universe(g), ids, id);
        assert (queue + Imports(g, id))[i + 1..] == queue[i + 1..] + Imports(g, id);
        ids := ids + {id};
        queue := queue + Imports(g, id);
        i := i + 1;
      }
    }
    Stop(g, ids, queue[i..]);
  }

  lemma Fewer(universe: set<Id>, ids: set<Id>, id: Id)
    requires id in universe && id !in ids
    ensures |universe - (ids + {id})| < |universe - ids|
  {
    assert universe - ids == (universe - (ids + {id})) + {id};
  }

  lemma Start(g: map<Id, Info>, entries: seq<Id>)
    requires forall id :: id in entries <==> IsEntry(g, id)
    ensures Pending(g, {}, entries) && Sound(g, {}, entries)
  {
    hide Eager;
    forall id | id in entries ensures Eager(g, id) { EntryIsEager(g, id); }
  }

  lemma Stop(g: map<Id, Info>, ids: set<Id>, queue: seq<Id>)
    requires queue == [] && Pending(g, ids, queue) && Sound(g, ids, queue)
    ensures Exactly(g, ids)
  {
    hide Eager;
    ClosedIsExact(g, ids);
  }

  // ── chunks ────────────────────────────────────────────────────────────

  predicate Contains(s: string, part: string) {
    |part| <= |s| && (s[..|part|] == part || Contains(s[1..], part))
  }

  /** `prefix` followed by one more path segment. */
  predicate ContainsDir(s: string, prefix: string) {
    |prefix| < |s| && ((s[..|prefix|] == prefix && SegmentThenSlash(s[|prefix|..])) || ContainsDir(s[1..], prefix))
  }

  /** `[^/]+/` */
  predicate SegmentThenSlash(s: string) {
    s != "" && s[0] != '/' && SlashLater(s[1..])
  }

  predicate SlashLater(s: string) {
    s != "" && (s[0] == '/' || SlashLater(s[1..]))
  }

  predicate EndsWith(s: string, part: string) {
    |part| <= |s| && s[|s| - |part|..] == part
  }

  predicate LazyOnly(id: Id) {
    Contains(id, "/node_modules/katex/") || Contains(id, "/node_modules/react-katex/")
    || Contains(id, "/node_modules/@codemirror/") || Contains(id, "/node_modules/@lezer/")
  }

  predicate ReactRuntime(id: Id) {
    Contains(id, "/node_modules/react/") || Contains(id, "/node_modules/react-dom/")
    || Contains(id, "/node_modules/scheduler/") || Contains(id, "/node_modules/zustand/")
    || Contains(id, "/node_modules/use-sync-external-store/")
  }

  predicate FlowRuntime(id: Id) {
    ContainsDir(id, "/node_modules/@xyflow/") || ContainsDir(id, "/node_modules/@dagrejs/")
    || ContainsDir(id, "/node_modules/d3-") || Contains(id, "/node_modules/classcat/")
  }

  predicate AppCore(id: Id) {
    Contains(id, "/src/store/") || Contains(id, "/src/utils/") || Contains(id, "/src/api/")
    || Contains(id, "/src/hooks/") || Contains(id, "/src/plugins/")
  }

  predicate Stylesheet(id: Id) {
    EndsWith(id, ".css") || Contains(id, ".css?")
  }

  datatype Chunk = React | Flow | Vendor | I18n | AppCoreChunk

  datatype BuildError = NoEntry | StaticLazyImport(id: Id)

  /** `manualChunks`, given the eager ids. */
  function ChunkOf(id: Id, eager: set<Id>): Result<Option<Chunk>, BuildError> {
    if Contains(id, "/node_modules/") then
      if id !in eager then Ok(None)
      else if LazyOnly(id) then Err(StaticLazyImport(id))
      else if Stylesheet(id) then Ok(None)
      else if ReactRuntime(id) then Ok(Some(React))
      else if FlowRuntime(id) then Ok(Some(Flow))
      else Ok(Some(Vendor))
    else if Stylesheet(id) then Ok(None)
    else if Contains(id, "/src/i18n/") then Ok(Some(I18n))
    else if AppCore(id) && id in eager then Ok(Some(AppCoreChunk))
    else Ok(None)
  }

  /** Whether the call needs `eagerIds` at all: the source asks it only then. */
  predicate Asks(id: Id) {
    Contains(id, "/node_modules/") || (!Stylesheet(id) && !Contains(id, "/src/i18n/") && AppCore(id))
  }

  /** The module-level `eagerCache`. */
  class EagerCache {
    var cached: map<Meta, set<Id>>
    ghost var walks: nat           // how often a graph was walked

    ghost predicate Valid()
      reads this
    {
      forall m | m in cached :: Exactly(m.graph, cached[m]) && exists e :: IsEntry(m.graph, e)
    }

    constructor ()
      ensures Valid() && cached == map[] && walks == 0
    {
      cached, walks := map[], 0;
    }

    /** `eagerIds`: worked out once a build. */
    method EagerIds(meta: Meta) returns (r: Result<set<Id>, BuildError>)
      requires Valid() && meta.Listed()
      modifies this`cached, this`walks
      ensures Valid()
      ensures r.Ok? ==> Exactly(meta.graph, r.value) && cached == old(cached)[meta := r.value]
      ensures r.Err? ==> cached == old(cached) && r.error == NoEntry
      ensures r.Err? <==> forall id :: !IsEntry(meta.graph, id)
      ensures walks == old(walks) + if r.Err? || meta in old(cached) then 0 else 1
    {
      if meta in cached {
        assert cached == cached[meta := cached[meta]];
        return Ok(cached[meta]);
      }
      var queue := Entries(meta);
      if queue == [] {
        forall id ensures !IsEntry(meta.graph, id) { assert id !in queue; }
        return Err(NoEntry);
      }
      assert queue[0] in queue;
      var ids := Walk(meta.graph, queue);
      walks := walks + 1;
      cached := cached[meta := ids];
      r := Ok(ids);
    }

    /** `manualChunks` */
    method ManualChunks(id: Id, meta: Meta) returns (r: Result<Option<Chunk>, BuildError>)
      requires Valid() && meta.Listed()
      modifies this`cached, this`walks
      ensures Valid()
      ensures r.Err? && r.error == NoEntry <==> Asks(id) && forall e :: !IsEntry(meta.graph, e)
      ensures r.Ok? || r.error != NoEntry ==> forall eager | Exactly(meta.graph, eager) :: r == ChunkOf(id, eager)
    {
      hide Contains, Stylesheet, AppCore, LazyOnly, ReactRuntime, FlowRuntime, Exactly;
      if !Asks(id) {
        r := ChunkOf(id, {});
        return;
      }
      var eager := EagerIds(meta);
      if eager.Err? { return Err(NoEntry); }
      forall other | Exactly(meta.graph, other) ensures other == eager.value { OneAnswer(meta.graph, other, eager.value); }
      r := ChunkOf(id, eager.value);
    }
  }

  /** There is one set of eager modules. */
  lemma OneAnswer(g: map<Id, Info>, a: set<Id>, b: set<Id>)
    requires Exactly(g, a) && Exactly(g, b)
    ensures a == b
  {
    forall id ensures id in a <==> id in b { assert id in a <==> Eager(g, id); }
  }

  /** A package in a named chunk is loaded by the entry's static imports, and is none of the lazy ones. */
  lemma NamedChunksAreEager(g: map<Id, Info>, eager: set<Id>, id: Id)
    requires Exactly(g, eager)
    requires ChunkOf(id, eager).Ok? && ChunkOf(id, eager).value.Some? && ChunkOf(id, eager).value != Some(I18n)
    ensures Eager(g, id)
    ensures Contains(id, "/node_modules/") ==> !LazyOnly(id)
  {
    hide Contains, Stylesheet, AppCore, LazyOnly, ReactRuntime, FlowRuntime, Eager;
  }

  lemma {:induction false} ContainsAt(a: string, part: string, b: string)
    ensures Contains(a + part + b, part)
  {
    var s := a + part + b;
    if a == "" {
      assert s[..|part|] == part;
    } else {
      assert s[1..] == a[1..] + part + b;
      ContainsAt(a[1..], part, b);
    }
  }

  const REACT_PACKAGES: set<string> := {"react", "react-dom", "scheduler", "zustand", "use-sync-external-store"}
  const LAZY_PACKAGES: set<string> := {"katex", "react-katex", "@codemirror", "@lezer"}

  function InPackage(before: string, package: string, after: string): Id {
    before + ("/node_modules/" + package + "/") + after
  }

  lemma PackageIsThere(before: string, package: string, after: string)
    ensures Contains(InPackage(before, package, after), "/node_modules/" + package + "/")
    ensures Contains(InPackage(before, package, after), "/node_modules/")
  {
    ContainsAt(before, "/node_modules/" + package + "/", after);
    ContainsAt(before, "/node_modules/", package + "/" + after);
    assert InPackage(before, package, after) == before + "/node_modules/" + (package + "/" + after);
  }

  /** Wherever it is installed, an eager module of the React runtime goes to that chunk, if it is code and in no lazy package. */
  lemma ReactPackagesTogether(before: string, package: string, after: string, eager: set<Id>)
    requires package in REACT_PACKAGES
    ensures var id := InPackage(before, package, after);
      id in eager && !LazyOnly(id) && !Stylesheet(id) ==> ChunkOf(id, eager) == Ok(Some(React))
  {
    hide Contains, Stylesheet;
    PackageIsThere(before, package, after);
    PackagePaths();
  }

  lemma PackagePaths()
    ensures "/node_modules/" + "react" + "/" == "/node_modules/react/" && "/node_modules/" + "react-dom" + "/" == "/node_modules/react-dom/"
    ensures "/node_modules/" + "scheduler" + "/" == "/node_modules/scheduler/" && "/node_modules/" + "zustand" + "/" == "/node_modules/zustand/"
    ensures "/node_modules/" + "use-sync-external-store" + "/" == "/node_modules/use-sync-external-store/"
    ensures "/node_modules/" + "katex" + "/" == "/node_modules/katex/" && "/node_modules/" + "react-katex" + "/" == "/node_modules/react-katex/"
    ensures "/node_modules/" + "@codemirror" + "/" == "/node_modules/@codemirror/" && "/node_modules/" + "@lezer" + "/" == "/node_modules/@lezer/"
  {
    ReactPaths();
    StorePaths();
    MathPaths();
    EditorPaths();
  }

  lemma ReactPaths()
    ensures "/node_modules/" + "react" + "/" == "/node_modules/react/" && "/node_modules/" + "react-dom" + "/" == "/node_modules/react-dom/"
    ensures "/node_modules/" + "scheduler" + "/" == "/node_modules/scheduler/"
  {
  }

  lemma StorePaths()
    ensures "/node_modules/" + "zustand" + "/" == "/node_modules/zustand/"
    ensures "/node_modules/" + "use-sync-external-store" + "/" == "/node_modules/use-sync-external-store/"
  {
  }

  lemma MathPaths()
    ensures "/node_modules/" + "katex" + "/" == "/node_modules/katex/" && "/node_modules/" + "react-katex" + "/" == "/node_modules/react-katex/"
  {
  }

  lemma EditorPaths()
    ensures "/node_modules/" + "@codemirror" + "/" == "/node_modules/@codemirror/" && "/node_modules/" + "@lezer" + "/" == "/node_modules/@lezer/"
  {
  }

  /** And a lazy package that is statically reachable fails the build, stylesheets included. */
  lemma LazyPackagesFail(before: string, package: string, after: string, eager: set<Id>)
    requires package in LAZY_PACKAGES
    ensures var id := InPackage(before, package, after);
      ChunkOf(id, eager) == if id in eager then Err(StaticLazyImport(id)) else Ok(None)
  {
    hide Contains, Stylesheet;
    PackageIsThere(before, package, after);
    PackagePaths();
  }

  /** The build fails on no module exactly when no lazy package is reachable by static imports. */
  lemma BuildPassesIff(g: map<Id, Info>, eager: set<Id>)
    requires Exactly(g, eager)
    ensures (forall id | id in g :: ChunkOf(id, eager).Ok?)
       <==> (forall id | id in g && Contains(id, "/node_modules/") && LazyOnly(id) :: !Eager(g, id))
  {
    hide Contains, Stylesheet, AppCore, LazyOnly, ReactRuntime, FlowRuntime, Eager;
    forall id | id in g ensures ChunkOf(id, eager).Err? <==> Contains(id, "/node_modules/") && LazyOnly(id) && Eager(g, id) {
    }
  }
}
