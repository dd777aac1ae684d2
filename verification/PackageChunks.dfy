/**
 Which chunk a module goes to, said of where it lies: the regular expressions
 of `manualChunks` in `frontend/vite.config.ts` against paths with one package
 or one source directory in them.
 */
module PackageChunks {
  import opened Wrappers
  import opened EagerIds

  // ── what the tests on a path say ──────────────────────────────────────

  predicate OccursAt(s: string, part: string, k: int) {
    0 <= k && k + |part| <= |s| && s[k..k + |part|] == part
  }

  lemma OccursLater(s: string, part: string, k: nat)
    requires s != ""
    ensures OccursAt(s[1..], part, k) <==> OccursAt(s, part, k + 1)
  {
    if k + 1 + |part| <= |s| { assert s[1..][k..k + |part|] == s[k + 1..k + 1 + |part|]; }
  }

  lemma {:induction false} OccursIff(s: string, part: string)
    ensures Contains(s, part) <==> exists k :: OccursAt(s, part, k)
  {
    if |part| <= |s| && s[..|part|] == part {
      assert s[..|part|] == s[0..|part|];
      assert OccursAt(s, part, 0);
    } else if |part| <= |s| {
      OccursIff(s[1..], part);
      assert s[0..|part|] == s[..|part|];
      if k :| OccursAt(s[1..], part, k) {
        OccursLater(s, part, k);
        assert OccursAt(s, part, k + 1);
      }
      if k :| OccursAt(s, part, k) {
        OccursLater(s, part, k - 1);
        assert OccursAt(s[1..], part, k - 1);
      }
    }
  }

  lemma {:induction false} SlashLaterIff(s: string)
    ensures SlashLater(s) <==> '/' in s
  {
    if s != "" { SlashLaterIff(s[1..]); }
  }

  /** `part`, and one more directory behind it. */
  predicate DirAt(s: string, part: string, k: int) {
    OccursAt(s, part, k) && SegmentThenSlash(s[k + |part|..])
  }

  lemma {:induction false} ContainsDirIff(s: string, prefix: string)
    ensures ContainsDir(s, prefix) <==> exists k :: DirAt(s, prefix, k)
  {
    if |prefix| < |s| && s[..|prefix|] == prefix && SegmentThenSlash(s[|prefix|..]) {
      assert s[..|prefix|] == s[0..|prefix|];
      assert DirAt(s, prefix, 0);
    } else if |prefix| < |s| {
      ContainsDirIff(s[1..], prefix);
      assert s[0..|prefix|] == s[..|prefix|] && s[0 + |prefix|..] == s[|prefix|..];
      if k :| DirAt(s[1..], prefix, k) {
        OccursLater(s, prefix, k);
        assert s[1..][k + |prefix|..] == s[k + 1 + |prefix|..];
        assert DirAt(s, prefix, k + 1);
      }
      if k :| DirAt(s, prefix, k) {
        OccursLater(s, prefix, k - 1);
        assert s[1..][k - 1 + |prefix|..] == s[k + |prefix|..];
        assert DirAt(s[1..], prefix, k - 1);
      }
    }
  }

  /** A module is a stylesheet exactly when its name ends in `.css` or has a query after one. */
  lemma StylesheetIff(id: Id)
    ensures Stylesheet(id) <==> OccursAt(id, ".css", |id| - 4) || exists k :: OccursAt(id, ".css?", k)
  {
    OccursIff(id, ".css?");
  }

  // ── a module of one package ───────────────────────────────────────────

  predicate Plain(name: string) {
    name != "" && '/' !in name
  }

  /** `part` stands in the path once, behind `before`. */
  ghost predicate Once(id: Id, part: string, before: string) {
    OccursAt(id, part, |before|) && forall k | OccursAt(id, part, k) :: k == |before|
  }

  predicate Starts(s: string, start: string) {
    |start| <= |s| && s[..|start|] == start
  }

  lemma There(before: string, root: string, rest: string, start: string)
    requires Starts(rest, start)
    ensures OccursAt(before + (root + rest), root + start, |before|)
    ensures (before + (root + rest))[|before| + |root + start|..] == rest[|start|..]
  {
    assert rest == start + rest[|start|..];
  }

  lemma Behind(before: string, root: string, rest: string, start: string, k: int)
    requires Once(before + (root + rest), root, before) && OccursAt(before + (root + rest), root + start, k)
    ensures k == |before| && Starts(rest, start)
    ensures (before + (root + rest))[k + |root + start|..] == rest[|start|..]
  {
    var id := before + (root + rest);
    assert id[k..k + |root|] == (root + start)[..|root|] == root;
    assert OccursAt(id, root, k);
    assert id[k + |root|..] == rest;
    assert rest[..|start|] == (root + start)[|root|..] == start;
  }

  lemma ContainsBehind(before: string, root: string, rest: string, start: string)
    requires Once(before + (root + rest), root, before)
    ensures Contains(before + (root + rest), root + start) <==> Starts(rest, start)
  {
    hide Once, OccursAt, Starts;
    var id := before + (root + rest);
    OccursIff(id, root + start);
    if Starts(rest, start) { There(before, root, rest, start); }
    if k :| OccursAt(id, root + start, k) { Behind(before, root, rest, start, k); }
  }

  lemma DirThere(before: string, root: string, rest: string, start: string)
    requires Starts(rest, start) && Segmented(rest[|start|..])
    ensures DirAt(before + (root + rest), root + start, |before|)
  {
    hide Segmented, SegmentThenSlash, OccursAt;
    There(before, root, rest, start);
    SegmentedIff(rest[|start|..]);
  }

  lemma DirIsBehind(before: string, root: string, rest: string, start: string, k: int)
    requires Once(before + (root + rest), root, before) && DirAt(before + (root + rest), root + start, k)
    ensures Starts(rest, start) && Segmented(rest[|start|..])
  {
    hide Segmented, SegmentThenSlash, OccursAt, Once;
    Behind(before, root, rest, start, k);
    SegmentedIff(rest[|start|..]);
  }

  lemma DirBehind(before: string, root: string, rest: string, start: string)
    requires Once(before + (root + rest), root, before)
    ensures ContainsDir(before + (root + rest), root + start) <==> Starts(rest, start) && Segmented(rest[|start|..])
  {
    hide Once, DirAt, Segmented;
    var id := before + (root + rest);
    ContainsDirIff(id, root + start);
    if Starts(rest, start) && Segmented(rest[|start|..]) { DirThere(before, root, rest, start); }
    if k :| DirAt(id, root + start, k) { DirIsBehind(before, root, rest, start, k); }
  }

  /** `[^/]+` and a slash. */
  predicate Segmented(s: string) {
    s != "" && s[0] != '/' && '/' in s
  }

  lemma SegmentedIff(s: string)
    ensures SegmentThenSlash(s) <==> Segmented(s)
  {
    if s != "" { SlashLaterIff(s[1..]); }
  }

  /** A path starts with a directory exactly when that is its first one. */
  lemma FirstDirectory(package: string, after: string, name: string)
    requires '/' !in package && '/' !in name
    ensures Starts(package + ("/" + after), name + "/") <==> package == name
    ensures package == name ==> (package + ("/" + after))[|name + "/"|..] == after
  {
    var rest := package + ("/" + after);
    if Starts(rest, name + "/") {
      assert rest == name + ("/" + rest[|name| + 1..]);
      SameSegment(name, rest[|name| + 1..], package, after);
    }
  }

  /** A path is cut at its first slash in one way. */
  lemma SameSegment(a: string, x: string, b: string, y: string)
    requires '/' !in a && '/' !in b && a + ("/" + x) == b + ("/" + y)
    ensures a == b && x == y
  {
    var s := a + ("/" + x);
    assert s[|a|] == '/' && s[|b|] == '/';
    assert forall i | 0 <= i < |a| :: s[i] == a[i];
    assert forall i | 0 <= i < |b| :: s[i] == b[i];
    assert s[..|a|] == a && s[..|b|] == b && s[|a| + 1..] == x && s[|b| + 1..] == y;
  }

  /** A path with one package in it. */
  function Inside(before: string, package: string, after: string): Id {
    before + ("/node_modules/" + (package + ("/" + after)))
  }

  ghost predicate OnePackage(before: string, package: string, after: string) {
    Plain(package) && Once(Inside(before, package, after), "/node_modules/", before)
  }

  lemma PackageIs(before: string, package: string, after: string, name: string)
    requires OnePackage(before, package, after) && Plain(name)
    ensures Contains(Inside(before, package, after), "/node_modules/" + name + "/") <==> package == name
  {
    hide Contains, Once, Starts;
    ContainsBehind(before, "/node_modules/", package + ("/" + after), name + "/");
    FirstDirectory(package, after, name);
    assert "/node_modules/" + (name + "/") == "/node_modules/" + name + "/";
  }

  /** A scope is a directory with packages in it: a name and a slash must follow. */
  lemma ScopeIs(before: string, package: string, after: string, scope: string)
    requires OnePackage(before, package, after) && Plain(scope)
    ensures ContainsDir(Inside(before, package, after), "/node_modules/" + scope + "/") <==> package == scope && Segmented(after)
  {
    hide ContainsDir, Once, Segmented;
    DirBehind(before, "/node_modules/", package + ("/" + after), scope + "/");
    FirstDirectory(package, after, scope);
    assert "/node_modules/" + (scope + "/") == "/node_modules/" + scope + "/";
  }

  /** `start[^/]+` and a slash: a package whose name starts so, and goes on. */
  lemma FamilyIs(before: string, package: string, after: string, start: string)
    requires OnePackage(before, package, after) && '/' !in start
    ensures ContainsDir(Inside(before, package, after), "/node_modules/" + start) <==> Starts(package, start) && |package| > |start|
  {
    hide ContainsDir, Once;
    DirBehind(before, "/node_modules/", package + ("/" + after), start);
    Family(package, after, start);
  }

  lemma Family(package: string, after: string, start: string)
    requires '/' !in package && '/' !in start
    ensures var rest := package + ("/" + after);
      Starts(rest, start) && Segmented(rest[|start|..]) <==> Starts(package, start) && |package| > |start|
  {
    var rest := package + ("/" + after);
    assert rest[|package|] == '/';
    if Starts(rest, start) {
      assert forall i | 0 <= i < |start| :: rest[i] == start[i];
      assert |start| <= |package|;
      assert rest[..|start|] == package[..|start|];
    }
    if Starts(package, start) {
      assert rest[..|start|] == package[..|start|];
      assert rest[|start|..][|package| - |start|] == '/';
      assert |package| > |start| ==> rest[|start|..][0] == package[|start|];
    }
  }

  lemma LazyIff(before: string, package: string, after: string)
    requires OnePackage(before, package, after)
    ensures LazyOnly(Inside(before, package, after)) <==>
      package == "katex" || package == "react-katex" || package == "@codemirror" || package == "@lezer"
  {
    hide Contains, OnePackage;
    PackageIs(before, package, after, "katex");
    PackageIs(before, package, after, "react-katex");
    PackageIs(before, package, after, "@codemirror");
    PackageIs(before, package, after, "@lezer");
    PackagePaths();
  }

  lemma ReactIff(before: string, package: string, after: string)
    requires OnePackage(before, package, after)
    ensures ReactRuntime(Inside(before, package, after)) <==>
      package == "react" || package == "react-dom" || package == "scheduler" || package == "zustand"
      || package == "use-sync-external-store"
  {
    hide Contains, OnePackage;
    PackageIs(before, package, after, "react");
    PackageIs(before, package, after, "react-dom");
    PackageIs(before, package, after, "scheduler");
    PackageIs(before, package, after, "zustand");
    PackageIs(before, package, after, "use-sync-external-store");
    PackagePaths();
  }

  lemma FlowIff(before: string, package: string, after: string)
    requires OnePackage(before, package, after)
    ensures FlowRuntime(Inside(before, package, after)) <==>
      || (package == "@xyflow" && Segmented(after)) || (package == "@dagrejs" && Segmented(after))
      || (Starts(package, "d3-") && |package| > 3) || package == "classcat"
  {
    hide Contains, ContainsDir, OnePackage, Segmented;
    ScopeIs(before, package, after, "@xyflow");
    ScopeIs(before, package, after, "@dagrejs");
    FamilyIs(before, package, after, "d3-");
    PackageIs(before, package, after, "classcat");
    FlowPaths();
  }

  lemma FlowPaths()
    ensures "/node_modules/" + "@xyflow" + "/" == "/node_modules/@xyflow/" && "/node_modules/" + "@dagrejs" + "/" == "/node_modules/@dagrejs/"
    ensures "/node_modules/" + "d3-" == "/node_modules/d3-" && "/node_modules/" + "classcat" + "/" == "/node_modules/classcat/"
  {
  }

  /**
   Where every module of one package goes: nowhere when it is loaded lazily;
   a static import of a lazy package fails the build; a stylesheet stays with
   its importer; the rest goes by the package's name.
   */
  lemma PackageChunk(before: string, package: string, after: string, eager: set<Id>)
    requires OnePackage(before, package, after)
    ensures Asks(Inside(before, package, after))
    ensures var id := Inside(before, package, after);
      ChunkOf(id, eager) ==
        if id !in eager then Ok(None)
        else if package in {"katex", "react-katex", "@codemirror", "@lezer"} then Err(StaticLazyImport(id))
        else if Stylesheet(id) then Ok(None)
        else if package in {"react", "react-dom", "scheduler", "zustand", "use-sync-external-store"} then Ok(Some(React))
        else if package in {"@xyflow", "@dagrejs"} && Segmented(after) then Ok(Some(Flow))
        else if package == "classcat" || (Starts(package, "d3-") && |package| > 3) then Ok(Some(Flow))
        else Ok(Some(Vendor))
  {
    hide Contains, ContainsDir, Stylesheet, LazyOnly, ReactRuntime, FlowRuntime, Segmented, Starts;
    LazyIff(before, package, after);
    ReactIff(before, package, after);
    FlowIff(before, package, after);
    OccursIff(Inside(before, package, after), "/node_modules/");
  }

  // ── a module of the application ───────────────────────────────────────

  /** A path with one source directory in it, and no package. */
  ghost predicate OneDirectory(before: string, dir: string, after: string) {
    && Plain(dir) && !Contains(Source(before, dir, after), "/node_modules/")
    && Once(Source(before, dir, after), "/src/", before)
  }

  function Source(before: string, dir: string, after: string): Id {
    before + ("/src/" + (dir + ("/" + after)))
  }

  lemma DirectoryIs(before: string, dir: string, after: string, name: string)
    requires OneDirectory(before, dir, after) && Plain(name)
    ensures Contains(Source(before, dir, after), "/src/" + name + "/") <==> dir == name
  {
    hide Contains, Once, Starts;
    ContainsBehind(before, "/src/", dir + ("/" + after), name + "/");
    FirstDirectory(dir, after, name);
    assert "/src/" + (name + "/") == "/src/" + name + "/";
  }

  lemma CoreIff(before: string, dir: string, after: string)
    requires OneDirectory(before, dir, after)
    ensures AppCore(Source(before, dir, after)) <==>
      dir == "store" || dir == "utils" || dir == "api" || dir == "hooks" || dir == "plugins"
  {
    hide Contains, OneDirectory;
    DirectoryIs(before, dir, after, "store");
    DirectoryIs(before, dir, after, "utils");
    DirectoryIs(before, dir, after, "api");
    DirectoryIs(before, dir, after, "hooks");
    DirectoryIs(before, dir, after, "plugins");
    CorePaths();
  }

  lemma CorePaths()
    ensures "/src/" + "store" + "/" == "/src/store/" && "/src/" + "utils" + "/" == "/src/utils/" && "/src/" + "api" + "/" == "/src/api/"
    ensures "/src/" + "hooks" + "/" == "/src/hooks/" && "/src/" + "plugins" + "/" == "/src/plugins/"
    ensures "/src/" + "i18n" + "/" == "/src/i18n/"
  {
  }

  /** Where every module of one source directory goes: the translations always together, the core only where it is eager. */
  lemma SourceChunk(before: string, dir: string, after: string, eager: set<Id>)
    requires OneDirectory(before, dir, after)
    ensures var id := Source(before, dir, after);
      Asks(id) <==> !Stylesheet(id) && dir in {"store", "utils", "api", "hooks", "plugins"}
    ensures var id := Source(before, dir, after);
      ChunkOf(id, eager) ==
        if Stylesheet(id) then Ok(None)
        else if dir == "i18n" then Ok(Some(I18n))
        else if dir in {"store", "utils", "api", "hooks", "plugins"} && id in eager then Ok(Some(AppCoreChunk))
        else Ok(None)
  {
    hide Contains, Stylesheet, AppCore, Once;
    CoreIff(before, dir, after);
    DirectoryIs(before, dir, after, "i18n");
    CorePaths();
  }

  /** A translation never asks what is eager, wherever else its path leads. */
  lemma TranslationsTogether(id: Id, eager: set<Id>)
    requires Contains(id, "/src/i18n/") && !Contains(id, "/node_modules/")
    ensures !Asks(id) && ChunkOf(id, eager) == Ok(if Stylesheet(id) then None else Some(I18n))
  {
    hide Contains, Stylesheet, AppCore;
  }
}
