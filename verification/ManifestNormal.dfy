/** What a frozen manifest says: the user's keys as they were, the managed ones filled in, the pins replaced. */
module ManifestNormal {
  import opened Wrappers
  import opened TomlText
  import opened TomlReader
  import opened ProjectManifest
  import opened ManifestReading

  /** A table in the order it is printed: its pairs, then its tables. */
  function NormalTable(t: Entries): Entries
    decreases t, 1
  {
    Concat(Scalars(t), NormalTables(t))
  }

  function NormalTables(t: Entries): Entries
    decreases t, 0
  {
    if t.End? then End
    else if t.value.Tab? then Entry(t.key, Tab(NormalTable(t.value.entries)), NormalTables(t.rest))
    else NormalTables(t.rest)
  }

  function Optional(e: Entries, key: string): Entries {
    if TextOf(e, key) != "" then Entry(key, Str(TextOf(e, key)), End) else End
  }

  function NormalProject(p: Entries): Entries {
    Entry("name", Str(TextOf(p, "name")), Entry("format_version", Int(FormatVersion(p)),
          Concat(Optional(p, "requires_codefyui"), Without(p, PROJECT_KEYS))))
  }

  function RecordIo(p: Entries): Entries {
    if "record_io" in Keys(p) then Entry("record_io", Bool(Truthy(Get(p, "record_io"))), End) else End
  }

  function NormalPublish(p: Entries): Entries {
    Concat(Optional(p, "graph"), Concat(Optional(p, "slug"), Concat(RecordIo(p), Without(p, PUBLISH_KEYS))))
  }

  function PinEntries(pins: seq<Pin>): Entries {
    if pins == [] then End else Entry(pins[0].id, PinTable(pins[0]), PinEntries(pins[1..]))
  }

  function PublishEntry(p: Entries): Entries {
    if p.End? then End else Entry("publish", Tab(NormalPublish(p)), End)
  }

  function Normal(m: Entries, pins: seq<Pin>): Entries {
    Concat(Scalars(Extras(m)),
           Entry("project", Tab(NormalProject(TableOf(m, "project"))),
                 Entry("plugins", Tab(PinEntries(SortPins(pins))),
                       Concat(PublishEntry(TableOf(m, "publish")), NormalTables(Extras(m))))))
  }

  // ── entries ───────────────────────────────────────────────────────────

  lemma ConcatKeys(a: Entries, b: Entries)
    ensures Keys(Concat(a, b)) == Keys(a) + Keys(b)
  {
  }

  lemma ConcatAssoc(a: Entries, b: Entries, c: Entries)
    ensures Concat(Concat(a, b), c) == Concat(a, Concat(b, c))
  {
  }

  lemma ConcatEnd(a: Entries)
    ensures Concat(a, End) == a
  {
  }

  lemma ConcatGet(a: Entries, b: Entries, key: string)
    requires key in Keys(a) + Keys(b)
    ensures key in Keys(Concat(a, b))
    ensures Get(Concat(a, b), key) == if key in Keys(a) then Get(a, key) else Get(b, key)
  {
    ConcatKeys(a, b);
  }

  /** A key that is new goes to the end. */
  lemma PutNew(e: Entries, key: string, value: Value)
    requires key !in Keys(e)
    ensures Put(e, key, value) == Concat(e, Entry(key, value, End))
  {
  }

  lemma PutLast(e: Entries, key: string, value: Value, other: Value)
    requires key !in Keys(e)
    ensures Put(Concat(e, Entry(key, value, End)), key, other) == Concat(e, Entry(key, other, End))
  {
  }

  lemma GetLast(e: Entries, key: string, value: Value)
    requires key !in Keys(e)
    ensures key in Keys(Concat(e, Entry(key, value, End)))
    ensures Get(Concat(e, Entry(key, value, End)), key) == value
  {
    ConcatGet(e, Entry(key, value, End), key);
  }

  lemma PutGet(e: Entries, key: string, value: Value)
    ensures Keys(Put(e, key, value)) == Keys(e) + {key}
    ensures Get(Put(e, key, value), key) == value
  {
  }

  lemma PutPut(e: Entries, key: string, value: Value, other: Value)
    ensures Put(Put(e, key, value), key, other) == Put(e, key, other)
  {
  }

  lemma FilteredKeys(e: Entries, names: set<string>)
    ensures Keys(Without(e, names)) == Keys(e) - names
    ensures Keys(Scalars(e)) <= Keys(e)
    ensures Keys(NormalTables(e)) <= Keys(e)
  {
  }

  lemma FilteredDistinct(e: Entries, names: set<string>)
    requires DistinctEntries(e)
    ensures DistinctEntries(Without(e, names)) && DistinctEntries(Scalars(e))
    ensures Keys(Scalars(e)) !! Keys(NormalTables(e))
  {
    if e.Entry? {
      FilteredKeys(e.rest, names);
      FilteredDistinct(e.rest, names);
    }
  }

  lemma GetDistinct(e: Entries, key: string)
    requires DistinctEntries(e) && key in Keys(e)
    ensures Distinct(Get(e, key))
  {
  }

  lemma TableDistinct(m: Entries, key: string)
    requires DistinctEntries(m)
    ensures DistinctEntries(TableOf(m, key))
  {
    if key in Keys(m) { GetDistinct(m, key); }
  }

  // ── tables inside tables ──────────────────────────────────────────────

  lemma {:induction false} SetThenAt(root: Entries, path: seq<string>, t: Entries)
    requires TableAt(root, path).Some?
    ensures TableAt(SetTableAt(root, path, t), path) == Some(t)
    decreases |path|
  {
    if path != [] {
      var inner := Get(root, path[0]).entries;
      SetThenAt(inner, path[1..], t);
      PutGet(root, path[0], Tab(SetTableAt(inner, path[1..], t)));
    }
  }

  lemma {:induction false} SetTwice(root: Entries, path: seq<string>, t: Entries, u: Entries)
    requires TableAt(root, path).Some? && TableAt(SetTableAt(root, path, t), path).Some?
    ensures SetTableAt(SetTableAt(root, path, t), path, u) == SetTableAt(root, path, u)
    decreases |path|
  {
    if path != [] {
      var inner := Get(root, path[0]).entries;
      var set1 := Tab(SetTableAt(inner, path[1..], t));
      PutGet(root, path[0], set1);
      SetTwice(inner, path[1..], t, u);
      PutPut(root, path[0], set1, Tab(SetTableAt(inner, path[1..], u)));
    }
  }

  /** A table inside the table at `path`. */
  lemma {:induction false} AtDeeper(root: Entries, path: seq<string>, key: string)
    requires TableAt(root, path).Some?
    requires key in Keys(TableAt(root, path).value) && Get(TableAt(root, path).value, key).Tab?
    ensures TableAt(root, path + [key]) == Some(Get(TableAt(root, path).value, key).entries)
    decreases |path|
  {
    if path == [] {
      assert (path + [key])[1..] == [];
    } else {
      assert (path + [key])[1..] == path[1..] + [key];
      AtDeeper(Get(root, path[0]).entries, path[1..], key);
    }
  }

  lemma {:induction false} SetDeeper(root: Entries, path: seq<string>, key: string, t: Entries)
    requires TableAt(root, path).Some?
    requires key in Keys(TableAt(root, path).value) && Get(TableAt(root, path).value, key).Tab?
    requires TableAt(root, path + [key]).Some?
    ensures SetTableAt(root, path + [key], t) == SetTableAt(root, path, Put(TableAt(root, path).value, key, Tab(t)))
    decreases |path|
  {
    if path == [] {
      assert (path + [key])[1..] == [];
    } else {
      assert (path + [key])[1..] == path[1..] + [key];
      SetDeeper(Get(root, path[0]).entries, path[1..], key, t);
    }
  }
}
