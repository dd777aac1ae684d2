/**
 Lines that say something else than what they were printed for. Such a line
 can reach past its end and take others with it, so the reader is followed
 from the first of them on: a value that is defined stays defined, and the
 document is another one whatever follows.
 */
module StrayLines {
  import opened Wrappers
  import opened TomlText
  import opened TomlReader
  import opened ProjectManifest
  import opened QuotedText
  import opened ManifestReading
  import opened ManifestNormal

  // ── what stays in a document ──────────────────────────────────────────

  /** The table at `path` has `value` for `key`. */
  predicate Holds(root: Entries, path: seq<string>, key: string, value: Value) {
    var t := TableAt(root, path);
    t.Some? && key in Keys(t.value) && Get(t.value, key) == value
  }

  lemma PutOther(e: Entries, key: string, value: Value, other: string)
    requires key != other
    ensures other in Keys(Put(e, key, value)) <==> other in Keys(e)
    ensures other in Keys(e) ==> Get(Put(e, key, value), other) == Get(e, other)
  {
  }

  lemma PrefixTail(a: seq<string>, b: seq<string>)
    requires a != [] && b != [] && a[0] == b[0]
    ensures a <= b <==> a[1..] <= b[1..]
  {
    assert a == [a[0]] + a[1..] && b == [b[0]] + b[1..];
  }

  /** A prefix ends at the last part or before it. */
  lemma PrefixEnds(a: seq<string>, b: seq<string>)
    requires a != [] && b != []
    ensures a <= b ==> a == b || a <= b[..|b| - 1]
  {
  }

  /** A definition elsewhere leaves a value where it is. */
  lemma {:induction false} DefineKeeps(root: Entries, q: seq<string>, key2: string, value2: Value, 
                                       path: seq<string>, key: string, value: Value)
    requires Define(root, q, key2, value2).Some? && Holds(root, path, key, value) && !(path + [key] <= q)
    ensures Holds(Define(root, q, key2, value2).value, path, key, value)
    decreases |q|
  {
    var after := Define(root, q, key2, value2).value;
    if q == [] {
      if path == [] {
        PutOther(root, key2, value2, key);
      } else {
        PutOther(root, key2, value2, path[0]);
      }
    } else {
      var inner := Get(root, q[0]).entries;
      var inside := Define(inner, q[1..], key2, value2);
      assert after == Put(root, q[0], Tab(inside.value));
      PutGet(root, q[0], Tab(inside.value));
      if path == [] {
        assert key == q[0] ==> path + [key] <= q;
        PutOther(root, q[0], Tab(inside.value), key);
      } else if path[0] != q[0] {
        PutOther(root, q[0], Tab(inside.value), path[0]);
      } else {
        assert (path + [key])[1..] == path[1..] + [key];
        PrefixTail(path + [key], q);
        DefineKeeps(inner, q[1..], key2, value2, path[1..], key, value);
      }
    }
  }

  /** No table is inside the value at `full`. */
  ghost predicate Outside(tables: set<seq<string>>, full: seq<string>) {
    forall q | q in tables :: !(full <= q)
  }

  /** Once defined, a value stays through every line that may follow. */
  lemma {:induction false} ValueStays(root: Entries, at: seq<string>, lines: seq<Line>, tables: set<seq<string>>,
                                       path: seq<string>, key: string, value: Value)
    requires Holds(root, path, key, value) && InsideOpened(lines, tables) && at in tables && Outside(tables, path + [key])
    requires Build(root, at, lines).Some?
    ensures Holds(Build(root, at, lines).value, path, key, value)
    decreases |lines|
  {
    if lines != [] {
      match lines[0]
      case Nothing => ValueStays(root, at, lines[1..], tables, path, key, value);
      case Pair(k, v) =>
        DefineKeeps(root, at, k, v, path, key, value);
        ValueStays(Define(root, at, k, v).value, at, lines[1..], tables, path, key, value);
      case Header(p) =>
        var parent, last := p[..|p| - 1], p[|p| - 1];
        var grown := Define(root, parent, last, Tab(End));
        NotBelow(root, p, path, key, value, tables);
        DefineKeeps(root, parent, last, Tab(End), path, key, value);
        ValueStays(grown.value, p, lines[1..], tables + {p}, path, key, value);
    }
  }

  /** A header that may be opened does not name the value or anything below it. */
  lemma NotBelow(root: Entries, p: seq<string>, path: seq<string>, key: string, value: Value, tables: set<seq<string>>)
    requires p != [] && p[..|p| - 1] in tables && Outside(tables, path + [key])
    requires Holds(root, path, key, value) && Define(root, p[..|p| - 1], p[|p| - 1], Tab(End)).Some?
    ensures !(path + [key] <= p)
  {
    PrefixEnds(path + [key], p);
    assert (path + [key])[..|path|] == path;
  }

  // ── lines that say something else ─────────────────────────────────────

  /** Line by line, exact or straying. */
  ghost predicate Aligned(lines: seq<string>, tokens: seq<Line>) {
    |lines| == |tokens| && (lines != [] ==> (Exact(lines[0], tokens[0]) || Strays(lines[0], tokens[0])) && Aligned(lines[1..], tokens[1..]))
  }

  ghost predicate AllExact(lines: seq<string>, tokens: seq<Line>) {
    |lines| == |tokens| && (lines != [] ==> Exact(lines[0], tokens[0]) && AllExact(lines[1..], tokens[1..]))
  }

  predicate ShortHeaders(tokens: seq<Line>) {
    forall i | 0 <= i < |tokens| :: tokens[i].Header? ==> |tokens[i].path| == 1
  }

  /** Whatever stands in the lines, they may follow an unfinished string. */
  predicate ShutEach(lines: seq<string>) {
    lines != [] ==> Shut(lines[0]) && ShutEach(lines[1..])
  }

  lemma {:induction false} ShutLines(lines: seq<string>, more: string)
    requires ShutEach(lines) && Shut(more)
    ensures Shut(Join(lines) + more)
  {
    if lines == [] {
      assert Join(lines) + more == more;
    } else {
      ShutLines(lines[1..], more);
      ShutJoin(lines[0], Join(lines[1..]) + more);
      assert Join(lines) + more == lines[0] + "\n" + (Join(lines[1..]) + more);
    }
  }

  /** One more table a header has opened is still short. */
  ghost predicate Shallow(at: seq<string>, tables: set<seq<string>>) {
    at in tables && (forall q | q in tables :: |q| <= 1) && (at == [] ==> tables == {[]})
  }

  /** What is read of a line and the text after it. */
  lemma ReadsFirst(line: string, more: string)
    ensures var first, all := ReadLine(line + "\n" + more), ReadLines(line + "\n" + more);
      all.Some? ==> first.Got? && all.value != [] && all.value == [first.value] + all.value[1..]
    ensures var first := ReadLine(line + "\n" + more);
      first.Got? && first.rest == "\n" + more && ReadLines(line + "\n" + more).Some? ==>
        ReadLines(more) == Some(ReadLines(line + "\n" + more).value[1..])
  {
    hide ReadLine;
    assert ("\n" + more)[1..] == more;
  }

  /** One token taken by both documents. */
  lemma SameStep(root: Entries, at: seq<string>, t: Line, tables: set<seq<string>>, rest: seq<Line>)
    returns (root': Entries, at': seq<string>, tables': set<seq<string>>)
    requires Build(root, at, [t] + rest).Some? && InsideOpened([t] + rest, tables) && Shallow(at, tables)
    requires t.Header? ==> |t.path| == 1
    ensures Shallow(at', tables')
    ensures forall more :: Build(root, at, [t] + more) == Build(root', at', more)
    ensures InsideOpened(rest, tables')
    ensures forall more :: InsideOpened([t] + more, tables) ==> InsideOpened(more, tables')
  {
    assert ([t] + rest)[1..] == rest;
    assert forall more: seq<Line> :: ([t] + more)[1..] == more;
    match t
    case Nothing => root', at', tables' := root, at, tables;
    case Pair(k, v) => root', at', tables' := Define(root, at, k, v).value, at, tables;
    case Header(p) =>
      root', at', tables' := Define(root, p[..|p| - 1], p[|p| - 1], Tab(End)).value, p, tables + {p};
  }

  /** Two documents part for good at a pair that is given different values. */
  lemma ValuesPart(root: Entries, at: seq<string>, key: string, v: Value, w: Value, a: seq<Line>, b: seq<Line>,
                   tables: set<seq<string>>)
    requires Shallow(at, tables) && v != w
    requires InsideOpened(a, tables) && InsideOpened(b, tables)
    requires Build(root, at, [Pair(key, v)] + a).Some? && Build(root, at, [Pair(key, w)] + b).Some?
    ensures Build(root, at, [Pair(key, v)] + a) != Build(root, at, [Pair(key, w)] + b)
  {
    assert ([Pair(key, v)] + a)[1..] == a && ([Pair(key, w)] + b)[1..] == b;
    DefinedIs(root, at, key, v);
    DefinedIs(root, at, key, w);
    forall q | q in tables ensures !(at + [key] <= q) {
      assert at != [] ==> |at + [key]| >= 2;
    }
    ValueStays(Define(root, at, key, v).value, at, a, tables, at, key, v);
    ValueStays(Define(root, at, key, w).value, at, b, tables, at, key, w);
  }

  lemma DefinedIs(root: Entries, at: seq<string>, key: string, v: Value)
    requires Define(root, at, key, v).Some?
    ensures Holds(Define(root, at, key, v).value, at, key, v)
  {
    var t := TableAt(root, at).value;
    SetThenAt(root, at, Put(t, key, v));
    PutGet(t, key, v);
  }

  lemma ExactNow(line: string, t: Line, rest: string)
    requires Exact(line, t)
    ensures ReadLine(line + "\n" + rest) == Got(t, "\n" + rest)
  {
    hide ReadLine;
  }

  /** At a straying line. */
  lemma StrayParts(line: string, token: Line, rest: string, tail: seq<Line>, others: seq<Line>,
                   root: Entries, at: seq<string>, tables: set<seq<string>>)
    requires Strays(line, token) && Shut(rest) && Shallow(at, tables)
    requires ReadLine(line + "\n" + rest).Got?
    requires var found := [ReadLine(line + "\n" + rest).value] + tail;
      InsideOpened(found, tables) && Build(root, at, found).Some?
    requires Build(root, at, [token] + others).Some? && InsideOpened([token] + others, tables)
    ensures Build(root, at, [ReadLine(line + "\n" + rest).value] + tail) != Build(root, at, [token] + others)
  {
    hide ReadLine, Build, InsideOpened, Shallow, Shut;
    assert StraysBefore(line, token, rest);
    var first := ReadLine(line + "\n" + rest).value;
    InsideRest(first, tail, tables);
    InsideRest(token, others, tables);
    ValuesPart(root, at, first.key, first.value, token.value, tail, others, tables);
  }

  /** A document with a straying line is not the one its lines were printed for, whatever follows. */
  lemma {:induction false} StrayBreaks(lines: seq<string>, tokens: seq<Line>, more: string, others: seq<Line>,
                                       root: Entries, at: seq<string>, tables: set<seq<string>>)
    requires Aligned(lines, tokens) && !AllExact(lines, tokens) && ShortHeaders(tokens) && Shallow(at, tables)
    requires ShutEach(lines) && Shut(more)
    requires Build(root, at, tokens + others).Some? && InsideOpened(tokens + others, tables)
    ensures var found := ReadLines(Join(lines) + more);
      found.Some? && InsideOpened(found.value, tables) ==> Build(root, at, found.value) != Build(root, at, tokens + others)
    decreases |lines|
  {
    hide ReadLine, ReadLines, Build, InsideOpened, Shallow, Shut, Exact, Strays;
    var rest := Join(lines[1..]) + more;
    var found := ReadLines(lines[0] + "\n" + rest);
    assert Join(lines) + more == lines[0] + "\n" + rest;
    assert tokens + others == [tokens[0]] + (tokens[1..] + others);
    ReadsFirst(lines[0], rest);
    if found.Some? && InsideOpened(found.value, tables) && Build(root, at, found.value).Some? {
      var tail := found.value[1..];
      if Exact(lines[0], tokens[0]) {
        ExactNow(lines[0], tokens[0], rest);
        assert found.value == [tokens[0]] + tail;
        assert ShortHeaders(tokens[1..]);
        var root', at', tables' := SameStep(root, at, tokens[0], tables, tokens[1..] + others);
        StrayBreaks(lines[1..], tokens[1..], more, others, root', at', tables');
        assert Build(root, at, [tokens[0]] + tail) == Build(root', at', tail);
      } else {
        ShutLines(lines[1..], more);
        StrayParts(lines[0], tokens[0], rest, tail, tokens[1..] + others, root, at, tables);
      }
    }
  }

  lemma InsideRest(t: Line, rest: seq<Line>, tables: set<seq<string>>)
    requires InsideOpened([t] + rest, tables) && !t.Header?
    ensures InsideOpened(rest, tables)
  {
    assert ([t] + rest)[1..] == rest;
  }
}
