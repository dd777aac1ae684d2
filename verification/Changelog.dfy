/**
 The release guard of `scripts/check_changelog.py`: `_parse`, `_versions`,
 `_newest_first`, `_repeated_subsections` and `problems`. A problem is what
 one message says, without its wording.
 */
module Changelog {
  import opened Wrappers
  import opened AsciiText
  import opened Sequences
  import opened ChangelogText

  const UNRELEASED := "[Unreleased]"

  /** A `## [name]` heading other than `[Unreleased]`. */
  datatype Section = Section(heading: string, name: string, rest: string)

  datatype Problem =
    | NoUnreleased
    | UnreleasedNotFirst(above: string)
    | UnreleasedTwice(times: nat)
    | Repeated(section: string, sub: string, times: nat)
    | NoVersion
    | NotAVersionBelow(heading: string)
    | Undated(heading: string)
    | NotADate(heading: string)
    | SectionTwice(name: string, times: nat)
    | OutOfOrder(below: string, above: string)
    | NotShipped(newest: string, version: string, listed: bool)
    | NoUnreleasedLink(release: Option<string>)
    | DefinedTwice(name: string, times: nat)
    | WrongUnreleasedStart(url: string, newest: string)
    | NoLink(name: string, previous: Option<string>)
    | WrongEnd(name: string, url: string)
    | WrongStart(name: string, url: string, below: string)
    | DatedBefore(newest: string, older: string)

  // ── what the file says ────────────────────────────────────────────────

  function Headings(lines: seq<string>): seq<string> {
    if lines == [] then []
    else
      var h := HeadingOf(lines[0]);
      (if h.Some? then [h.value] else []) + Headings(lines[1..])
  }

  /** The URLs of every link whose folded label is `key`, in file order. */
  function Targets(lines: seq<string>, key: string): seq<string> {
    if lines == [] then [] else TargetOf(lines[0], key) + Targets(lines[1..], key)
  }

  function TargetOf(line: string, key: string): seq<string> {
    if HeadingOf(line).None? && LinkOf(line).Some? && Lower(LinkOf(line).value.0) == key
    then [LinkOf(line).value.1] else []
  }

  function SectionOf(heading: string): Option<Section> {
    var b := Bracketed(heading);
    if b.Some? && b.value.0 != "Unreleased" then Some(Section(heading, b.value.0, b.value.1)) else None
  }

  /** `_versions` */
  function Sections(headings: seq<string>): seq<Section> {
    if headings == [] then []
    else
      var s := SectionOf(headings[0]);
      (if s.Some? then [s.value] else []) + Sections(headings[1..])
  }

  function Count(names: seq<string>, name: string): nat {
    if names == [] then 0 else (if names[0] == name then 1 else 0) + Count(names[1..], name)
  }

  function Names(sections: seq<Section>): (r: seq<string>)
    ensures |r| == |sections|
  {
    if sections == [] then [] else [sections[0].name] + Names(sections[1..])
  }

  /** The first section of each name: the keys of `dates`, in file order. */
  function Firsts(sections: seq<Section>, seen: set<string>): seq<Section> {
    if sections == [] then []
    else if sections[0].name in seen then Firsts(sections[1..], seen)
    else [sections[0]] + Firsts(sections[1..], seen + {sections[0].name})
  }

  function DateOf(s: Section): Option<Date> {
    var d := Dated(s.rest);
    if d.Some? && ValidDate(IsoDate(DatedIso(s.rest))) then Some(IsoDate(DatedIso(s.rest))) else None
  }

  /** The date as written. */
  function DatedIso(rest: string): (s: string)
    requires Dated(rest).Some?
    ensures IsoShaped(s)
  {
    rest[3..]
  }

  function DateIn(sections: seq<Section>, name: string): Option<Date> {
    if sections == [] then None
    else if sections[0].name == name then DateOf(sections[0])
    else DateIn(sections[1..], name)
  }

  // ── newest first ──────────────────────────────────────────────────────

  predicate AllVersions(names: seq<string>) {
    names != [] ==> VersionKey(names[0]).Some? && AllVersions(names[1..])
  }

  /** `a` sorts below `b`; both versions. */
  predicate Below(a: string, b: string) {
    VersionKey(a).Some? && VersionKey(b).Some? && KeyLess(VersionKey(a).value, VersionKey(b).value)
  }

  function InsertNewest(name: string, sorted: seq<string>): seq<string> {
    if sorted == [] || !Below(name, sorted[0]) then [name] + sorted
    else [sorted[0]] + InsertNewest(name, sorted[1..])
  }

  /** `sorted(labels, key=_version_key, reverse=True)`: stable. */
  function SortNewest(names: seq<string>): seq<string> {
    if names == [] then [] else InsertNewest(names[0], SortNewest(names[1..]))
  }

  /** `_newest_first` */
  function NewestFirst(names: seq<string>): seq<string> {
    if AllVersions(names) then SortNewest(names) else names
  }

  // ── the rules ─────────────────────────────────────────────────────────

  function UnreleasedRule(headings: seq<string>): seq<Problem> {
    var n := Count(headings, UNRELEASED);
    (if n == 0 then [NoUnreleased]
     else if headings != [] && headings[0] != UNRELEASED then [UnreleasedNotFirst(headings[0])] else [])
    + if n > 1 then [UnreleasedTwice(n)] else []
  }

  /** The `seen` dict of `_repeated_subsections`, in insertion order. */
  function Bump(seen: seq<(string, nat)>, sub: string): seq<(string, nat)> {
    if seen == [] then [(sub, 1)]
    else if seen[0].0 == sub then [(sub, seen[0].1 + 1)] + seen[1..]
    else [seen[0]] + Bump(seen[1..], sub)
  }

  function Report(section: string, seen: seq<(string, nat)>): seq<Problem> {
    if seen == [] then []
    else (if seen[0].1 > 1 then [Repeated(section, seen[0].0, seen[0].1)] else []) + Report(section, seen[1..])
  }

  predicate IsSub(line: string) {
    StartsWith(line, "### ")
  }

  function SubOf(line: string): string
    requires IsSub(line)
  {
    Strip(line[4..])
  }

  /** From some line on, with the section open there and the subsections it had so far. */
  function RepeatedFrom(lines: seq<string>, section: Option<string>, seen: seq<(string, nat)>): seq<Problem> {
    var here := Report(if section.Some? then section.value else "None", seen);
    if lines == [] then here
    else if HeadingOf(lines[0]).Some? then here + RepeatedFrom(lines[1..], HeadingOf(lines[0]), [])
    else RepeatedFrom(lines[1..], section, if section.Some? && IsSub(lines[0]) then Bump(seen, SubOf(lines[0])) else seen)
  }

  function RepeatedRule(lines: seq<string>): seq<Problem> {
    RepeatedFrom(lines, None, [])
  }

  function IndexIn(names: seq<string>, name: string): (i: nat)
    ensures i <= |names| && name !in names[..i] && (i < |names| ==> names[i] == name)
  {
    if names == [] || names[0] == name then 0
    else
      var i := 1 + IndexIn(names[1..], name);
      assert names[..i] == [names[0]] + names[1..][..i - 1];
      i
  }

  function BelowRule(headings: seq<string>, sections: seq<Section>): seq<Problem> {
    if sections == [] then [NoVersion]
    else
      var below := IndexIn(headings, UNRELEASED) + 1;
      if Count(headings, UNRELEASED) > 0 && below < |headings| && Bracketed(headings[below]).None?
      then [NotAVersionBelow(headings[below])] else []
  }

  function DateProblem(s: Section): seq<Problem> {
    if Dated(s.rest).None? then [Undated(s.heading)] else if DateOf(s).None? then [NotADate(s.heading)] else []
  }

  function DatesRule(firsts: seq<Section>): seq<Problem> {
    if firsts == [] then [] else DateProblem(firsts[0]) + DatesRule(firsts[1..])
  }

  function TwiceRule(order: seq<string>, names: seq<string>): seq<Problem> {
    if order == [] then []
    else (if Count(names, order[0]) > 1 then [SectionTwice(order[0], Count(names, order[0]))] else []) + TwiceRule(order[1..], names)
  }

  function OrderRule(order: seq<string>): seq<Problem> {
    if |order| < 2 then []
    else (if Below(order[0], order[1]) then [OutOfOrder(order[1], order[0])] else []) + OrderRule(order[1..])
  }

  function ShippedRule(order: seq<string>, version: string): seq<Problem> {
    if order != [] && order[0] != version then [NotShipped(order[0], version, version in order)] else []
  }

  function Head(order: seq<string>): Option<string> {
    if order == [] then None else Some(order[0])
  }

  function UnreleasedLinkRule(order: seq<string>, targets: seq<string>): seq<Problem> {
    if targets == [] then [NoUnreleasedLink(Head(order))]
    else
      var compared := Compared(targets[0]);
      (if |targets| > 1 then [DefinedTwice("Unreleased", |targets|)] else [])
      + if order != [] && (compared.None? || compared.value.0 != order[0])
        then [WrongUnreleasedStart(targets[0], order[0])] else []
  }

  function LinkProblems(name: string, below: Option<string>, targets: seq<string>): seq<Problem> {
    if targets == [] then [NoLink(name, below)]
    else
      var compared := Compared(targets[0]);
      (if |targets| > 1 then [DefinedTwice(name, |targets|)] else [])
      + if compared.None? || compared.value.1 != name then [WrongEnd(name, targets[0])]
        else if below.Some? && compared.value.0 != below.value then [WrongStart(name, targets[0], below.value)]
        else []
  }

  function LinksRule(order: seq<string>, lines: seq<string>): seq<Problem> {
    if order == [] then []
    else LinkProblems(order[0], Head(order[1..]), Targets(lines, Lower(order[0]))) + LinksRule(order[1..], lines)
  }

  function DatedBeforeRule(order: seq<string>, sections: seq<Section>): seq<Problem> {
    if |order| < 2 then []
    else
      var newer, older := DateIn(sections, order[0]), DateIn(sections, order[1]);
      if newer.Some? && older.Some? && Earlier(newer.value, older.value) then [DatedBefore(order[0], order[1])] else []
  }

  /** `problems`, by rule. */
  function Problems(lines: seq<string>, version: string): seq<Problem> {
    var headings := Headings(lines);
    var sections := Sections(headings);
    var firsts := Firsts(sections, {});
    var listed := Names(firsts);
    var order := NewestFirst(listed);
    UnreleasedRule(headings) + RepeatedRule(lines) + BelowRule(headings, sections) + DatesRule(firsts)
    + TwiceRule(listed, Names(sections)) + OrderRule(listed) + ShippedRule(order, version)
    + UnreleasedLinkRule(order, Targets(lines, "unreleased")) + LinksRule(order, lines) + DatedBeforeRule(order, sections)
  }

  // ── the program ───────────────────────────────────────────────────────

  /** `links.get(key, [])` */
  function At(links: map<string, seq<string>>, key: string): seq<string> {
    if key in links then links[key] else []
  }

  /** One line more. */
  lemma ParseStep(lines: seq<string>, i: nat)
    requires i < |lines|
    ensures Headings(lines[i..])
         == (if HeadingOf(lines[i]).Some? then [HeadingOf(lines[i]).value] else []) + Headings(lines[i + 1..])
    ensures forall key :: Targets(lines[i..], key) == TargetOf(lines[i], key) + Targets(lines[i + 1..], key)
  {
    hide HeadingOf, TargetOf;
    assert lines[i..][0] == lines[i] && lines[i..][1..] == lines[i + 1..];
  }

  /** `links.setdefault(label.casefold(), []).append(url)` where the line is a link. */
  function Added(links: map<string, seq<string>>, line: string): map<string, seq<string>> {
    if HeadingOf(line).Some? || LinkOf(line).None? then links
    else
      var key := Lower(LinkOf(line).value.0);
      links[key := At(links, key) + [LinkOf(line).value.1]]
  }

  lemma AddedAt(links: map<string, seq<string>>, line: string, key: string)
    ensures At(Added(links, line), key) == At(links, key) + TargetOf(line, key)
  {
    hide HeadingOf, LinkOf, Lower;
  }

  ghost predicate Collected(links: map<string, seq<string>>, rest: seq<string>, lines: seq<string>) {
    forall key :: At(links, key) + Targets(rest, key) == Targets(lines, key)
  }

  lemma CollectStep(links: map<string, seq<string>>, lines: seq<string>, i: nat)
    requires i < |lines| && Collected(links, lines[i..], lines)
    ensures Collected(Added(links, lines[i]), lines[i + 1..], lines)
  {
    hide Added, At, TargetOf, HeadingOf, Headings, Targets;
    ParseStep(lines, i);
    forall key ensures At(Added(links, lines[i]), key) + Targets(lines[i + 1..], key) == Targets(lines, key) {
      AddedAt(links, lines[i], key);
      assert At(links, key) + Targets(lines[i..], key) == Targets(lines, key);
      Associative(At(links, key), TargetOf(lines[i], key), Targets(lines[i + 1..], key));
    }
  }

  /** `_parse` */
  method Parse(lines: seq<string>) returns (headings: seq<string>, links: map<string, seq<string>>)
    ensures headings == Headings(lines)
    ensures forall key :: At(links, key) == Targets(lines, key)
  {
    hide HeadingOf, LinkOf, Lower, Headings, Targets, Collected;
    headings, links := [], map[];
    CollectNothing(lines);
    var i := 0;
    while i < |lines|
      invariant 0 <= i <= |lines|
      invariant headings + Headings(lines[i..]) == Headings(lines)
      invariant Collected(links, lines[i..], lines)
    {
      var heading := HeadingOf(lines[i]);
      ParseStep(lines, i);
      CollectStep(links, lines, i);
      Associative(headings, if heading.Some? then [heading.value] else [], Headings(lines[i + 1..]));
      if heading.Some? {
        headings := headings + [heading.value];
      } else {
        var found := LinkOf(lines[i]);
        if found.Some? {
          var key := Lower(found.value.0);
          links := links[key := At(links, key) + [found.value.1]];
        }
      }
      i := i + 1;
    }
    CollectAll(links, lines, i);
  }

  lemma CollectNothing(lines: seq<string>)
    ensures [] + Headings(lines[0..]) == Headings(lines) && Collected(map[], lines[0..], lines)
  {
    assert lines[0..] == lines;
    assert forall key :: At(map[], key) + Targets(lines, key) == Targets(lines, key);
  }

  lemma CollectAll(links: map<string, seq<string>>, lines: seq<string>, i: nat)
    requires i == |lines| && Collected(links, lines[i..], lines)
    ensures forall key :: At(links, key) == Targets(lines, key)
    ensures Headings(lines[i..]) == []
  {
    assert lines[i..] == [];
    forall key ensures At(links, key) == Targets(lines, key) {
      assert At(links, key) + Targets([], key) == Targets(lines, key);
    }
  }

  lemma SectionsStep(headings: seq<string>, i: nat)
    requires i < |headings|
    ensures Sections(headings[i..])
         == (if SectionOf(headings[i]).Some? then [SectionOf(headings[i]).value] else []) + Sections(headings[i + 1..])
  {
    hide SectionOf;
    assert headings[i..][0] == headings[i] && headings[i..][1..] == headings[i + 1..];
  }

  /** `_versions` */
  method Versions(headings: seq<string>) returns (found: seq<Section>)
    ensures found == Sections(headings)
  {
    hide SectionOf, Sections;
    found := [];
    var i := 0;
    assert headings[0..] == headings;
    while i < |headings|
      invariant 0 <= i <= |headings|
      invariant found + Sections(headings[i..]) == Sections(headings)
    {
      SectionsStep(headings, i);
      var s := SectionOf(headings[i]);
      Associative(found, if s.Some? then [s.value] else [], Sections(headings[i + 1..]));
      if s.Some? { found := found + [s.value]; }
      i := i + 1;
    }
    NoSections(headings[i..]);
  }

  lemma NoSections(headings: seq<string>)
    requires headings == []
    ensures Sections(headings) == []
  {
  }

  /** `_repeated_subsections` */
  method RepeatedSubsections(lines: seq<string>) returns (found: seq<Problem>)
    ensures found == RepeatedRule(lines)
  {
    hide HeadingOf, Report, Bump, IsSub;
    found := [];
    var section: Option<string> := None;
    var seen: seq<(string, nat)> := [];
    var i := 0;
    while i < |lines|
      invariant 0 <= i <= |lines|
      invariant found + RepeatedFrom(lines[i..], section, seen) == RepeatedRule(lines)
    {
      assert lines[i..][0] == lines[i] && lines[i..][1..] == lines[i + 1..];
      var heading := HeadingOf(lines[i]);
      if heading.Some? {
        var here := Report(if section.Some? then section.value else "None", seen);
        Associative(found, here, RepeatedFrom(lines[i + 1..], heading, []));
        found := found + here;
        section, seen := heading, [];
      } else if section.Some? && IsSub(lines[i]) {
        seen := Bump(seen, SubOf(lines[i]));
      }
      i := i + 1;
    }
    found := found + Report(if section.Some? then section.value else "None", seen);
  }

  /** The loop that fills `dates`. */
  method FirstDates(sections: seq<Section>) returns (firsts: seq<Section>, found: seq<Problem>)
    ensures firsts == Firsts(sections, {}) && found == DatesRule(firsts)
  {
    hide DateProblem;
    firsts, found := [], [];
    var seen: set<string> := {};
    var i := 0;
    while i < |sections|
      invariant 0 <= i <= |sections|
      invariant firsts + Firsts(sections[i..], seen) == Firsts(sections, {})
      invariant found + DatesRule(Firsts(sections[i..], seen)) == DatesRule(Firsts(sections, {}))
    {
      assert sections[i..][0] == sections[i] && sections[i..][1..] == sections[i + 1..];
      if sections[i].name !in seen {
        var more := Firsts(sections[i + 1..], seen + {sections[i].name});
        assert ([sections[i]] + more)[1..] == more;
        Associative(firsts, [sections[i]], more);
        Associative(found, DateProblem(sections[i]), DatesRule(more));
        firsts := firsts + [sections[i]];
        found := found + DateProblem(sections[i]);
        seen := seen + {sections[i].name};
      }
      i := i + 1;
    }
  }

  /** `for label in dates: if labels.count(label) > 1` */
  method SectionsTwice(order: seq<string>, names: seq<string>) returns (found: seq<Problem>)
    ensures found == TwiceRule(order, names)
  {
    found := [];
    var i := 0;
    while i < |order|
      invariant 0 <= i <= |order|
      invariant found + TwiceRule(order[i..], names) == TwiceRule(order, names)
    {
      assert order[i..][0] == order[i] && order[i..][1..] == order[i + 1..];
      var n := Count(names, order[i]);
      Associative(found, if n > 1 then [SectionTwice(order[i], n)] else [], TwiceRule(order[i + 1..], names));
      if n > 1 { found := found + [SectionTwice(order[i], n)]; }
      i := i + 1;
    }
  }

  lemma OrderNext(order: seq<string>, i: nat)
    requires i + 1 < |order|
    ensures OrderRule(order[i..])
         == (if Below(order[i], order[i + 1]) then [OutOfOrder(order[i + 1], order[i])] else []) + OrderRule(order[i + 1..])
  {
    hide Below;
    var rest := order[i..];
    assert rest[0] == order[i] && rest[1] == order[i + 1];
    assert rest[1..] == order[i + 1..];
  }

  /** `for above, below in zip(order, order[1:])` */
  method WrongOrder(order: seq<string>) returns (found: seq<Problem>)
    ensures found == OrderRule(order)
  {
    hide Below, OrderRule;
    found := [];
    var i := 0;
    assert order[0..] == order;
    while i + 1 < |order|
      invariant 0 <= i <= |order|
      invariant found + OrderRule(order[i..]) == OrderRule(order)
    {
      OrderNext(order, i);
      Associative(found, if Below(order[i], order[i + 1]) then [OutOfOrder(order[i + 1], order[i])] else [], OrderRule(order[i + 1..]));
      if Below(order[i], order[i + 1]) { found := found + [OutOfOrder(order[i + 1], order[i])]; }
      i := i + 1;
    }
    NothingBelow(order[i..]);
  }

  lemma NothingBelow(order: seq<string>)
    requires |order| < 2
    ensures OrderRule(order) == []
  {
    hide Below;
  }

  /** Each release compares from the one below it. */
  method WrongLinks(order: seq<string>, lines: seq<string>, links: map<string, seq<string>>) returns (found: seq<Problem>)
    requires forall key :: At(links, key) == Targets(lines, key)
    ensures found == LinksRule(order, lines)
  {
    hide LinkProblems, Lower;
    found := [];
    var i := 0;
    while i < |order|
      invariant 0 <= i <= |order|
      invariant found + LinksRule(order[i..], lines) == LinksRule(order, lines)
    {
      assert order[i..][0] == order[i] && order[i..][1..] == order[i + 1..];
      var below := if i + 1 < |order| then Some(order[i + 1]) else None;
      var here := LinkProblems(order[i], below, At(links, Lower(order[i])));
      assert below == Head(order[i + 1..]);
      assert At(links, Lower(order[i])) == Targets(lines, Lower(order[i]));
      Associative(found, here, LinksRule(order[i + 1..], lines));
      found := found + here;
      i := i + 1;
    }
  }

  /** `problems` */
  method Check(lines: seq<string>, version: string) returns (found: seq<Problem>)
    ensures found == Problems(lines, version)
  {
    hide Headings, Sections, Firsts, NewestFirst, UnreleasedRule, RepeatedRule, BelowRule, DatesRule, TwiceRule, OrderRule,
         ShippedRule, UnreleasedLinkRule, LinksRule, DatedBeforeRule, Targets, Lower, HeadingOf, LinkOf, Names;
    var headings, links := Parse(lines);
    var sections := Versions(headings);
    found := UnreleasedRule(headings);
    var repeated := RepeatedSubsections(lines);
    found := found + repeated;
    found := found + BelowRule(headings, sections);
    var firsts, undated := FirstDates(sections);
    found := found + undated;
    var listed := Names(firsts);
    var twice := SectionsTwice(listed, Names(sections));
    found := found + twice;
    var wrong := WrongOrder(listed);
    found := found + wrong;
    var order := NewestFirst(listed);
    found := found + ShippedRule(order, version);
    assert At(links, "unreleased") == Targets(lines, "unreleased");
    found := found + UnreleasedLinkRule(order, At(links, "unreleased"));
    var wrongLinks := WrongLinks(order, lines, links);
    found := found + wrongLinks;
    found := found + DatedBeforeRule(order, sections);
  }
}
