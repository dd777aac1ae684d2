/** What an empty list of problems means. */
module ChangelogTheorems {
  import opened Wrappers
  import opened AsciiText
  import opened ChangelogText
  import opened Changelog

  // ── newest first ──────────────────────────────────────────────────────

  lemma {:induction false} InsertKeeps(name: string, sorted: seq<string>)
    ensures multiset(InsertNewest(name, sorted)) == multiset{name} + multiset(sorted)
  {
    hide Below;
    if sorted != [] && Below(name, sorted[0]) {
      InsertKeeps(name, sorted[1..]);
      assert sorted == [sorted[0]] + sorted[1..];
    }
  }

  lemma {:induction false} SortKeeps(names: seq<string>)
    ensures multiset(SortNewest(names)) == multiset(names)
  {
    if names != [] {
      SortKeeps(names[1..]);
      InsertKeeps(names[0], SortNewest(names[1..]));
      assert names == [names[0]] + names[1..];
    }
  }

  /** Nothing stands below a newer release. */
  ghost predicate Descending(names: seq<string>) {
    forall i, j | 0 <= i < j < |names| :: !Below(names[i], names[j])
  }

  ghost predicate VersionsOnly(names: seq<string>) {
    forall i | 0 <= i < |names| :: VersionKey(names[i]).Some?
  }

  lemma {:induction false} AllVersionsIff(names: seq<string>)
    ensures AllVersions(names) <==> VersionsOnly(names)
  {
    hide VersionKey;
    if names != [] {
      AllVersionsIff(names[1..]);
      assert forall i | 0 < i < |names| :: names[i] == names[1..][i - 1];
    }
  }

  lemma NotBelowTransitive(a: string, b: string, c: string)
    requires VersionKey(a).Some? && VersionKey(b).Some? && VersionKey(c).Some?
    requires !Below(a, b) && !Below(b, c)
    ensures !Below(a, c)
  {
    hide VersionKey;
  }

  lemma BelowAsymmetric(a: string, b: string)
    requires Below(a, b)
    ensures !Below(b, a)
  {
    hide VersionKey;
  }

  /** A list in order under a name that is not below any of it. */
  lemma DescendsFrom(first: string, rest: seq<string>)
    requires VersionKey(first).Some? && VersionsOnly(rest) && Descending(rest)
    requires forall j | 0 <= j < |rest| :: !Below(first, rest[j])
    ensures Descending([first] + rest) && VersionsOnly([first] + rest)
  {
    hide VersionKey, Below;
    var r := [first] + rest;
    forall i, j | 0 <= i < j < |r| ensures !Below(r[i], r[j]) {
      assert r[j] == rest[j - 1];
      if i > 0 { assert r[i] == rest[i - 1]; }
    }
    forall i | 0 <= i < |r| ensures VersionKey(r[i]).Some? {
      if i > 0 { assert r[i] == rest[i - 1]; }
    }
  }

  lemma NothingBelowIt(name: string, names: seq<string>)
    requires names == []
    ensures Descending(names) && InsertNewest(name, names) == [name] + names
  {
  }

  lemma RestDescends(names: seq<string>)
    requires names != [] && VersionsOnly(names) && Descending(names)
    ensures VersionsOnly(names[1..]) && Descending(names[1..]) && VersionKey(names[0]).Some?
    ensures forall j | 0 <= j < |names| - 1 :: !Below(names[0], names[1..][j])
  {
    hide VersionKey, Below;
    assert forall i | 0 <= i < |names| - 1 :: names[1..][i] == names[i + 1];
  }

  lemma {:induction false} InsertDescends(name: string, sorted: seq<string>)
    requires VersionKey(name).Some? && VersionsOnly(sorted) && Descending(sorted)
    ensures Descending(InsertNewest(name, sorted)) && VersionsOnly(InsertNewest(name, sorted))
  {
    hide VersionKey, Below, Descending, VersionsOnly;
    if sorted == [] {
      NothingBelowIt(name, sorted);
      DescendsFrom(name, sorted);
    } else if !Below(name, sorted[0]) {
      NotBelowAny(name, sorted);
      DescendsFrom(name, sorted);
    } else {
      RestDescends(sorted);
      InsertDescends(name, sorted[1..]);
      BelowAsymmetric(name, sorted[0]);
      InsertKeeps(name, sorted[1..]);
      var more := InsertNewest(name, sorted[1..]);
      forall j | 0 <= j < |more| ensures !Below(sorted[0], more[j]) {
        assert more[j] in multiset(more);
        assert more[j] == name || more[j] in sorted[1..];
      }
      DescendsFrom(sorted[0], more);
    }
  }

  lemma NotBelowAny(name: string, sorted: seq<string>)
    requires VersionKey(name).Some? && VersionsOnly(sorted) && Descending(sorted) && sorted != [] && !Below(name, sorted[0])
    ensures forall j | 0 <= j < |sorted| :: !Below(name, sorted[j])
  {
    hide VersionKey, Below;
    forall j | 0 <= j < |sorted| ensures !Below(name, sorted[j]) {
      if j > 0 { NotBelowTransitive(name, sorted[0], sorted[j]); }
    }
  }

  lemma {:induction false} SortDescends(names: seq<string>)
    requires VersionsOnly(names)
    ensures Descending(SortNewest(names)) && VersionsOnly(SortNewest(names))
  {
    hide VersionKey, Below;
    if names != [] {
      assert forall i | 0 <= i < |names| - 1 :: names[1..][i] == names[i + 1];
      SortDescends(names[1..]);
      InsertDescends(names[0], SortNewest(names[1..]));
    }
  }

  /** `_newest_first` is a permutation; of versions, one with the newer first. */
  lemma NewestFirstSorts(names: seq<string>)
    ensures multiset(NewestFirst(names)) == multiset(names)
    ensures VersionsOnly(names) ==> Descending(NewestFirst(names))
    ensures !VersionsOnly(names) ==> NewestFirst(names) == names
  {
    hide SortNewest;
    AllVersionsIff(names);
    if VersionsOnly(names) {
      SortKeeps(names);
      SortDescends(names);
    }
  }

  /** A list already in order is left as it is, equal versions included. */
  lemma {:induction false} SortedStays(names: seq<string>)
    requires OrderRule(names) == []
    ensures SortNewest(names) == names
  {
    hide Below;
    if names != [] {
      if |names| > 1 { SortedStays(names[1..]); }
      assert names == [names[0]] + names[1..];
    }
  }

  lemma OrderInFile(names: seq<string>)
    requires OrderRule(names) == []
    ensures NewestFirst(names) == names
  {
    SortedStays(names);
  }

  // ── subsections ───────────────────────────────────────────────────────

  /** No subsection comes twice under one heading; `subs` are those the open section has had. */
  predicate CleanFrom(lines: seq<string>, open: bool, subs: set<string>) {
    lines != [] ==>
      if HeadingOf(lines[0]).Some? then CleanFrom(lines[1..], true, {})
      else if open && IsSub(lines[0]) then
        SubOf(lines[0]) !in subs && CleanFrom(lines[1..], open, subs + {SubOf(lines[0])})
      else CleanFrom(lines[1..], open, subs)
  }

  function SubNames(seen: seq<(string, nat)>): set<string> {
    if seen == [] then {} else {seen[0].0} + SubNames(seen[1..])
  }

  predicate AllOnce(seen: seq<(string, nat)>) {
    seen != [] ==> seen[0].1 == 1 && seen[0].0 !in SubNames(seen[1..]) && AllOnce(seen[1..])
  }

  predicate Positive(seen: seq<(string, nat)>) {
    seen != [] ==> seen[0].1 >= 1 && seen[0].0 !in SubNames(seen[1..]) && Positive(seen[1..])
  }

  lemma {:induction false} BumpCounts(seen: seq<(string, nat)>, sub: string)
    requires Positive(seen)
    ensures Positive(Bump(seen, sub)) && SubNames(Bump(seen, sub)) == SubNames(seen) + {sub}
    ensures AllOnce(Bump(seen, sub)) <==> AllOnce(seen) && sub !in SubNames(seen)
  {
    if seen != [] {
      if seen[0].0 == sub {
        assert ([(sub, seen[0].1 + 1)] + seen[1..])[1..] == seen[1..];
      } else {
        BumpCounts(seen[1..], sub);
        assert ([seen[0]] + Bump(seen[1..], sub))[1..] == Bump(seen[1..], sub);
      }
    }
  }

  lemma {:induction false} ReportEmpty(section: string, seen: seq<(string, nat)>)
    requires Positive(seen)
    ensures Report(section, seen) == [] <==> AllOnce(seen)
  {
    if seen != [] { ReportEmpty(section, seen[1..]); }
  }

  lemma {:induction false} RepeatedIff(lines: seq<string>, section: Option<string>, seen: seq<(string, nat)>)
    requires Positive(seen)
    ensures RepeatedFrom(lines, section, seen) == [] <==> AllOnce(seen) && CleanFrom(lines, section.Some?, SubNames(seen))
  {
    hide HeadingOf, IsSub, Report;
    ReportEmpty(if section.Some? then section.value else "None", seen);
    if lines != [] {
      var heading := HeadingOf(lines[0]);
      if heading.Some? {
        RepeatedIff(lines[1..], heading, []);
      } else if section.Some? && IsSub(lines[0]) {
        BumpCounts(seen, SubOf(lines[0]));
        RepeatedIff(lines[1..], section, Bump(seen, SubOf(lines[0])));
      } else {
        RepeatedIff(lines[1..], section, seen);
      }
    }
  }

  /** No heading stands between lines `i` and `j`. */
  ghost predicate OneSection(lines: seq<string>, i: nat, j: nat) {
    i < j < |lines| && forall k | i < k < j :: HeadingOf(lines[k]).None?
  }

  lemma {:induction false} CleanLater(lines: seq<string>, open: bool, subs: set<string>, j: nat)
    requires CleanFrom(lines, open, subs) && open && j < |lines| && IsSub(lines[j])
    requires forall k | 0 <= k < j :: HeadingOf(lines[k]).None?
    ensures SubOf(lines[j]) !in subs
  {
    hide HeadingOf;
    SubIsNoHeading(lines[j]);
    if j > 0 {
      assert forall k | 0 <= k < j - 1 :: lines[1..][k] == lines[k + 1];
      CleanLater(lines[1..], open, if IsSub(lines[0]) then subs + {SubOf(lines[0])} else subs, j - 1);
    }
  }

  lemma SubIsNoHeading(line: string)
    requires IsSub(line)
    ensures HeadingOf(line).None?
  {
    assert line[..4][2] == line[2] == '#';
    assert line[..3][2] == line[2];
  }

  /** Two subsections under one heading have different titles. */
  lemma {:induction false} CleanMeans(lines: seq<string>, open: bool, subs: set<string>, i: nat, j: nat)
    requires CleanFrom(lines, open, subs) && OneSection(lines, i, j) && IsSub(lines[i]) && IsSub(lines[j])
    requires open || exists k :: 0 <= k < i && HeadingOf(lines[k]).Some?
    ensures SubOf(lines[i]) != SubOf(lines[j])
  {
    hide HeadingOf, IsSub;
    SubIsNoHeading(lines[i]);
    var rest := lines[1..];
    if i == 0 {
      assert forall k | 0 <= k < j - 1 :: rest[k] == lines[k + 1];
      CleanLater(rest, open, subs + {SubOf(lines[0])}, j - 1);
    } else {
      var open' := open || HeadingOf(lines[0]).Some?;
      var subs' := if HeadingOf(lines[0]).Some? then {} else if open && IsSub(lines[0]) then subs + {SubOf(lines[0])} else subs;
      assert OneSection(rest, i - 1, j - 1) by {
        assert forall k | i - 1 < k < j - 1 :: rest[k] == lines[k + 1];
      }
      if !open' {
        var k :| 0 <= k < i && HeadingOf(lines[k]).Some?;
        assert rest[k - 1] == lines[k];
      }
      CleanMeans(rest, open', subs', i - 1, j - 1);
    }
  }

  // ── what an empty list of problems says ───────────────────────────────

  ghost predicate DistinctNames(names: seq<string>) {
    forall i, j | 0 <= i < j < |names| :: names[i] != names[j]
  }

  /** The one link of `name` compares `from` (where given) with `name`. */
  ghost predicate LinkedFrom(lines: seq<string>, name: string, previous: Option<string>) {
    var targets := Targets(lines, Lower(name));
    |targets| == 1 && Compared(targets[0]).Some? && Compared(targets[0]).value.1 == name
    && (previous.Some? ==> Compared(targets[0]).value.0 == previous.value)
  }

  /** The release below the `i`-th. */
  function Previous(order: seq<string>, i: nat): Option<string> {
    if i + 1 < |order| then Some(order[i + 1]) else None
  }

  /** The links form one chain, each release compared with the one below it. */
  ghost predicate Chained(lines: seq<string>, order: seq<string>) {
    forall i | 0 <= i < |order| :: LinkedFrom(lines, order[i], Previous(order, i))
  }

  ghost predicate AllDated(sections: seq<Section>) {
    forall i | 0 <= i < |sections| :: DateOf(sections[i]).Some?
  }

  /** `[Unreleased]` first and once, a release right below it. */
  ghost predicate UnreleasedFirst(headings: seq<string>) {
    && headings != [] && headings[0] == UNRELEASED
    && (forall i | 0 < i < |headings| :: headings[i] != UNRELEASED)
    && (|headings| > 1 ==> Bracketed(headings[1]).Some?)
  }

  /** Where both are dated, the newest release is not dated before the one below it. */
  ghost predicate InDateOrder(sections: seq<Section>, names: seq<string>) {
    |names| > 1 ==>
      var newer, older := DateIn(sections, names[0]), DateIn(sections, names[1]);
      newer.Some? && older.Some? ==> !Earlier(newer.value, older.value)
  }

  /** `[Unreleased]` compares from `newest`. */
  ghost predicate UnreleasedFrom(lines: seq<string>, newest: string) {
    var targets := Targets(lines, "unreleased");
    |targets| == 1 && Compared(targets[0]).Some? && Compared(targets[0]).value.0 == newest
  }

  /** The releases and their links. */
  ghost predicate ReleasesKept(lines: seq<string>, sections: seq<Section>, version: string) {
    var names := Names(sections);
    && names != [] && names[0] == version
    && UnreleasedFrom(lines, version) && Chained(lines, names) && InDateOrder(sections, names)
  }

  /** The file is promoted to `version`. */
  ghost predicate Kept(lines: seq<string>, version: string) {
    var sections := Sections(Headings(lines));
    && UnreleasedFirst(Headings(lines))
    && CleanFrom(lines, false, {})
    && DistinctNames(Names(sections)) && OrderRule(Names(sections)) == []
    && AllDated(sections)
    && ReleasesKept(lines, sections, version)
  }

  lemma {:induction false} CountZero(names: seq<string>, name: string)
    ensures Count(names, name) == 0 <==> forall i | 0 <= i < |names| :: names[i] != name
  {
    if names != [] {
      CountZero(names[1..], name);
      assert forall i | 0 < i < |names| :: names[i] == names[1..][i - 1];
      if Count(names, name) == 0 {
        forall i | 0 <= i < |names| ensures names[i] != name {
          if i > 0 { assert names[i] == names[1..][i - 1]; }
        }
      } else if names[0] != name {
        var i :| 0 <= i < |names[1..]| && names[1..][i] == name;
        assert names[i + 1] == name;
      }
    }
  }

  lemma UnreleasedIff(headings: seq<string>)
    ensures UnreleasedRule(headings) == [] <==>
      headings != [] && headings[0] == UNRELEASED && forall i | 0 < i < |headings| :: headings[i] != UNRELEASED
  {
    if headings != [] {
      CountZero(headings[1..], UNRELEASED);
      assert forall i | 0 < i < |headings| :: headings[i] == headings[1..][i - 1];
      assert forall i | 0 <= i < |headings[1..]| :: headings[1..][i] == headings[i + 1];
    }
  }

  lemma {:induction false} FirstsCover(sections: seq<Section>, seen: set<string>, i: nat)
    requires i < |sections|
    ensures sections[i].name in seen || sections[i].name in Names(Firsts(sections, seen))
  {
    if i > 0 {
      assert sections[1..][i - 1] == sections[i];
      FirstsCover(sections[1..], if sections[0].name in seen then seen else seen + {sections[0].name}, i - 1);
    }
  }

  lemma {:induction false} FirstsAll(sections: seq<Section>, seen: set<string>)
    requires DistinctNames(Names(sections)) && forall i | 0 <= i < |sections| :: Names(sections)[i] !in seen
    ensures Firsts(sections, seen) == sections
  {
    if sections != [] {
      var names, more := Names(sections), Names(sections[1..]);
      assert names[0] == sections[0].name;
      forall i | 0 <= i < |more| ensures more[i] !in seen + {sections[0].name} { assert more[i] == names[i + 1]; }
      forall i, j | 0 <= i < j < |more| ensures more[i] != more[j] { assert more[i] == names[i + 1] && more[j] == names[j + 1]; }
      FirstsAll(sections[1..], seen + {sections[0].name});
    }
  }

  lemma {:induction false} TwiceIff(order: seq<string>, names: seq<string>)
    ensures TwiceRule(order, names) == [] <==> forall i | 0 <= i < |order| :: Count(names, order[i]) <= 1
  {
    if order != [] {
      TwiceIff(order[1..], names);
      assert forall i | 0 < i < |order| :: order[i] == order[1..][i - 1];
      assert forall i | 0 <= i < |order[1..]| :: order[1..][i] == order[i + 1];
    }
  }

  lemma {:induction false} CountDistinct(names: seq<string>)
    ensures DistinctNames(names) <==> forall i | 0 <= i < |names| :: Count(names, names[i]) <= 1
    decreases |names|
  {
    if names != [] {
      var rest := names[1..];
      CountDistinct(rest);
      CountZero(rest, names[0]);
      assert forall i | 0 <= i < |rest| :: rest[i] == names[i + 1];
      if DistinctNames(names) {
        forall i | 0 <= i < |names| ensures Count(names, names[i]) <= 1 {
          if i > 0 { assert rest[i - 1] == names[i] && Count(rest, rest[i - 1]) <= 1; }
        }
      }
      if forall i | 0 <= i < |names| :: Count(names, names[i]) <= 1 {
        forall i | 0 <= i < |rest| ensures Count(rest, rest[i]) <= 1 { assert Count(names, names[i + 1]) <= 1; }
        assert Count(names, names[0]) <= 1;
        forall i, j | 0 <= i < j < |names| ensures names[i] != names[j] {
          assert rest[j - 1] == names[j] && (i > 0 ==> rest[i - 1] == names[i]);
        }
      }
    }
  }

  /** A name has one section: the rule on repeated sections, and what it makes of the sections read. */
  lemma OneSectionEach(sections: seq<Section>)
    ensures TwiceRule(Names(Firsts(sections, {})), Names(sections)) == [] <==> DistinctNames(Names(sections))
    ensures DistinctNames(Names(sections)) ==> Firsts(sections, {}) == sections
  {
    var names, order := Names(sections), Names(Firsts(sections, {}));
    TwiceIff(order, names);
    CountDistinct(names);
    if DistinctNames(names) {
      FirstsAll(sections, {});
    } else {
      var i :| 0 <= i < |names| && Count(names, names[i]) > 1;
      NamesAt(sections, i);
      FirstsCover(sections, {}, i);
      var k :| 0 <= k < |order| && order[k] == names[i];
      assert Count(names, order[k]) > 1;
    }
  }

  lemma {:induction false} NamesAt(sections: seq<Section>, i: nat)
    requires i < |sections|
    ensures Names(sections)[i] == sections[i].name
  {
    if i > 0 { NamesAt(sections[1..], i - 1); }
  }

  lemma {:induction false} DatesIff(sections: seq<Section>)
    ensures DatesRule(sections) == [] <==> AllDated(sections)
  {
    hide DateOf;
    if sections != [] {
      DatesIff(sections[1..]);
      DateIff(sections[0]);
      assert forall i | 0 < i < |sections| :: sections[i] == sections[1..][i - 1];
      assert forall i | 0 <= i < |sections[1..]| :: sections[1..][i] == sections[i + 1];
    }
  }

  lemma DateIff(s: Section)
    ensures DateProblem(s) == [] <==> DateOf(s).Some?
  {
  }

  lemma LinkIff(lines: seq<string>, name: string, previous: Option<string>)
    ensures LinkProblems(name, previous, Targets(lines, Lower(name))) == [] <==> LinkedFrom(lines, name, previous)
  {
    hide Targets, Lower, Compared;
  }

  lemma {:induction false} ChainIff(order: seq<string>, lines: seq<string>)
    ensures LinksRule(order, lines) == [] <==> Chained(lines, order)
  {
    hide LinkedFrom, LinkProblems, Targets, Lower;
    if order != [] {
      ChainIff(order[1..], lines);
      LinkIff(lines, order[0], Head(order[1..]));
      assert Head(order[1..]) == Previous(order, 0);
      ChainCons(order, lines);
    }
  }

  lemma ChainCons(order: seq<string>, lines: seq<string>)
    requires order != []
    ensures Chained(lines, order) <==> LinkedFrom(lines, order[0], Previous(order, 0)) && Chained(lines, order[1..])
  {
    hide LinkedFrom;
    var rest := order[1..];
    forall i | 0 <= i < |rest| ensures rest[i] == order[i + 1] && Previous(rest, i) == Previous(order, i + 1) {
    }
    if Chained(lines, order) {
      forall i | 0 <= i < |rest| ensures LinkedFrom(lines, rest[i], Previous(rest, i)) {
        assert LinkedFrom(lines, order[i + 1], Previous(order, i + 1));
      }
    }
    if LinkedFrom(lines, order[0], Previous(order, 0)) && Chained(lines, rest) {
      forall i | 0 <= i < |order| ensures LinkedFrom(lines, order[i], Previous(order, i)) {
        if i > 0 { assert LinkedFrom(lines, rest[i - 1], Previous(rest, i - 1)); }
      }
    }
  }

  lemma UnreleasedAt(headings: seq<string>)
    requires headings != [] && headings[0] == UNRELEASED
    ensures IndexIn(headings, UNRELEASED) == 0 && Count(headings, UNRELEASED) > 0
  {
  }

  /** The rules that read the headings alone. */
  lemma HeadingRules(headings: seq<string>, sections: seq<Section>)
    ensures UnreleasedRule(headings) == [] && BelowRule(headings, sections) == [] <==> UnreleasedFirst(headings) && sections != []
  {
    UnreleasedIff(headings);
    hide UnreleasedRule, Bracketed;
    if headings != [] && headings[0] == UNRELEASED { UnreleasedAt(headings); }
  }

  /** The rules on the order, dates and links of distinct sections in order. */
  lemma ReleaseRules(lines: seq<string>, sections: seq<Section>, version: string)
    requires DistinctNames(Names(sections)) && OrderRule(Names(sections)) == [] && AllDated(sections) && sections != []
    ensures var names := Names(sections);
      ShippedRule(names, version) == [] && UnreleasedLinkRule(names, Targets(lines, "unreleased")) == []
      && LinksRule(names, lines) == [] && DatedBeforeRule(names, sections) == []
      <==> ReleasesKept(lines, sections, version)
  {
    hide Targets, Compared, Earlier, Chained, LinksRule, AllDated, DateIn;
    ChainIff(Names(sections), lines);
  }

  /**
   `problems` finds nothing exactly when the file is promoted to `version`:
   one `[Unreleased]` first, one dated section and one link a release, newest
   first, the newest the version shipped, the links one chain down to the
   oldest, and no subsection twice under a heading.
   */
  lemma EmptyIff(lines: seq<string>, version: string)
    ensures Problems(lines, version) == [] <==> Kept(lines, version)
  {
    hide Headings, Sections, Firsts, NewestFirst, UnreleasedRule, RepeatedRule, BelowRule, DatesRule, TwiceRule, OrderRule,
         ShippedRule, UnreleasedLinkRule, LinksRule, DatedBeforeRule, Targets, Names, AllDated, DistinctNames, Problems,
         UnreleasedFirst, ReleasesKept, CleanFrom;
    var headings := Headings(lines);
    var sections := Sections(headings);
    RepeatedClean(lines);
    HeadingRules(headings, sections);
    OneSectionEach(sections);
    if DistinctNames(Names(sections)) {
      DatesIff(sections);
      if OrderRule(Names(sections)) == [] && AllDated(sections) && sections != [] {
        OrderInFile(Names(sections));
        ReleaseRules(lines, sections, version);
      }
    }
    NeedsSections(lines, sections, version);
    ProblemsEmpty(lines, version);
  }

  /** No problem is no problem by any rule. */
  lemma ProblemsEmpty(lines: seq<string>, version: string)
    ensures var headings := Headings(lines);
      var sections := Sections(headings);
      var firsts := Firsts(sections, {});
      var listed := Names(firsts);
      var order := NewestFirst(listed);
      Problems(lines, version) == [] <==>
        && UnreleasedRule(headings) == [] && RepeatedRule(lines) == [] && BelowRule(headings, sections) == []
        && DatesRule(firsts) == [] && TwiceRule(listed, Names(sections)) == [] && OrderRule(listed) == []
        && ShippedRule(order, version) == [] && UnreleasedLinkRule(order, Targets(lines, "unreleased")) == []
        && LinksRule(order, lines) == [] && DatedBeforeRule(order, sections) == []
  {
    hide Headings, Sections, Firsts, NewestFirst, UnreleasedRule, RepeatedRule, BelowRule, DatesRule, TwiceRule, OrderRule,
         ShippedRule, UnreleasedLinkRule, LinksRule, DatedBeforeRule, Targets, Names;
  }

  lemma NeedsSections(lines: seq<string>, sections: seq<Section>, version: string)
    ensures ReleasesKept(lines, sections, version) ==> sections != []
  {
  }

  lemma RepeatedClean(lines: seq<string>)
    ensures RepeatedRule(lines) == [] <==> CleanFrom(lines, false, {})
  {
    RepeatedIff(lines, None, []);
  }

  /** Where every label is a version, the file lists them from the newest to the oldest. */
  lemma KeptDescends(lines: seq<string>, version: string)
    requires Kept(lines, version) && VersionsOnly(Names(Sections(Headings(lines))))
    ensures var names := Names(Sections(Headings(lines)));
      Descending(names) && names[0] == version && forall i | 0 <= i < |names| :: !Below(version, names[i])
  {
    hide Headings, Sections, Targets, Chained, Below, VersionKey, Compared, CleanFrom, Earlier;
    var names := Names(Sections(Headings(lines)));
    OrderInFile(names);
    NewestFirstSorts(names);
    Irreflexive(names[0]);
  }

  lemma Irreflexive(name: string)
    ensures !Below(name, name)
  {
    hide VersionKey;
  }
}
