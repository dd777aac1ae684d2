/**
 What each message of `scripts/check_changelog.py` is about: every problem
 `problems` can report, and the file it is reported for.
 */
module ChangelogReports {
  import opened Wrappers
  import opened AsciiText
  import opened ChangelogText
  import opened Changelog
  import ChangelogLines

  // ── the parts of a file ───────────────────────────────────────────────

  /** A subsection heading is what follows `### `, stripped. */
  lemma SubIff(line: string, title: string)
    ensures IsSub(line) && SubOf(line) == title <==> exists text :: line == "### " + text && title == Strip(text)
  {
    hide Strip;
    if IsSub(line) && SubOf(line) == title {
      assert line == "### " + line[4..];
    }
    if text :| line == "### " + text && title == Strip(text) {
      assert line[..4] == "### " && line[4..] == text;
    }
  }

  lemma Pieces(date: string, year: string, month: string, day: string)
    requires ChangelogLines.IsDate(date, year, month, day)
    ensures |date| == 10 && date[..4] == year && date[5..7] == month && date[8..] == day
  {
  }

  /** The date of a section is a day of the calendar, written behind an em dash. */
  lemma SectionDateIff(s: Section, date: string, year: string, month: string, day: string)
    requires s.rest == " \U{2014} " + date && ChangelogLines.IsDate(date, year, month, day)
    ensures var d := Date(NumberOf(year), NumberOf(month), NumberOf(day));
      DateOf(s) == if ValidDate(d) then Some(d) else None
  {
    hide NumberOf, ValidDate, AllDigits, Dated;
    ChangelogLines.DatedIff(s.rest, date);
    Pieces(date, year, month, day);
    hide ChangelogLines.IsDate;
    assert s.rest[3..] == date;
  }

  /** The subsections from here to the next heading. */
  function SubsUnder(lines: seq<string>): seq<string> {
    if lines == [] || HeadingOf(lines[0]).Some? then []
    else (if IsSub(lines[0]) then [SubOf(lines[0])] else []) + SubsUnder(lines[1..])
  }

  // ── the problems ──────────────────────────────────────────────────────

  /** `name` is the `i`-th of the releases, the newest first. */
  predicate At(names: seq<string>, i: nat, name: string) {
    i < |names| && names[i] == name
  }

  predicate FirstNamed(sections: seq<Section>, i: nat, name: string) {
    i < |sections| && sections[i].name == name && forall j | 0 <= j < i :: sections[j].name != name
  }

  /** Line `i` is the heading `section`, and has `sub` so many times under it. */
  predicate SubsAt(lines: seq<string>, i: nat, section: string, sub: string, times: nat) {
    i < |lines| && HeadingOf(lines[i]) == Some(section) && times == multiset(SubsUnder(lines[i + 1..]))[sub]
  }

  /** When `problems` has this to say. */
  ghost predicate Says(lines: seq<string>, version: string, p: Problem) {
    var headings := Headings(lines);
    var sections := Sections(headings);
    var firsts := Firsts(sections, {});
    var listed := Names(firsts);
    var order := NewestFirst(listed);
    match p
    case NoUnreleased => "[Unreleased]" !in headings
    case UnreleasedNotFirst(above) => "[Unreleased]" in headings && headings[0] == above && above != "[Unreleased]"
    case UnreleasedTwice(times) => times == multiset(headings)["[Unreleased]"] && times > 1
    case Repeated(section, sub, times) => times > 1 && exists i: nat :: SubsAt(lines, i, section, sub, times)
    case NoVersion => sections == []
    case NotAVersionBelow(heading) =>
      sections != [] && Bracketed(heading).None?
      && exists i: nat :: At(headings, i, "[Unreleased]") && "[Unreleased]" !in headings[..i] && At(headings, i + 1, heading)
    case Undated(heading) => exists s :: s in firsts && s.heading == heading && Dated(s.rest).None?
    case NotADate(heading) => exists s :: s in firsts && s.heading == heading && Dated(s.rest).Some? && DateOf(s).None?
    case SectionTwice(name, times) => name in listed && times == multiset(Names(sections))[name] && times > 1
    case OutOfOrder(below, above) => Below(above, below) && exists i: nat :: At(listed, i, above) && At(listed, i + 1, below)
    case NotShipped(newest, shipped, known) =>
      order != [] && newest == order[0] && newest != version && shipped == version && (known <==> version in order)
    case NoUnreleasedLink(release) =>
      Targets(lines, "unreleased") == [] && release == if order == [] then None else Some(order[0])
    case DefinedTwice(name, times) =>
      times > 1 && ((name == "Unreleased" && times == |Targets(lines, "unreleased")|)
                    || (name in order && times == |Targets(lines, Lower(name))|))
    case WrongUnreleasedStart(url, newest) =>
      && Targets(lines, "unreleased") != [] && url == Targets(lines, "unreleased")[0]
      && order != [] && newest == order[0] && !(Compared(url).Some? && Compared(url).value.0 == newest)
    case NoLink(name, previous) =>
      Targets(lines, Lower(name)) == [] && exists i: nat :: At(order, i, name) && previous == Next(order, i)
    case WrongEnd(name, url) =>
      && name in order && Targets(lines, Lower(name)) != [] && url == Targets(lines, Lower(name))[0]
      && !(Compared(url).Some? && Compared(url).value.1 == name)
    case WrongStart(name, url, below) =>
      && Targets(lines, Lower(name)) != [] && url == Targets(lines, Lower(name))[0]
      && Compared(url).Some? && Compared(url).value.1 == name && Compared(url).value.0 != below
      && exists i: nat :: At(order, i, name) && At(order, i + 1, below)
    case DatedBefore(newest, older) =>
      At(order, 0, newest) && At(order, 1, older) && exists i: nat, j: nat :: DatedAbove(sections, i, newest, j, older)
  }

  /** The first section of each name has a date, and `newest` the earlier one. */
  predicate DatedAbove(sections: seq<Section>, i: nat, newest: string, j: nat, older: string) {
    && FirstNamed(sections, i, newest) && FirstNamed(sections, j, older)
    && DateOf(sections[i]).Some? && DateOf(sections[j]).Some? && Earlier(DateOf(sections[i]).value, DateOf(sections[j]).value)
  }

  /** The release below the `i`-th. */
  function Next(order: seq<string>, i: nat): Option<string> {
    if i + 1 < |order| then Some(order[i + 1]) else None
  }

  // ── rule by rule ──────────────────────────────────────────────────────

  lemma {:induction false} CountIs(names: seq<string>, name: string)
    ensures Count(names, name) == multiset(names)[name]
  {
    if names != [] {
      assert names == [names[0]] + names[1..];
      CountIs(names[1..], name);
    }
  }

  lemma UnreleasedSays(lines: seq<string>, version: string, p: Problem)
    ensures p in UnreleasedRule(Headings(lines)) <==>
      (p.NoUnreleased? || p.UnreleasedNotFirst? || p.UnreleasedTwice?) && Says(lines, version, p)
  {
    hide Headings, Sections, Firsts, Names, NewestFirst;
    CountIs(Headings(lines), "[Unreleased]");
  }

  lemma {:induction false} DatesSay(firsts: seq<Section>, p: Problem)
    ensures p in DatesRule(firsts) <==> exists s :: s in firsts && p in DateProblem(s)
  {
    hide DateProblem;
    if firsts != [] {
      DatesSay(firsts[1..], p);
      assert firsts[0] in firsts;
      if p in DatesRule(firsts) && p !in DateProblem(firsts[0]) {
        var s :| s in firsts[1..] && p in DateProblem(s);
        assert s in firsts;
      }
      if s :| s in firsts && p in DateProblem(s) {
        if s != firsts[0] { assert s in firsts[1..]; }
      }
    }
  }

  lemma {:induction false} TwiceSays(order: seq<string>, names: seq<string>, p: Problem)
    ensures p in TwiceRule(order, names) <==>
      p.SectionTwice? && p.name in order && p.times == multiset(names)[p.name] && p.times > 1
  {
    if order != [] {
      CountIs(names, order[0]);
      TwiceSays(order[1..], names, p);
      assert order == [order[0]] + order[1..];
    }
  }

  lemma {:induction false} OrderSays(order: seq<string>, p: Problem)
    ensures p in OrderRule(order) <==>
      p.OutOfOrder? && Below(p.above, p.below) && exists i: nat :: At(order, i, p.above) && At(order, i + 1, p.below)
  {
    hide Below;
    if |order| >= 2 {
      var rest := order[1..];
      OrderSays(rest, p);
      if p in OrderRule(rest) {
        var i: nat :| At(rest, i, p.above) && At(rest, i + 1, p.below);
        assert At(order, i + 1, p.above) && At(order, i + 1 + 1, p.below);
      }
      if p == OutOfOrder(order[1], order[0]) { assert At(order, 0, p.above) && At(order, 0 + 1, p.below); }
      if p.OutOfOrder? && Below(p.above, p.below) {
        if i: nat :| At(order, i, p.above) && At(order, i + 1, p.below) {
          if i > 0 { assert At(rest, i - 1, p.above) && At(rest, i - 1 + 1, p.below); }
        }
      }
    }
  }

  /** A problem with the link of the `i`-th release. */
  predicate LinkAt(order: seq<string>, lines: seq<string>, i: nat, p: Problem) {
    i < |order| && p in LinkProblems(order[i], Next(order, i), Targets(lines, Lower(order[i])))
  }

  lemma {:induction false} LinksSay(order: seq<string>, lines: seq<string>, p: Problem)
    ensures p in LinksRule(order, lines) <==> exists i: nat :: LinkAt(order, lines, i, p)
  {
    hide LinkProblems, Lower, Targets;
    if order != [] {
      var rest := order[1..];
      LinksSay(rest, lines, p);
      assert Head(rest) == Next(order, 0);
      if p in LinkProblems(order[0], Head(rest), Targets(lines, Lower(order[0]))) {
        assert LinkAt(order, lines, 0, p);
      } else if p in LinksRule(order, lines) {
        var i: nat :| LinkAt(rest, lines, i, p);
        assert Next(rest, i) == Next(order, i + 1);
        assert LinkAt(order, lines, i + 1, p);
      }
      if i: nat :| LinkAt(order, lines, i, p) {
        if i > 0 {
          assert Next(rest, i - 1) == Next(order, i);
          assert LinkAt(rest, lines, i - 1, p);
        }
      }
    }
  }

  lemma {:induction false} DateInIs(sections: seq<Section>, name: string, i: nat)
    requires FirstNamed(sections, i, name)
    ensures DateIn(sections, name) == DateOf(sections[i])
  {
    hide DateOf;
    if i > 0 {
      assert sections[0].name != name;
      assert forall j | 0 <= j < i - 1 :: sections[1..][j] == sections[j + 1];
      DateInIs(sections[1..], name, i - 1);
    }
  }

  lemma {:induction false} DateInFirst(sections: seq<Section>, name: string)
    requires DateIn(sections, name).Some?
    ensures exists i: nat :: FirstNamed(sections, i, name)
  {
    hide DateOf;
    if sections[0].name == name {
      assert FirstNamed(sections, 0, name);
    } else {
      DateInFirst(sections[1..], name);
      var i: nat :| FirstNamed(sections[1..], i, name);
      assert forall j | 0 < j < i + 1 :: sections[j] == sections[1..][j - 1];
      assert FirstNamed(sections, i + 1, name);
    }
  }

  lemma DatedBeforeSays(order: seq<string>, sections: seq<Section>, p: Problem)
    ensures p in DatedBeforeRule(order, sections) <==>
      p.DatedBefore? && At(order, 0, p.newest) && At(order, 1, p.older)
      && exists i: nat, j: nat :: DatedAbove(sections, i, p.newest, j, p.older)
  {
    hide DateOf, DateIn, Earlier, FirstNamed;
    if p in DatedBeforeRule(order, sections) {
      DateInFirst(sections, order[0]);
      DateInFirst(sections, order[1]);
      var i: nat :| FirstNamed(sections, i, order[0]);
      var j: nat :| FirstNamed(sections, j, order[1]);
      DateInIs(sections, order[0], i);
      DateInIs(sections, order[1], j);
      assert DatedAbove(sections, i, p.newest, j, p.older);
    }
    if p.DatedBefore? && At(order, 0, p.newest) && At(order, 1, p.older) {
      if i: nat, j: nat :| DatedAbove(sections, i, p.newest, j, p.older) {
        DateInIs(sections, order[0], i);
        DateInIs(sections, order[1], j);
      }
    }
  }

  // ── subsections ───────────────────────────────────────────────────────

  /** What is counted for `sub` so far. */
  function Tally(seen: seq<(string, nat)>, sub: string): nat {
    if seen == [] then 0 else if seen[0].0 == sub then seen[0].1 else Tally(seen[1..], sub)
  }

  ghost predicate Once(seen: seq<(string, nat)>) {
    forall i, j | 0 <= i < j < |seen| :: seen[i].0 != seen[j].0
  }

  lemma {:induction false} BumpSays(seen: seq<(string, nat)>, title: string, sub: string)
    ensures Tally(Bump(seen, title), sub) == Tally(seen, sub) + if sub == title then 1 else 0
    ensures forall x | x in Bump(seen, title) :: x.0 == title || x in seen
  {
    if seen != [] && seen[0].0 != title { BumpSays(seen[1..], title, sub); }
  }

  lemma {:induction false} BumpOnce(seen: seq<(string, nat)>, title: string)
    requires Once(seen)
    ensures Once(Bump(seen, title))
  {
    if seen != [] && seen[0].0 != title {
      var more := Bump(seen[1..], title);
      BumpOnce(seen[1..], title);
      BumpSays(seen[1..], title, title);
      assert Bump(seen, title) == [seen[0]] + more;
      forall j | 0 <= j < |more| ensures more[j].0 != seen[0].0 {
        assert more[j] in more;
      }
    }
  }

  lemma {:induction false} ReportSays(section: string, seen: seq<(string, nat)>, p: Problem)
    requires Once(seen)
    ensures p in Report(section, seen) <==>
      p.Repeated? && p.section == section && p.times == Tally(seen, p.sub) && p.times > 1
  {
    if seen != [] {
      assert Once(seen[1..]) by { assert forall i | 0 <= i < |seen| - 1 :: seen[1..][i] == seen[i + 1]; }
      ReportSays(section, seen[1..], p);
      if p.Repeated? && p.sub == seen[0].0 { NotLater(seen, p.sub); }
    }
  }

  lemma {:induction false} NotLater(seen: seq<(string, nat)>, sub: string)
    requires Once(seen) && seen != [] && seen[0].0 == sub
    ensures Tally(seen[1..], sub) == 0
  {
    TallyAbsent(seen[1..], sub);
  }

  lemma {:induction false} TallyAbsent(seen: seq<(string, nat)>, sub: string)
    requires forall i | 0 <= i < |seen| :: seen[i].0 != sub
    ensures Tally(seen, sub) == 0
  {
    if seen != [] { TallyAbsent(seen[1..], sub); }
  }

  /** The subsections of the section that is open, or of one below. */
  lemma {:induction false} RepeatedSays(lines: seq<string>, section: Option<string>, seen: seq<(string, nat)>, p: Problem)
    requires Once(seen) && (section.None? ==> seen == [])
    ensures p in RepeatedFrom(lines, section, seen) <==>
      && p.Repeated? && p.times > 1
      && (|| (section == Some(p.section) && p.times == Tally(seen, p.sub) + multiset(SubsUnder(lines))[p.sub])
          || exists i: nat :: SubsAt(lines, i, p.section, p.sub, p.times))
  {
    hide HeadingOf, IsSub, SubOf, Report, Bump;
    ReportSays(if section.Some? then section.value else "None", seen, p);
    if lines != [] {
      var heading, rest := HeadingOf(lines[0]), lines[1..];
      var open := heading.None? && section.Some? && IsSub(lines[0]);
      var seen' := if heading.Some? then [] else if open then Bump(seen, SubOf(lines[0])) else seen;
      if open {
        BumpOnce(seen, SubOf(lines[0]));
        if p.Repeated? { BumpSays(seen, SubOf(lines[0]), p.sub); }
      }
      RepeatedSays(rest, if heading.Some? then heading else section, seen', p);
      if p.Repeated? { LaterSubs(lines, p.section, p.sub, p.times); }
    }
  }

  lemma LaterSubs(lines: seq<string>, section: string, sub: string, times: nat)
    requires lines != []
    ensures (exists i: nat :: SubsAt(lines, i, section, sub, times)) <==>
      (HeadingOf(lines[0]) == Some(section) && times == multiset(SubsUnder(lines[1..]))[sub])
      || exists i: nat :: SubsAt(lines[1..], i, section, sub, times)
  {
    hide HeadingOf, SubsUnder;
    if i: nat :| SubsAt(lines, i, section, sub, times) {
      if i > 0 {
        assert lines[1..][i - 1 + 1..] == lines[i + 1..];
        assert SubsAt(lines[1..], i - 1, section, sub, times);
      }
    }
    if HeadingOf(lines[0]) == Some(section) && times == multiset(SubsUnder(lines[1..]))[sub] {
      assert SubsAt(lines, 0, section, sub, times);
    }
    if i: nat :| SubsAt(lines[1..], i, section, sub, times) {
      assert lines[1..][i + 1..] == lines[i + 1 + 1..];
      assert SubsAt(lines, i + 1, section, sub, times);
    }
  }

  // ── all of them ───────────────────────────────────────────────────────

  lemma BelowSays(lines: seq<string>, version: string, p: Problem)
    ensures p in BelowRule(Headings(lines), Sections(Headings(lines))) <==>
      (p.NoVersion? || p.NotAVersionBelow?) && Says(lines, version, p)
  {
    hide Headings, Sections, Firsts, Names, NewestFirst, Bracketed, IndexIn;
    var headings := Headings(lines);
    var first := IndexIn(headings, "[Unreleased]");
    CountIs(headings, "[Unreleased]");
    if p in BelowRule(headings, Sections(headings)) && p.NotAVersionBelow? {
      assert At(headings, first, "[Unreleased]") && "[Unreleased]" !in headings[..first] && At(headings, first + 1, p.heading);
    }
    if p.NotAVersionBelow? {
      if i: nat :| At(headings, i, "[Unreleased]") && "[Unreleased]" !in headings[..i] && At(headings, i + 1, p.heading) {
        FirstIs(headings, "[Unreleased]", i);
      }
    }
  }

  lemma FirstIs(names: seq<string>, name: string, i: nat)
    requires At(names, i, name) && name !in names[..i]
    ensures IndexIn(names, name) == i
  {
    var first := IndexIn(names, name);
    assert forall k | 0 <= k < i :: names[..i][k] == names[k];
    assert forall k | 0 <= k < first :: names[..first][k] == names[k];
  }

  lemma DateSays(lines: seq<string>, version: string, p: Problem)
    ensures p in DatesRule(Firsts(Sections(Headings(lines)), {})) <==>
      (p.Undated? || p.NotADate?) && Says(lines, version, p)
  {
    hide Headings, Sections, Firsts, Names, NewestFirst, Dated, DateOf;
    DatesSay(Firsts(Sections(Headings(lines)), {}), p);
  }

  lemma UnreleasedLinkSays(lines: seq<string>, version: string, p: Problem)
    ensures p in UnreleasedLinkRule(NewestFirst(Names(Firsts(Sections(Headings(lines)), {}))), Targets(lines, "unreleased")) <==>
      || ((p.NoUnreleasedLink? || p.WrongUnreleasedStart?) && Says(lines, version, p))
      || (p.DefinedTwice? && p.name == "Unreleased" && p.times == |Targets(lines, "unreleased")| && p.times > 1)
  {
    hide Headings, Sections, Firsts, Names, NewestFirst, Compared, Targets;
  }

  /** What is said of the link of one release. */
  lemma OneLinkSays(order: seq<string>, lines: seq<string>, i: nat, p: Problem)
    requires i < |order|
    ensures var targets := Targets(lines, Lower(order[i]));
      LinkAt(order, lines, i, p) <==>
        || (p.NoLink? && p.name == order[i] && targets == [] && p.previous == Next(order, i))
        || (p.DefinedTwice? && p.name == order[i] && p.times == |targets| && p.times > 1)
        || (p.WrongEnd? && p.name == order[i] && targets != [] && p.url == targets[0]
            && !(Compared(p.url).Some? && Compared(p.url).value.1 == p.name))
        || (p.WrongStart? && p.name == order[i] && targets != [] && p.url == targets[0] && Compared(p.url).Some?
            && Compared(p.url).value.1 == p.name && Compared(p.url).value.0 != p.below && At(order, i + 1, p.below))
  {
    hide Compared, Targets, Lower;
  }

  lemma LinkSays(lines: seq<string>, version: string, p: Problem)
    ensures var order := NewestFirst(Names(Firsts(Sections(Headings(lines)), {})));
      p in LinksRule(order, lines) <==>
        || ((p.NoLink? || p.WrongEnd? || p.WrongStart?) && Says(lines, version, p))
        || (p.DefinedTwice? && p.name in order && p.times == |Targets(lines, Lower(p.name))| && p.times > 1)
  {
    hide Headings, Sections, Firsts, Names, NewestFirst, Compared, Targets, Lower, LinkAt;
    var order := NewestFirst(Names(Firsts(Sections(Headings(lines)), {})));
    LinksSay(order, lines, p);
    if i: nat :| LinkAt(order, lines, i, p) {
      LinkInside(order, lines, i, p);
      OneLinkSays(order, lines, i, p);
      assert At(order, i, order[i]);
    }
    forall i: nat | i < |order| ensures At(order, i, order[i]) { }
    if p.NoLink? || p.WrongStart? {
      if i: nat :| At(order, i, p.name) && (p.NoLink? ==> p.previous == Next(order, i)) && (p.WrongStart? ==> At(order, i + 1, p.below)) {
        OneLinkSays(order, lines, i, p);
      }
    }
    if (p.WrongEnd? || p.DefinedTwice?) && p.name in order {
      var i: nat :| i < |order| && order[i] == p.name;
      OneLinkSays(order, lines, i, p);
    }
  }

  lemma LinkInside(order: seq<string>, lines: seq<string>, i: nat, p: Problem)
    requires LinkAt(order, lines, i, p)
    ensures i < |order|
  {
  }

  /** `problems` says exactly what there is to say, of every file and every version. */
  lemma ProblemIff(lines: seq<string>, version: string, p: Problem)
    ensures p in Problems(lines, version) <==> Says(lines, version, p)
  {
    hide Headings, Sections, Firsts, Names, NewestFirst, Targets, Lower, Compared, Below, SubsAt, DatedAbove, Bracketed, Dated, DateOf,
         UnreleasedRule, RepeatedRule, BelowRule, DatesRule, TwiceRule, OrderRule, ShippedRule, UnreleasedLinkRule, LinksRule, DatedBeforeRule;
    var headings := Headings(lines);
    var sections := Sections(headings);
    var listed := Names(Firsts(sections, {}));
    var order := NewestFirst(listed);
    UnreleasedSays(lines, version, p);
    RepeatedRuleSays(lines, version, p);
    BelowSays(lines, version, p);
    DateSays(lines, version, p);
    TwiceSays(listed, Names(sections), p);
    OrderSays(listed, p);
    ShippedSays(order, version, p);
    UnreleasedLinkSays(lines, version, p);
    LinkSays(lines, version, p);
    DatedBeforeSays(order, sections, p);
  }

  lemma RepeatedRuleSays(lines: seq<string>, version: string, p: Problem)
    ensures p in RepeatedRule(lines) <==> p.Repeated? && Says(lines, version, p)
  {
    hide Headings, Sections, Firsts, Names, NewestFirst, SubsAt, RepeatedFrom;
    RepeatedSays(lines, None, [], p);
  }

  lemma ShippedSays(order: seq<string>, version: string, p: Problem)
    ensures p in ShippedRule(order, version) <==>
      p.NotShipped? && order != [] && p.newest == order[0] && p.newest != version && p.version == version
      && (p.listed <==> version in order)
  {
  }
}
