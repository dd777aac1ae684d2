/**
 Step 1 of a release (`scripts/check_changelog.py:4-7`): rename
 `## [Unreleased]` to the new version, open a fresh one above it, repoint the
 links. A file with no problems has none after it, at the new version; and an
 entry added in between keeps it so unless it repeats a subsection.
 */
module ChangelogPromotion {
  import opened Wrappers
  import opened Sequences
  import opened AsciiText
  import opened ChangelogText
  import opened Changelog
  import opened ChangelogTheorems

  // ── the lines a promotion writes, read ────────────────────────────────

  lemma HeadingLine(text: string)
    requires text != "" && !IsSpace(text[0]) && !IsSpace(text[|text| - 1])
    ensures HeadingOf("## " + text) == Some(text)
  {
    StripNothing(text);
    assert ("## " + text)[..3] == "## " && ("## " + text)[3..] == text;
  }

  lemma {:induction false} IndexAfter(s: string, c: char, rest: string)
    requires Lacks(s, c) && rest != "" && rest[0] == c
    ensures IndexOf(s + rest, c) == |s|
  {
    if s == "" {
      assert s + rest == rest;
    } else {
      assert (s + rest)[1..] == s[1..] + rest;
      IndexAfter(s[1..], c, rest);
    }
  }

  function ReleaseText(version: string, date: string): string {
    "[" + version + "]" + [' ', EM_DASH, ' '] + date
  }

  lemma ReleaseSection(version: string, date: string)
    requires version != "" && version != "Unreleased" && Lacks(version, ']') && IsoShaped(date) && ValidDate(IsoDate(date))
    ensures SectionOf(ReleaseText(version, date)) == Some(Section(ReleaseText(version, date), version, [' ', EM_DASH, ' '] + date))
    ensures Bracketed(ReleaseText(version, date)).Some?
    ensures DateOf(Section(ReleaseText(version, date), version, [' ', EM_DASH, ' '] + date)) == Some(IsoDate(date))
    ensures HeadingOf("## " + ReleaseText(version, date)) == Some(ReleaseText(version, date))
    ensures ReleaseText(version, date) != UNRELEASED
  {
    hide ValidDate, IsoDate, IsoShaped, HeadingOf, IndexOf, Lacks;
    ReleaseBracketed(version, date);
    ReleaseDated(date);
    DateEnds(date);
    HeadingLine(ReleaseText(version, date));
    assert UNRELEASED[|UNRELEASED| - 1] == ']';
  }

  lemma BracketedText(name: string, rest: string)
    requires name != "" && Lacks(name, ']')
    ensures Bracketed("[" + name + "]" + rest) == Some((name, rest))
  {
    hide IndexOf, Lacks;
    var text := "[" + name + "]" + rest;
    assert text[1..] == name + ("]" + rest);
    IndexAfter(name, ']', "]" + rest);
    assert text[1..1 + |name|] == name && text[2 + |name|..] == rest;
  }

  lemma ReleaseBracketed(version: string, date: string)
    requires version != "" && Lacks(version, ']')
    ensures Bracketed(ReleaseText(version, date)) == Some((version, [' ', EM_DASH, ' '] + date))
  {
    hide Bracketed, Lacks;
    BracketedText(version, [' ', EM_DASH, ' '] + date);
    assert ReleaseText(version, date) == "[" + version + "]" + ([' ', EM_DASH, ' '] + date);
  }

  lemma ReleaseDated(date: string)
    requires IsoShaped(date)
    ensures Dated([' ', EM_DASH, ' '] + date) == Some(date) && ([' ', EM_DASH, ' '] + date)[3..] == date
  {
    hide IsoShaped;
    assert ([' ', EM_DASH, ' '] + date)[3..] == date && ([' ', EM_DASH, ' '] + date)[..3] == [' ', EM_DASH, ' '];
    IsoLength(date);
  }

  lemma IsoLength(date: string)
    requires IsoShaped(date)
    ensures |date| == 10
  {
  }

  lemma DateEnds(date: string)
    requires IsoShaped(date)
    ensures |date| == 10 && IsDigit(date[|date| - 1])
  {
    assert date[8..][1] == date[9];
  }

  lemma {:induction false} WordAll(s: string)
    requires NoSpace(s)
    ensures WordLength(s) == |s|
  {
    if s != "" { WordAll(s[1..]); }
  }

  function LinkLine(name: string, url: string): string {
    "[" + name + "]: " + url
  }

  lemma ReadsLink(name: string, url: string)
    requires name != "" && Lacks(name, ']') && url != "" && NoSpace(url)
    ensures LinkOf(LinkLine(name, url)) == Some((name, url)) && HeadingOf(LinkLine(name, url)).None?
    ensures !IsSub(LinkLine(name, url))
  {
    hide IndexOf, WordLength, LStrip, HeadingOf, IsSub, Indent, Lacks, NoSpace;
    var line := LinkLine(name, url);
    var rest := "]: " + url;
    NotIndented(line);
    assert line[Indent(line)..] == line;
    assert line[1..] == name + rest;
    IndexAfter(name, ']', rest);
    assert line[1..1 + |name|] == name && line[1 + |name|..] == rest;
    assert rest[..2] == "]:" && rest[2..] == " " + url;
    ReadsUrl(url);
  }

  lemma ReadsUrl(url: string)
    requires url != "" && NoSpace(url)
    ensures LStrip(" " + url) == url && WordLength(url) == |url| && url[..|url|] == url
  {
    assert (" " + url)[1..] == url;
    assert LStrip(url) == url;
    WordAll(url);
  }

  /** A line that starts with a bracket is neither indented nor a heading. */
  lemma NotIndented(line: string)
    requires line != "" && line[0] == '['
    ensures Indent(line) == 0 && HeadingOf(line).None? && !IsSub(line)
  {
    StartsApart(line, " ");
    StartsApart(line, "  ");
    StartsApart(line, "   ");
    StartsApart(line, "## ");
    StartsApart(line, "### ");
  }

  lemma StartsApart(line: string, p: string)
    requires line != "" && p != "" && line[0] != p[0]
    ensures !StartsWith(line, p)
  {
    if |p| <= |line| { assert line[..|p|][0] == line[0]; }
  }

  // ── compare links ─────────────────────────────────────────────────────

  lemma {:induction false} TailAfter(prefix: string, tail: string)
    requires Lacks(tail, '/')
    ensures CompareTail(prefix + "/compare/" + tail) == Some(tail)
  {
    var s := prefix + "/compare/" + tail;
    if prefix == "" {
      assert s[..9] == "/compare/" && s[9..] == tail;
    } else {
      TailAfter(prefix[1..], tail);
      assert s[1..] == prefix[1..] + "/compare/" + tail;
      var slash := |prefix| + 8;
      assert s[slash] == '/';
      assert s[9..][slash - 9] == '/';
    }
  }

  predicate DotsAt(s: string, i: int) {
    0 <= i && i + 3 <= |s| && s[i..i + 3] == "..."
  }

  /** `a...b`, nowhere cut earlier. */
  ghost predicate Cut(tail: string, n: nat) {
    && 0 < n && n + 3 < |tail| && DotsAt(tail, n)
    && forall i | 0 < i < n :: !DotsAt(tail, i)
  }

  lemma {:induction false} SplitAtCut(tail: string, n: nat, i: nat)
    requires Cut(tail, n) && i <= n
    ensures Split(tail, i) == Some((tail[..n], tail[n + 3..]))
    decreases n - i
  {
    if i < n {
      assert i > 0 ==> !DotsAt(tail, i);
      SplitAtCut(tail, n, i + 1);
    }
  }

  lemma {:induction false} SplitIsCut(tail: string, i: nat)
    requires Split(tail, i).Some? && forall k | 0 < k < i :: !DotsAt(tail, k)
    ensures var n := |Split(tail, i).value.0|;
      Cut(tail, n) && tail[..n] == Split(tail, i).value.0 && tail[n + 3..] == Split(tail, i).value.1
    decreases |tail| - i
  {
    if !(i > 0 && DotsAt(tail, i)) { SplitIsCut(tail, i + 1); }
  }

  lemma {:induction false} TailLacks(url: string)
    requires CompareTail(url).Some?
    ensures Lacks(CompareTail(url).value, '/') && (NoSpace(url) ==> NoSpace(CompareTail(url).value))
  {
    if !(StartsWith(url, "/compare/") && Lacks(url[9..], '/')) { TailLacks(url[1..]); }
  }

  /** The name a link is found to compare from can start a new link. */
  ghost predicate Linkable(name: string) {
    && name != "" && Lacks(name, '/') && NoSpace(name)
    && forall i | 0 < i < |name| :: !DotsAt(name + "...", i)
  }

  lemma ComparedIsLinkable(url: string)
    requires Compared(url).Some? && NoSpace(url)
    ensures Linkable(Compared(url).value.0)
  {
    var tail := CompareTail(url).value;
    TailLacks(url);
    SplitIsCut(tail, 0);
    var name := Compared(url).value.0;
    var n := |name|;
    forall i | 0 < i < n ensures !DotsAt(name + "...", i) {
      assert !DotsAt(tail, i);
      assert name + "..." == tail[..n] + tail[n..n + 3] == tail[..n + 3];
      assert (name + "...")[i..i + 3] == tail[i..i + 3];
    }
    assert forall i | 0 <= i < n :: name[i] == tail[i];
  }

  function CompareUrl(from: string, to: string): string {
    COMPARE + from + "..." + to
  }

  /** A link written from a linkable name to another name is read as comparing the two. */
  lemma ReadsCompared(from: string, to: string)
    requires Linkable(from) && to != "" && Lacks(to, '/') && NoSpace(to)
    ensures Compared(CompareUrl(from, to)) == Some((from, to)) && NoSpace(CompareUrl(from, to)) && CompareUrl(from, to) != ""
  {
    hide REPOSITORY;
    var tail := from + "..." + to;
    assert CompareUrl(from, to) == REPOSITORY + "/compare/" + tail;
    TailAfter(REPOSITORY, tail);
    var n := |from|;
    assert tail[n..n + 3] == "...";
    forall i | 0 < i < n ensures !DotsAt(tail, i) {
      assert !DotsAt(from + "...", i);
      assert tail[i..i + 3] == (from + "...")[i..i + 3];
    }
    SplitAtCut(tail, n, 0);
    assert tail[..n] == from && tail[n + 3..] == to;
    CompareNoSpace();
  }

  lemma CompareNoSpace()
    ensures NoSpace(COMPARE)
  {
    assert NoSpace(HOST) && NoSpace("/CodefyUI/CodefyUI") && NoSpace("/compare/");
  }

  // ── versions ──────────────────────────────────────────────────────────

  predicate VersionChar(c: char) {
    IsDigit(c) || c == '.' || c == 'r' || c == 'c'
  }

  /** Dots stand between other characters. */
  ghost predicate VersionShape(s: string) {
    && s != "" && IsDigit(s[0])
    && (forall i | 0 <= i < |s| :: VersionChar(s[i]))
    && (forall i | 0 <= i < |s| && s[i] == '.' :: i + 1 < |s| && s[i + 1] != '.')
  }

  lemma NumberShape(s: string)
    requires Number(s).Some?
    ensures var rest := Number(s).value.1;
      |rest| < |s| && s == s[..|s| - |rest|] + rest && AllDigits(s[..|s| - |rest|]) && IsDigit(s[0])
  {
    var n := DigitRun(s);
    assert s[..n][0] == s[0];
  }

  /** Digits in front of something that does not start with a dot, or of a dot and a version-like rest. */
  lemma DigitsThen(digits: string, rest: string)
    requires digits != "" && AllDigits(digits)
    requires rest == "" || (rest[0] == '.' && VersionShape(rest[1..])) || RcShape(rest)
    ensures VersionShape(digits + rest)
  {
    var s := digits + rest;
    forall i | 0 <= i < |s| ensures VersionChar(s[i]) {
      if i > |digits| && rest[0] == '.' { assert s[i] == rest[1..][i - |digits| - 1]; }
    }
    assert forall i | 0 <= i < |digits| :: s[i] == digits[i] && IsDigit(s[i]);
    forall i | 0 <= i < |s| && s[i] == '.' ensures i + 1 < |s| && s[i + 1] != '.' {
      if rest[0] == '.' {
        if i == |digits| {
          assert s[i + 1] == rest[1..][0];
        } else if i > |digits| {
          assert s[i] == rest[1..][i - |digits| - 1];
        }
      }
    }
  }

  ghost predicate RcShape(s: string) {
    |s| > 2 && s[0] == 'r' && s[1] == 'c' && AllDigits(s[2..])
  }

  lemma RcIsPlain(s: string)
    requires RcShape(s)
    ensures forall i | 0 <= i < |s| :: VersionChar(s[i]) && s[i] != '.'
  {
    forall i | 0 <= i < |s| ensures VersionChar(s[i]) && s[i] != '.' {
      if i >= 2 { assert s[i] == s[2..][i - 2]; }
    }
  }

  lemma NumberDotShape(s: string)
    requires NumberDot(s).Some? && VersionShape(NumberDot(s).value.1)
    ensures VersionShape(s)
  {
    NumberShape(s);
    var rest := Number(s).value.1;
    DigitsThen(s[..|s| - |rest|], rest);
  }

  /** A version's dots stand alone, between digits. */
  lemma KeyShape(version: string)
    requires VersionKey(version).Some?
    ensures VersionShape(version)
  {
    hide Number;
    var minor := NumberDot(version).value.1;
    var patch := NumberDot(minor).value.1;
    LastNumber(patch);
    NumberDotShape(minor);
    NumberDotShape(version);
  }

  lemma LastNumber(s: string)
    requires Number(s).Some?
    requires var rest := Number(s).value.1;
      rest == "" || (StartsWith(rest, "rc") && Number(rest[2..]).Some? && Number(rest[2..]).value.1 == "")
    ensures VersionShape(s)
  {
    NumberShape(s);
    var rest := Number(s).value.1;
    if rest != "" {
      NumberShape(rest[2..]);
      assert rest[..2][0] == rest[0] && rest[..2][1] == rest[1];
      assert rest[2..] == rest[2..][..|rest[2..]|];
      assert RcShape(rest);
      RcIsPlain(rest);
    }
    DigitsThen(s[..|s| - |rest|], rest);
  }

  lemma VersionIsLinkable(version: string)
    requires VersionKey(version).Some?
    ensures version != "" && Linkable(version) && Lacks(version, ']') && version != "Unreleased" && Lower(version) != "unreleased"
  {
    hide VersionKey;
    KeyShape(version);
    forall i | 0 <= i < |version| ensures version[i] != '/' && version[i] != ']' && !IsSpace(version[i]) {
      assert VersionChar(version[i]);
    }
    var s := version + "...";
    forall i | 0 < i < |version| ensures !DotsAt(s, i) {
      if version[i] == '.' {
        assert s[i..i + 3][1] == version[i + 1];
      } else {
        assert s[i..i + 3][0] == version[i];
      }
    }
    FoldFirst(version);
  }

  lemma FoldFirst(s: string)
    requires s != "" && IsDigit(s[0])
    ensures Lower(s) != "" && Lower(s)[0] == s[0]
  {
  }

  // ── the promotion ─────────────────────────────────────────────────────

  /** A link definition of `[Unreleased]`. */
  predicate IsUnreleasedLink(line: string) {
    HeadingOf(line).None? && LinkOf(line).Some? && Lower(LinkOf(line).value.0) == "unreleased"
  }

  datatype Release = Release(version: string, date: string, previous: string)

  function PromoteLine(line: string, r: Release): seq<string> {
    if HeadingOf(line) == Some(UNRELEASED) then ["## [Unreleased]", "", "## " + ReleaseText(r.version, r.date)]
    else if IsUnreleasedLink(line) then
      [LinkLine("Unreleased", CompareUrl(r.version, "main")), LinkLine(r.version, CompareUrl(r.previous, r.version))]
    else [line]
  }

  function Promote(lines: seq<string>, r: Release): seq<string> {
    if lines == [] then [] else PromoteLine(lines[0], r) + Promote(lines[1..], r)
  }

  /** What the maintainer has to get right. */
  ghost predicate GoodRelease(r: Release) {
    && VersionKey(r.version).Some? && IsoShaped(r.date) && ValidDate(IsoDate(r.date)) && Linkable(r.previous)
  }

  lemma {:induction false} HeadingsConcat(a: seq<string>, b: seq<string>)
    ensures Headings(a + b) == Headings(a) + Headings(b)
  {
    hide HeadingOf;
    if a == [] {
      assert a + b == b;
    } else {
      assert (a + b)[1..] == a[1..] + b;
      HeadingsConcat(a[1..], b);
    }
  }

  lemma {:induction false} TargetsConcat(a: seq<string>, b: seq<string>, key: string)
    ensures Targets(a + b, key) == Targets(a, key) + Targets(b, key)
  {
    hide TargetOf;
    if a == [] {
      assert a + b == b;
    } else {
      assert (a + b)[1..] == a[1..] + b;
      TargetsConcat(a[1..], b, key);
      Associative(TargetOf(a[0], key), Targets(a[1..], key), Targets(b, key));
    }
  }

  /** Each heading `[Unreleased]` becomes itself and the release. */
  function PromotedHeadings(headings: seq<string>, r: Release): seq<string> {
    if headings == [] then []
    else (if headings[0] == UNRELEASED then [UNRELEASED, ReleaseText(r.version, r.date)] else [headings[0]])
         + PromotedHeadings(headings[1..], r)
  }

  lemma FreshHeadings(r: Release)
    requires GoodRelease(r)
    ensures HeadingOf("## [Unreleased]") == Some(UNRELEASED)
    ensures HeadingOf("").None? && LinkOf("").None? && !IsSub("")
    ensures HeadingOf("## " + ReleaseText(r.version, r.date)) == Some(ReleaseText(r.version, r.date))
    ensures !IsSub("## [Unreleased]") && !IsSub("## " + ReleaseText(r.version, r.date))
  {
    hide VersionKey, Linkable, ValidDate, IsoDate;
    VersionIsLinkable(r.version);
    assert "## [Unreleased]" == "## " + UNRELEASED;
    assert UNRELEASED[0] == '[' && UNRELEASED[|UNRELEASED| - 1] == ']';
    HeadingLine(UNRELEASED);
    NonEmptyRelease(r);
    HeadingIsNoSub("## [Unreleased]");
    HeadingIsNoSub("## " + ReleaseText(r.version, r.date));
  }

  lemma NonEmptyRelease(r: Release)
    requires GoodRelease(r) && Linkable(r.version) && Lacks(r.version, ']') && r.version != "Unreleased"
    ensures HeadingOf("## " + ReleaseText(r.version, r.date)) == Some(ReleaseText(r.version, r.date))
  {
    ReleaseSection(r.version, r.date);
  }

  lemma HeadingIsNoSub(line: string)
    requires HeadingOf(line).Some?
    ensures !IsSub(line)
  {
    if IsSub(line) { SubIsNoHeading(line); }
  }

  lemma FreshUnreleasedLink(r: Release)
    requires GoodRelease(r)
    ensures var line := LinkLine("Unreleased", CompareUrl(r.version, "main"));
      && HeadingOf(line).None? && !IsSub(line) && LinkOf(line) == Some(("Unreleased", CompareUrl(r.version, "main")))
      && Compared(CompareUrl(r.version, "main")) == Some((r.version, "main"))
  {
    hide VersionKey, ValidDate, IsoDate, IsoShaped, Linkable, LinkOf, HeadingOf, IsSub, Compared, CompareUrl, LinkLine;
    VersionIsLinkable(r.version);
    ReadsCompared(r.version, "main");
    ReadsLink("Unreleased", CompareUrl(r.version, "main"));
  }

  lemma FreshReleaseLink(r: Release)
    requires GoodRelease(r)
    ensures var line := LinkLine(r.version, CompareUrl(r.previous, r.version));
      && HeadingOf(line).None? && !IsSub(line) && LinkOf(line) == Some((r.version, CompareUrl(r.previous, r.version)))
      && Compared(CompareUrl(r.previous, r.version)) == Some((r.previous, r.version))
  {
    VersionIsLinkable(r.version);
    LinkableText(r.version);
    hide VersionKey, ValidDate, IsoDate, IsoShaped, Linkable, LinkOf, HeadingOf, IsSub, Compared, CompareUrl, LinkLine, Lacks, NoSpace;
    ReadsCompared(r.previous, r.version);
    ReadsLink(r.version, CompareUrl(r.previous, r.version));
  }

  lemma LinkableText(name: string)
    requires Linkable(name)
    ensures name != "" && Lacks(name, '/') && NoSpace(name)
  {
  }

  lemma FreshLinks(r: Release)
    requires GoodRelease(r)
    ensures var first, second := LinkLine("Unreleased", CompareUrl(r.version, "main")), LinkLine(r.version, CompareUrl(r.previous, r.version));
      && HeadingOf(first).None? && HeadingOf(second).None? && !IsSub(first) && !IsSub(second)
      && LinkOf(first) == Some(("Unreleased", CompareUrl(r.version, "main")))
      && LinkOf(second) == Some((r.version, CompareUrl(r.previous, r.version)))
      && Compared(CompareUrl(r.version, "main")) == Some((r.version, "main"))
      && Compared(CompareUrl(r.previous, r.version)) == Some((r.previous, r.version))
  {
    hide GoodRelease, LinkOf, HeadingOf, IsSub, Compared, CompareUrl, LinkLine;
    FreshUnreleasedLink(r);
    FreshReleaseLink(r);
  }

  lemma FoldUnreleased()
    ensures Lower("Unreleased") == "unreleased"
  {
    assert "Unreleased" == "U" + "nreleased" && "unreleased" == "u" + "nreleased";
    FoldHead('U', "nreleased");
    FoldLower("nreleased");
    assert ('U' as int + 32) as char == 'u';
  }

  lemma FoldHead(c: char, s: string)
    ensures Lower([c] + s) == [LowerChar(c)] + Lower(s)
  {
    assert ([c] + s)[1..] == s;
  }

  lemma {:induction false} FoldLower(s: string)
    requires forall i | 0 <= i < |s| :: 'a' <= s[i] <= 'z'
    ensures Lower(s) == s
  {
    if s != "" { FoldLower(s[1..]); }
  }

  // ── what a promotion changes, and what not ────────────────────────────

  lemma PromoteLineHeadings(line: string, r: Release)
    requires GoodRelease(r)
    ensures Headings(PromoteLine(line, r)) == PromotedHeadings(Headings([line]), r)
  {
    hide HeadingOf, LinkOf, GoodRelease, Lower, Compared, ReleaseText, CompareUrl, LinkLine, Headings;
    HeadingsOf1(line);
    if HeadingOf(line) == Some(UNRELEASED) {
      FreshSectionHeadings(r);
      assert [UNRELEASED][1..] == [];
      assert PromotedHeadings([], r) == [];
    } else if IsUnreleasedLink(line) {
      FreshLinkHeadings(r);
    } else if HeadingOf(line).Some? {
      assert [HeadingOf(line).value][1..] == [];
      assert PromotedHeadings([], r) == [];
    }
  }

  /** Two headings with a line between them. */
  lemma TwoHeadings(a: string, b: string, c: string, first: string, second: string)
    requires HeadingOf(a) == Some(first) && HeadingOf(b).None? && HeadingOf(c) == Some(second)
    ensures Headings([a, b, c]) == [first, second]
  {
    hide HeadingOf, Headings;
    HeadingsOf1(a);
    HeadingsOf1(b);
    HeadingsOf1(c);
    HeadingsConcat([a], [b]);
    HeadingsConcat([a] + [b], [c]);
    assert [a, b, c] == [a] + [b] + [c];
  }

  lemma FreshSectionHeadings(r: Release)
    requires GoodRelease(r)
    ensures Headings(["## [Unreleased]", "", "## " + ReleaseText(r.version, r.date)]) == [UNRELEASED, ReleaseText(r.version, r.date)]
  {
    hide HeadingOf, GoodRelease, ReleaseText, Headings, LinkOf, IsSub;
    FreshHeadings(r);
    TwoHeadings("## [Unreleased]", "", "## " + ReleaseText(r.version, r.date), UNRELEASED, ReleaseText(r.version, r.date));
  }

  lemma FreshLinkHeadings(r: Release)
    requires GoodRelease(r)
    ensures Headings([LinkLine("Unreleased", CompareUrl(r.version, "main")), LinkLine(r.version, CompareUrl(r.previous, r.version))]) == []
  {
    hide HeadingOf, LinkOf, GoodRelease, Compared, CompareUrl, LinkLine, Headings;
    FreshLinks(r);
    var a, b := LinkLine("Unreleased", CompareUrl(r.version, "main")), LinkLine(r.version, CompareUrl(r.previous, r.version));
    HeadingsOf1(a);
    HeadingsOf1(b);
    HeadingsConcat([a], [b]);
    assert [a, b] == [a] + [b];
  }

  lemma HeadingsOf1(line: string)
    ensures Headings([line]) == if HeadingOf(line).Some? then [HeadingOf(line).value] else []
  {
    hide HeadingOf;
    assert [line][1..] == [] && Headings([]) == [];
  }

  lemma {:induction false} PromotedConcat(a: seq<string>, b: seq<string>, r: Release)
    ensures PromotedHeadings(a + b, r) == PromotedHeadings(a, r) + PromotedHeadings(b, r)
  {
    hide ReleaseText;
    if a == [] {
      assert a + b == b;
    } else {
      assert (a + b)[1..] == a[1..] + b;
      PromotedConcat(a[1..], b, r);
    }
  }

  lemma {:induction false} PromoteHeadings(lines: seq<string>, r: Release)
    requires GoodRelease(r)
    ensures Headings(Promote(lines, r)) == PromotedHeadings(Headings(lines), r)
  {
    hide PromoteLine, HeadingOf, GoodRelease, PromotedHeadings;
    if lines == [] {
      PromotedNone(r);
    } else {
      PromoteHeadings(lines[1..], r);
      PromoteLineHeadings(lines[0], r);
      HeadingsConcat(PromoteLine(lines[0], r), Promote(lines[1..], r));
      HeadingsConcat([lines[0]], lines[1..]);
      assert lines == [lines[0]] + lines[1..];
      PromotedConcat(Headings([lines[0]]), Headings(lines[1..]), r);
    }
  }

  lemma PromotedNone(r: Release)
    ensures PromotedHeadings([], r) == []
  {
  }

  lemma TargetsOf1(line: string, key: string)
    ensures Targets([line], key) == TargetOf(line, key)
  {
    hide TargetOf;
    assert [line][1..] == [] && Targets([], key) == [];
  }

  function PromotedTarget(line: string, r: Release, key: string): seq<string> {
    if IsUnreleasedLink(line) then
      if key == "unreleased" then [CompareUrl(r.version, "main")]
      else if key == Lower(r.version) then [CompareUrl(r.previous, r.version)] else []
    else TargetOf(line, key)
  }

  lemma PromoteLineTargets(line: string, r: Release, key: string)
    requires GoodRelease(r)
    ensures Targets(PromoteLine(line, r), key) == PromotedTarget(line, r, key)
  {
    hide HeadingOf, LinkOf, GoodRelease, Lower, Compared, ReleaseText, CompareUrl, LinkLine, Targets;
    if HeadingOf(line) == Some(UNRELEASED) {
      FreshHeadings(r);
      var release := "## " + ReleaseText(r.version, r.date);
      TargetsOf1("## [Unreleased]", key);
      TargetsOf1("", key);
      TargetsOf1(release, key);
      TargetsConcat(["## [Unreleased]"], [""], key);
      TargetsConcat(["## [Unreleased]"] + [""], [release], key);
      assert PromoteLine(line, r) == ["## [Unreleased]"] + [""] + [release];
    } else if IsUnreleasedLink(line) {
      FreshTargets(r, key);
      assert PromoteLine(line, r) == [LinkLine("Unreleased", CompareUrl(r.version, "main"))]
                                     + [LinkLine(r.version, CompareUrl(r.previous, r.version))];
    } else {
      TargetsOf1(line, key);
    }
  }

  lemma FreshTargets(r: Release, key: string)
    requires GoodRelease(r)
    ensures Targets([LinkLine("Unreleased", CompareUrl(r.version, "main"))] + [LinkLine(r.version, CompareUrl(r.previous, r.version))], key)
         == if key == "unreleased" then [CompareUrl(r.version, "main")]
            else if key == Lower(r.version) then [CompareUrl(r.previous, r.version)] else []
  {
    FreshLinks(r);
    VersionApart(r);
    FoldUnreleased();
    hide HeadingOf, LinkOf, GoodRelease, Lower, Compared, CompareUrl, LinkLine, Targets, Linkable, VersionKey;
    var a, b := LinkLine("Unreleased", CompareUrl(r.version, "main")), LinkLine(r.version, CompareUrl(r.previous, r.version));
    TargetsOf1(a, key);
    TargetsOf1(b, key);
    TargetsConcat([a], [b], key);
  }

  lemma VersionApart(r: Release)
    requires GoodRelease(r)
    ensures Lower(r.version) != "unreleased" && Linkable(r.version) && r.version != "Unreleased"
  {
    VersionIsLinkable(r.version);
  }

  /** The targets of the two links a promotion writes, one a link of `[Unreleased]`. */
  function Copies(n: nat, url: string): seq<string> {
    if n == 0 then [] else [url] + Copies(n - 1, url)
  }

  /** Any other label has the links it had. */
  lemma {:induction false} PromoteOtherTargets(lines: seq<string>, r: Release, key: string)
    requires GoodRelease(r) && key != "unreleased" && key != Lower(r.version)
    ensures Targets(Promote(lines, r), key) == Targets(lines, key)
  {
    hide PromoteLine, GoodRelease, HeadingOf, LinkOf, Lower, CompareUrl, TargetOf, IsUnreleasedLink;
    if lines != [] {
      PromoteOtherTargets(lines[1..], r, key);
      UnreleasedTarget(lines[0], key);
      PromoteLineTargets(lines[0], r, key);
      TargetsConcat(PromoteLine(lines[0], r), Promote(lines[1..], r), key);
    }
  }

  lemma TargetsFirst(lines: seq<string>, key: string)
    requires lines != []
    ensures Targets(lines, key) == TargetOf(lines[0], key) + Targets(lines[1..], key)
  {
  }

  lemma PromoteFirst(lines: seq<string>, r: Release)
    requires lines != []
    ensures Promote(lines, r) == PromoteLine(lines[0], r) + Promote(lines[1..], r)
  {
  }

  lemma CopiesMore(n: nat, url: string)
    ensures Copies(n + 1, url) == [url] + Copies(n, url) && Copies(0, url) == []
  {
  }

  lemma {:induction false} PromoteUnreleasedTargets(lines: seq<string>, r: Release)
    requires GoodRelease(r)
    ensures Targets(Promote(lines, r), "unreleased") == Copies(|Targets(lines, "unreleased")|, CompareUrl(r.version, "main"))
  {
    hide PromoteLine, GoodRelease, HeadingOf, LinkOf, Lower, CompareUrl, TargetOf, IsUnreleasedLink, Targets, Promote, Copies;
    var url := CompareUrl(r.version, "main");
    if lines == [] {
      NoTargets(r, "unreleased", url);
    } else {
      PromoteUnreleasedTargets(lines[1..], r);
      UnreleasedTarget(lines[0], "unreleased");
      PromoteLineTargets(lines[0], r, "unreleased");
      PromoteFirst(lines, r);
      TargetsFirst(lines, "unreleased");
      TargetsConcat(PromoteLine(lines[0], r), Promote(lines[1..], r), "unreleased");
      CopiesMore(|Targets(lines[1..], "unreleased")|, url);
    }
  }

  lemma {:induction false} PromoteVersionTargets(lines: seq<string>, r: Release)
    requires GoodRelease(r) && Targets(lines, Lower(r.version)) == []
    ensures Targets(Promote(lines, r), Lower(r.version)) == Copies(|Targets(lines, "unreleased")|, CompareUrl(r.previous, r.version))
  {
    VersionApart(r);
    hide PromoteLine, GoodRelease, HeadingOf, LinkOf, Lower, CompareUrl, TargetOf, IsUnreleasedLink, Targets, Promote, Copies, Linkable;
    var url, key := CompareUrl(r.previous, r.version), Lower(r.version);
    if lines == [] {
      NoTargets(r, key, url);
    } else {
      TargetsFirst(lines, key);
      PromoteVersionTargets(lines[1..], r);
      UnreleasedTarget(lines[0], key);
      PromoteLineTargets(lines[0], r, key);
      PromoteFirst(lines, r);
      TargetsFirst(lines, "unreleased");
      TargetsConcat(PromoteLine(lines[0], r), Promote(lines[1..], r), key);
      CopiesMore(|Targets(lines[1..], "unreleased")|, url);
    }
  }

  lemma NoTargets(r: Release, key: string, url: string)
    ensures Targets(Promote([], r), key) == Copies(|Targets([], "unreleased")|, url)
  {
  }

  lemma UnreleasedTarget(line: string, key: string)
    ensures |TargetOf(line, "unreleased")| == if IsUnreleasedLink(line) then 1 else 0
    ensures IsUnreleasedLink(line) && key != "unreleased" ==> TargetOf(line, key) == []
  {
    hide HeadingOf, LinkOf, Lower;
  }

  lemma {:induction false} PromoteClean(lines: seq<string>, r: Release, open: bool, subs: set<string>)
    requires GoodRelease(r)
    ensures CleanFrom(Promote(lines, r), open, subs) <==> CleanFrom(lines, open, subs)
    decreases |lines|
  {
    hide GoodRelease, HeadingOf, LinkOf, IsSub, Lower, CompareUrl, LinkLine, ReleaseText;
    if lines != [] {
      var rest := Promote(lines[1..], r);
      var heading := HeadingOf(lines[0]).Some?;
      var sub := open && !heading && IsSub(lines[0]);
      PromoteClean(lines[1..], r, open || heading, if heading then {} else if sub then subs + {SubOf(lines[0])} else subs);
      if HeadingOf(lines[0]) == Some(UNRELEASED) {
        FreshHeadings(r);
        CleanTwo("", "## " + ReleaseText(r.version, r.date), rest, true, {});
        assert Promote(lines, r) == ["## [Unreleased]"] + (["", "## " + ReleaseText(r.version, r.date)] + rest);
        CleanOne("## [Unreleased]", ["", "## " + ReleaseText(r.version, r.date)] + rest, open, subs);
      } else if IsUnreleasedLink(lines[0]) {
        FreshLinks(r);
        LinkIsNoSub(lines[0]);
        CleanTwo(LinkLine("Unreleased", CompareUrl(r.version, "main")), LinkLine(r.version, CompareUrl(r.previous, r.version)), rest, open, subs);
      } else {
        CleanOne(lines[0], rest, open, subs);
      }
    }
  }

  lemma CleanOne(line: string, rest: seq<string>, open: bool, subs: set<string>)
    ensures CleanFrom([line] + rest, open, subs) <==>
      if HeadingOf(line).Some? then CleanFrom(rest, true, {})
      else if open && IsSub(line) then SubOf(line) !in subs && CleanFrom(rest, open, subs + {SubOf(line)})
      else CleanFrom(rest, open, subs)
  {
    hide HeadingOf, IsSub;
    assert ([line] + rest)[1..] == rest;
  }

  /** Two lines that name no subsection. */
  lemma CleanTwo(a: string, b: string, rest: seq<string>, open: bool, subs: set<string>)
    requires HeadingOf(a).None? && !IsSub(a) && !IsSub(b)
    ensures CleanFrom([a, b] + rest, open, subs) <==>
      if HeadingOf(b).Some? then CleanFrom(rest, true, {}) else CleanFrom(rest, open, subs)
  {
    hide HeadingOf, IsSub;
    assert [a, b] + rest == [a] + ([b] + rest);
    CleanOne(a, [b] + rest, open, subs);
    CleanOne(b, rest, open, subs);
  }

  lemma SubIsNoLink(line: string)
    requires IsSub(line)
    ensures LinkOf(line).None?
  {
    assert line[..4][0] == line[0] == '#';
    StartsApart(line, " ");
    StartsApart(line, "  ");
    StartsApart(line, "   ");
    assert line[0..] == line;
  }

  lemma LinkIsNoSub(line: string)
    requires LinkOf(line).Some?
    ensures !IsSub(line)
  {
    if IsSub(line) { SubIsNoLink(line); }
  }

  // ── promotion keeps the check ─────────────────────────────────────────

  lemma {:induction false} PromotedNoUnreleased(headings: seq<string>, r: Release)
    requires forall i | 0 <= i < |headings| :: headings[i] != UNRELEASED
    ensures PromotedHeadings(headings, r) == headings
  {
    hide ReleaseText;
    if headings != [] {
      forall i | 0 <= i < |headings| - 1 ensures headings[1..][i] != UNRELEASED { assert headings[1..][i] == headings[i + 1]; }
      PromotedNoUnreleased(headings[1..], r);
      assert headings[0] != UNRELEASED;
    }
  }

  lemma UnreleasedIsNoSection()
    ensures SectionOf(UNRELEASED).None?
  {
    hide Bracketed;
    BracketedText("Unreleased", "");
    assert UNRELEASED == "[" + "Unreleased" + "]" + "";
  }

  /** The promoted headings of a file that starts with `[Unreleased]`. */
  lemma PromotedFirst(headings: seq<string>, r: Release)
    requires UnreleasedFirst(headings) && GoodRelease(r)
    ensures PromotedHeadings(headings, r) == [UNRELEASED, ReleaseText(r.version, r.date)] + headings[1..]
    ensures UnreleasedFirst(PromotedHeadings(headings, r))
    ensures Sections(PromotedHeadings(headings, r)) == [ReleaseOf(r)] + Sections(headings)
    ensures DateOf(ReleaseOf(r)) == Some(IsoDate(r.date))
  {
    hide GoodRelease, ReleaseText, SectionOf, DateOf, IsoShaped, IsoDate, Bracketed, Sections, PromotedHeadings;
    ReleaseFacts(r);
    PromotedIs(headings, r);
    StillFirst(headings, ReleaseText(r.version, r.date));
    PromotedSections(headings, r);
  }

  lemma PromotedIs(headings: seq<string>, r: Release)
    requires UnreleasedFirst(headings)
    ensures PromotedHeadings(headings, r) == [UNRELEASED, ReleaseText(r.version, r.date)] + headings[1..]
  {
    hide ReleaseText, Bracketed;
    var rest := headings[1..];
    forall i | 0 <= i < |rest| ensures rest[i] != UNRELEASED { assert rest[i] == headings[i + 1]; }
    PromotedNoUnreleased(rest, r);
  }

  lemma StillFirst(headings: seq<string>, text: string)
    requires UnreleasedFirst(headings) && text != UNRELEASED && Bracketed(text).Some?
    ensures UnreleasedFirst([UNRELEASED, text] + headings[1..])
  {
    hide Bracketed;
    var promoted := [UNRELEASED, text] + headings[1..];
    forall i | 0 < i < |promoted| ensures promoted[i] != UNRELEASED {
      if i > 1 { assert promoted[i] == headings[i - 1]; }
    }
  }

  lemma ReleaseFacts(r: Release)
    requires GoodRelease(r)
    ensures var text := ReleaseText(r.version, r.date);
      text != UNRELEASED && Bracketed(text).Some? && SectionOf(text) == Some(ReleaseOf(r))
      && DateOf(ReleaseOf(r)) == Some(IsoDate(r.date))
  {
    hide Linkable, VersionKey, ValidDate, Bracketed, SectionOf, DateOf, IsoShaped, IsoDate;
    VersionIsLinkable(r.version);
    ReleaseSection(r.version, r.date);
  }

  lemma SectionsCons(heading: string, rest: seq<string>)
    ensures Sections([heading] + rest) == (if SectionOf(heading).Some? then [SectionOf(heading).value] else []) + Sections(rest)
  {
    hide SectionOf;
    assert ([heading] + rest)[1..] == rest;
  }

  lemma PromotedSections(headings: seq<string>, r: Release)
    requires headings != [] && headings[0] == UNRELEASED && SectionOf(ReleaseText(r.version, r.date)) == Some(ReleaseOf(r))
    ensures Sections([UNRELEASED, ReleaseText(r.version, r.date)] + headings[1..]) == [ReleaseOf(r)] + Sections(headings)
  {
    UnreleasedIsNoSection();
    hide SectionOf, ReleaseText, Sections;
    var text, rest := ReleaseText(r.version, r.date), headings[1..];
    SectionsCons(UNRELEASED, [text] + rest);
    SectionsCons(text, rest);
    SectionsCons(UNRELEASED, rest);
    assert [UNRELEASED, text] + rest == [UNRELEASED] + ([text] + rest);
    assert headings == [UNRELEASED] + rest;
  }

  function ReleaseOf(r: Release): Section {
    Section(ReleaseText(r.version, r.date), r.version, [' ', EM_DASH, ' '] + r.date)
  }

  /** The version is new to the file, and no label of it reads as `[Unreleased]` does. */
  ghost predicate Fresh(lines: seq<string>, r: Release) {
    && Targets(lines, Lower(r.version)) == []
    && forall i | 0 <= i < |NamesOf(lines)| :: Lower(NamesOf(lines)[i]) != "unreleased"
  }

  function NamesOf(lines: seq<string>): seq<string> {
    Names(Sections(Headings(lines)))
  }

  lemma {:induction false} TargetsNoSpace(lines: seq<string>, key: string, i: nat)
    requires i < |Targets(lines, key)|
    ensures NoSpace(Targets(lines, key)[i])
  {
    hide LinkOf, HeadingOf, Lower, NoSpace;
    var first := TargetOf(lines[0], key);
    if i < |first| {
      LinkNoSpace(lines[0]);
    } else {
      TargetsNoSpace(lines[1..], key, i - |first|);
    }
  }

  lemma LinkNoSpace(line: string)
    requires LinkOf(line).Some?
    ensures NoSpace(LinkOf(line).value.1)
  {
  }

  /** The link the file has of `[Unreleased]` shows that its newest version can be linked from. */
  lemma PreviousLinkable(lines: seq<string>, previous: string)
    requires UnreleasedFrom(lines, previous)
    ensures Linkable(previous)
  {
    hide Linkable, Compared, NoSpace;
    TargetsNoSpace(lines, "unreleased", 0);
    ComparedIsLinkable(Targets(lines, "unreleased")[0]);
  }

  /** The links of the other releases are where they were, and the new ones as they have to be. */
  lemma PromotedChain(lines: seq<string>, r: Release)
    requires GoodRelease(r) && Kept(lines, r.previous) && Fresh(lines, r)
    ensures Chained(Promote(lines, r), [r.version] + NamesOf(lines)) && UnreleasedFrom(Promote(lines, r), r.version)
  {
    hide GoodRelease, HeadingOf, LinkOf, Lower, CompareUrl, Promote, Targets, CleanFrom, UnreleasedFirst, DistinctNames, Below,
         AllDated, InDateOrder, Headings, Sections, Compared;
    var names, after := NamesOf(lines), Promote(lines, r);
    FreshLinksCompared(r);
    PromoteUnreleasedTargets(lines, r);
    PromoteVersionTargets(lines, r);
    var order := [r.version] + names;
    assert order[1..] == names && Previous(order, 0) == Some(r.previous);
    forall i | 0 <= i < |names| ensures LinkedFrom(after, names[i], Previous(names, i)) {
      assert LinkedFrom(lines, names[i], Previous(names, i));
      assert Lower(names[i]) != "unreleased" && Lower(names[i]) != Lower(r.version);
      PromoteOtherTargets(lines, r, Lower(names[i]));
    }
    ChainCons(order, after);
  }

  lemma FreshLinksCompared(r: Release)
    requires GoodRelease(r)
    ensures Compared(CompareUrl(r.version, "main")) == Some((r.version, "main"))
    ensures Compared(CompareUrl(r.previous, r.version)) == Some((r.previous, r.version))
    ensures Copies(1, CompareUrl(r.version, "main")) == [CompareUrl(r.version, "main")]
    ensures Copies(1, CompareUrl(r.previous, r.version)) == [CompareUrl(r.previous, r.version)]
  {
    FreshLinks(r);
    hide CompareUrl;
    assert Copies(0, CompareUrl(r.version, "main")) == [] && Copies(0, CompareUrl(r.previous, r.version)) == [];
  }

  /** A fresh version is none of the file's. */
  lemma FreshIsNew(lines: seq<string>, r: Release)
    requires Kept(lines, r.previous) && Fresh(lines, r)
    ensures forall i | 0 <= i < |NamesOf(lines)| :: NamesOf(lines)[i] != r.version
  {
    hide Lower, Targets, CleanFrom, UnreleasedFirst, DistinctNames, AllDated, InDateOrder, Headings, Sections, Compared, UnreleasedFrom;
    var names := NamesOf(lines);
    forall i | 0 <= i < |names| ensures names[i] != r.version {
      assert LinkedFrom(lines, names[i], Previous(names, i));
    }
  }

  /** The dates of the promoted file. */
  lemma PromotedDates(sections: seq<Section>, r: Release)
    requires AllDated(sections) && sections != [] && sections[0].name != r.version && GoodRelease(r)
    requires DateOf(ReleaseOf(r)) == Some(IsoDate(r.date))
    ensures AllDated([ReleaseOf(r)] + sections)
    ensures InDateOrder([ReleaseOf(r)] + sections, [r.version] + Names(sections))
        <==> !Earlier(IsoDate(r.date), DateOf(sections[0]).value)
  {
    hide DateOf, IsoDate, IsoShaped, ValidDate, VersionKey, Linkable, Earlier, ReleaseText;
    var after := [ReleaseOf(r)] + sections;
    assert after[1..] == sections;
    forall i | 0 <= i < |after| ensures DateOf(after[i]).Some? {
      if i > 0 { assert after[i] == sections[i - 1] && DateOf(sections[i - 1]).Some?; }
    }
    assert DateOf(sections[0]).Some?;
    assert DateIn(after, r.version) == Some(IsoDate(r.date));
    assert DateIn(after, sections[0].name) == DateIn(sections, sections[0].name) == DateOf(sections[0]);
    assert ([r.version] + Names(sections))[1] == sections[0].name;
  }

  /**
   A file with no problems, promoted to a fresh version, has none at the new
   version exactly when the release below is not a newer one and not dated
   later.
   */
  lemma PromotionKeepsCheck(lines: seq<string>, r: Release)
    requires Problems(lines, r.previous) == []
    requires VersionKey(r.version).Some? && IsoShaped(r.date) && ValidDate(IsoDate(r.date)) && Fresh(lines, r)
    ensures var below := Sections(Headings(lines))[0];
      Problems(Promote(lines, r), r.version) == []
      <==> !Below(r.version, below.name) && !Earlier(IsoDate(r.date), DateOf(below).value)
  {
    hide Problems, VersionKey, IsoShaped, ValidDate, IsoDate, Fresh, CleanFrom, Chained, InDateOrder, UnreleasedFirst, Below,
         DistinctNames, AllDated, UnreleasedFrom, DateOf, Earlier, Headings, Sections, OrderRule, Promote, PromotedHeadings;
    EmptyIff(lines, r.previous);
    EmptyIff(Promote(lines, r), r.version);
    PreviousLinkable(lines, r.previous);
    var headings, sections := Headings(lines), Sections(Headings(lines));
    var after := Promote(lines, r);
    KeptHasDates(lines, r.previous);
    PromoteHeadings(lines, r);
    PromotedFirst(headings, r);
    PromoteClean(lines, r, false, {});
    PromotedChain(lines, r);
    FreshIsNew(lines, r);
    PromotedDates(sections, r);
    PromotedNames(sections, r);
  }

  lemma KeptHasDates(lines: seq<string>, version: string)
    requires Kept(lines, version)
    ensures var sections := Sections(Headings(lines)); sections != [] && DateOf(sections[0]).Some? && Names(sections)[0] == sections[0].name
  {
    hide CleanFrom, Chained, InDateOrder, UnreleasedFirst, DistinctNames, UnreleasedFrom, DateOf, Headings, Sections, OrderRule;
  }

  /** The order of the promoted names. */
  lemma PromotedNames(sections: seq<Section>, r: Release)
    requires sections != [] && DistinctNames(Names(sections)) && OrderRule(Names(sections)) == []
    requires forall i | 0 <= i < |Names(sections)| :: Names(sections)[i] != r.version
    ensures Names([ReleaseOf(r)] + sections) == [r.version] + Names(sections)
    ensures DistinctNames([r.version] + Names(sections))
    ensures OrderRule([r.version] + Names(sections)) == [] <==> !Below(r.version, sections[0].name)
  {
    hide Below, ReleaseText;
    assert ([ReleaseOf(r)] + sections)[1..] == sections;
    var names := Names(sections);
    var order := [r.version] + names;
    assert order[1..] == names && names[0] == sections[0].name;
    forall i, j | 0 <= i < j < |order| ensures order[i] != order[j] {
      assert order[j] == names[j - 1];
      if i > 0 { assert order[i] == names[i - 1]; }
    }
  }

  // ── adding an entry ───────────────────────────────────────────────────

  /** Whether a section is open at `p`. */
  predicate OpenAt(lines: seq<string>, p: nat, open: bool)
    requires p <= |lines|
  {
    if p == 0 then open else OpenAt(lines[1..], p - 1, open || HeadingOf(lines[0]).Some?)
  }

  /** The subsections the section open at `p` has had above `p`. */
  function SubsAbove(lines: seq<string>, p: nat, open: bool, subs: set<string>): set<string>
    requires p <= |lines|
  {
    if p == 0 then subs
    else if HeadingOf(lines[0]).Some? then SubsAbove(lines[1..], p - 1, true, {})
    else SubsAbove(lines[1..], p - 1, open, if open && IsSub(lines[0]) then subs + {SubOf(lines[0])} else subs)
  }

  /** Those still to come before the next heading. */
  function SubsBelow(lines: seq<string>): set<string> {
    if lines == [] || HeadingOf(lines[0]).Some? then {}
    else SubsBelow(lines[1..]) + if IsSub(lines[0]) then {SubOf(lines[0])} else {}
  }

  function Insert(lines: seq<string>, p: nat, line: string): seq<string>
    requires p <= |lines|
  {
    lines[..p] + [line] + lines[p..]
  }

  lemma InsertKeepsHeadings(lines: seq<string>, p: nat, line: string, key: string)
    requires p <= |lines| && HeadingOf(line).None? && LinkOf(line).None?
    ensures Headings(Insert(lines, p, line)) == Headings(lines) && Targets(Insert(lines, p, line), key) == Targets(lines, key)
  {
    hide HeadingOf, LinkOf, Headings, Targets;
    var a, b := lines[..p], lines[p..];
    assert a + b == lines;
    HeadingsConcat(a, [line]);
    HeadingsConcat(a + [line], b);
    HeadingsOf1(line);
    HeadingsConcat(a, b);
    TargetsConcat(a, [line], key);
    TargetsConcat(a + [line], b, key);
    TargetsOf1(line, key);
    TargetsConcat(a, b, key);
  }

  /** One subsection more among those seen: clean while it does not come again. */
  lemma {:induction false} CleanWithOneMore(lines: seq<string>, subs: set<string>, sub: string)
    ensures CleanFrom(lines, true, subs + {sub}) <==> CleanFrom(lines, true, subs) && sub !in SubsBelow(lines)
  {
    hide HeadingOf, IsSub;
    if lines != [] && HeadingOf(lines[0]).None? {
      if IsSub(lines[0]) {
        CleanWithOneMore(lines[1..], subs + {SubOf(lines[0])}, sub);
        assert subs + {SubOf(lines[0])} + {sub} == subs + {sub} + {SubOf(lines[0])};
      } else {
        CleanWithOneMore(lines[1..], subs, sub);
      }
    }
  }

  /** Inserting a line that is no heading: clean unless it repeats a subsection of its section. */
  lemma {:induction false} CleanInsert(lines: seq<string>, p: nat, line: string, open: bool, subs: set<string>)
    requires p <= |lines| && HeadingOf(line).None?
    ensures CleanFrom(Insert(lines, p, line), open, subs) <==>
      CleanFrom(lines, open, subs)
      && (OpenAt(lines, p, open) && IsSub(line) ==> SubOf(line) !in SubsAbove(lines, p, open, subs) + SubsBelow(lines[p..]))
    decreases p
  {
    hide HeadingOf, IsSub;
    if p == 0 {
      assert Insert(lines, p, line) == [line] + lines && lines[p..] == lines;
      CleanOne(line, lines, open, subs);
      if open && IsSub(line) { CleanWithOneMore(lines, subs, SubOf(line)); }
    } else {
      var rest := lines[1..];
      assert Insert(lines, p, line) == [lines[0]] + Insert(rest, p - 1, line);
      assert lines == [lines[0]] + rest && rest[p - 1..] == lines[p..];
      CleanOne(lines[0], Insert(rest, p - 1, line), open, subs);
      CleanOne(lines[0], rest, open, subs);
      var heading := HeadingOf(lines[0]).Some?;
      CleanInsert(rest, p - 1, line, open || heading,
                  if heading then {} else if open && IsSub(lines[0]) then subs + {SubOf(lines[0])} else subs);
    }
  }

  /** The rules other than the one on subsections read only the headings and the links. */
  lemma KeptByHeadings(lines: seq<string>, after: seq<string>, version: string)
    requires Headings(after) == Headings(lines) && forall key :: Targets(after, key) == Targets(lines, key)
    requires Kept(lines, version)
    ensures Kept(after, version) <==> CleanFrom(after, false, {})
  {
    hide Headings, Sections, Targets, Compared, Lower, UnreleasedFirst, AllDated, InDateOrder, CleanFrom, OrderRule, DistinctNames;
    var names := Names(Sections(Headings(lines)));
    forall i | 0 <= i < |names| ensures LinkedFrom(after, names[i], Previous(names, i)) {
      assert LinkedFrom(lines, names[i], Previous(names, i));
      assert Targets(after, Lower(names[i])) == Targets(lines, Lower(names[i]));
    }
    assert Targets(after, "unreleased") == Targets(lines, "unreleased");
  }

  /**
   An ordinary change adds a line under some heading, `[Unreleased]` for one:
   the file still has no problems exactly when the line is not a subsection
   its section already has.
   */
  lemma EntryKeepsCheck(lines: seq<string>, p: nat, line: string, version: string)
    requires Problems(lines, version) == []
    requires p <= |lines| && HeadingOf(line).None? && LinkOf(line).None? && OpenAt(lines, p, false)
    ensures Problems(Insert(lines, p, line), version) == []
      <==> (IsSub(line) ==> SubOf(line) !in SubsAbove(lines, p, false, {}) + SubsBelow(lines[p..]))
  {
    hide Problems, Headings, Targets, HeadingOf, LinkOf, CleanFrom, SubsAbove, SubsBelow, IsSub, ReleasesKept, OpenAt, Insert;
    EmptyIff(lines, version);
    EmptyIff(Insert(lines, p, line), version);
    forall key ensures Headings(Insert(lines, p, line)) == Headings(lines)
                    && Targets(Insert(lines, p, line), key) == Targets(lines, key) {
      InsertKeepsHeadings(lines, p, line, key);
    }
    InsertKeepsHeadings(lines, p, line, "");
    KeptByHeadings(lines, Insert(lines, p, line), version);
    CleanInsert(lines, p, line, false, {});
  }
}
