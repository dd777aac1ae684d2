/**
 The regular expressions of `scripts/check_changelog.py`, as functions: what
 each matches, over ASCII digits and ASCII case.
 */
module ChangelogText {
  import opened Wrappers
  import opened AsciiText

  const EM_DASH: char := 0x2014 as char
  const HOST: string := "https://github.com"
  const REPOSITORY: string := HOST + "/CodefyUI/CodefyUI"
  const COMPARE: string := REPOSITORY + "/compare/"

  // ── characters ────────────────────────────────────────────────────────

  predicate Lacks(s: string, c: char) {
    forall i | 0 <= i < |s| :: s[i] != c
  }

  // ── the lines of the file ─────────────────────────────────────────────

  /** `_HEADING.match(line)`, stripped. */
  function HeadingOf(line: string): Option<string> {
    if StartsWith(line, "## ") then Some(Strip(line[3..])) else None
  }

  /** The first `c` of `s`, or its length. */
  function IndexOf(s: string, c: char): (i: nat)
    ensures i <= |s| && Lacks(s[..i], c) && (i < |s| ==> s[i] == c)
  {
    if s == "" || s[0] == c then 0
    else
      var i := IndexOf(s[1..], c) + 1;
      assert s[..i] == [s[0]] + s[1..][..i - 1];
      i
  }

  /** The length of the leading run of non-space characters. */
  function WordLength(s: string): (n: nat)
    ensures n <= |s| && NoSpace(s[..n]) && (n < |s| ==> IsSpace(s[n]))
  {
    if s == "" || IsSpace(s[0]) then 0
    else
      var n := WordLength(s[1..]) + 1;
      assert s[..n] == [s[0]] + s[1..][..n - 1];
      n
  }

  function Indent(line: string): nat {
    if StartsWith(line, "   ") then 3 else if StartsWith(line, "  ") then 2 else if StartsWith(line, " ") then 1 else 0
  }

  /** `_LINK_DEF.match(line)`: the label and the URL. */
  function LinkOf(line: string): Option<(string, string)> {
    var s := line[Indent(line)..];
    if s == "" || s[0] != '[' then None
    else
      var i := IndexOf(s[1..], ']');
      var name, rest := s[1..1 + i], s[1 + i..];
      if name == "" || !StartsWith(rest, "]:") then None
      else
        var target := LStrip(rest[2..]);
        var n := WordLength(target);
        if n == 0 then None else Some((name, target[..n]))
  }

  /** `_BRACKETED.fullmatch(heading)`: the label and what follows it. */
  function Bracketed(heading: string): Option<(string, string)> {
    if heading == "" || heading[0] != '[' then None
    else
      var i := IndexOf(heading[1..], ']');
      if i == 0 || 1 + i >= |heading| then None else Some((heading[1..1 + i], heading[2 + i..]))
  }

  // ── dates ─────────────────────────────────────────────────────────────

  datatype Date = Date(year: nat, month: nat, day: nat)

  predicate Leap(year: nat) {
    year % 4 == 0 && (year % 100 != 0 || year % 400 == 0)
  }

  function DaysIn(year: nat, month: nat): nat {
    if month == 2 then (if Leap(year) then 29 else 28)
    else if month in {4, 6, 9, 11} then 30 else 31
  }

  predicate ValidDate(d: Date) {
    1 <= d.year && 1 <= d.month <= 12 && 1 <= d.day <= DaysIn(d.year, d.month)
  }

  predicate Earlier(a: Date, b: Date) {
    a.year < b.year || (a.year == b.year && (a.month < b.month || (a.month == b.month && a.day < b.day)))
  }

  predicate IsoShaped(s: string) {
    |s| == 10 && AllDigits(s[..4]) && s[4] == '-' && AllDigits(s[5..7]) && s[7] == '-' && AllDigits(s[8..])
  }

  function IsoDate(s: string): Date
    requires IsoShaped(s)
  {
    Date(NumberOf(s[..4]), NumberOf(s[5..7]), NumberOf(s[8..]))
  }

  /** `_DATED.fullmatch(rest)`: the date as written. */
  function Dated(rest: string): Option<string> {
    if |rest| == 13 && rest[..3] == [' ', EM_DASH, ' '] && IsoShaped(rest[3..]) then Some(rest[3..]) else None
  }

  // ── versions ──────────────────────────────────────────────────────────

  datatype Key = Key(major: nat, minor: nat, patch: nat, final: nat, rc: nat)

  predicate KeyLess(a: Key, b: Key) {
    a.major < b.major
    || (a.major == b.major
        && (a.minor < b.minor
            || (a.minor == b.minor
                && (a.patch < b.patch
                    || (a.patch == b.patch && (a.final < b.final || (a.final == b.final && a.rc < b.rc)))))))
  }

  function DigitRun(s: string): (n: nat)
    ensures n <= |s| && AllDigits(s[..n]) && (n < |s| ==> !IsDigit(s[n]))
  {
    if s == "" || !IsDigit(s[0]) then 0
    else
      var n := DigitRun(s[1..]) + 1;
      assert s[..n] == [s[0]] + s[1..][..n - 1];
      n
  }

  /** One `(\d+)` and what follows it. */
  function Number(s: string): Option<(nat, string)> {
    var n := DigitRun(s);
    if n == 0 then None else Some((NumberOf(s[..n]), s[n..]))
  }

  /** One `(\d+)\.` and what follows it. */
  function NumberDot(s: string): Option<(nat, string)> {
    var n := Number(s);
    if n.None? || n.value.1 == "" || n.value.1[0] != '.' then None else Some((n.value.0, n.value.1[1..]))
  }

  /** `_version_key` */
  function VersionKey(name: string): Option<Key> {
    var major := NumberDot(name);
    if major.None? then None
    else
      var minor := NumberDot(major.value.1);
      if minor.None? then None
      else
        var patch := Number(minor.value.1);
        if patch.None? then None
        else
          var rest := patch.value.1;
          if rest == "" then Some(Key(major.value.0, minor.value.0, patch.value.0, 1, 0))
          else if !StartsWith(rest, "rc") then None
          else
            var rc := Number(rest[2..]);
            if rc.None? || rc.value.1 != "" then None
            else Some(Key(major.value.0, minor.value.0, patch.value.0, 0, rc.value.0))
  }

  // ── compare links ─────────────────────────────────────────────────────

  /** What follows the last `/`, where `/compare/` stands before it. */
  function CompareTail(url: string): Option<string> {
    if StartsWith(url, "/compare/") && Lacks(url[9..], '/') then Some(url[9..])
    else if url == "" then None
    else CompareTail(url[1..])
  }

  /** The first `...` with something on either side, at `i` or after. */
  function Split(tail: string, i: nat): Option<(string, string)>
    decreases |tail| - i
  {
    if |tail| <= i + 3 then None
    else if i > 0 && tail[i..i + 3] == "..." then Some((tail[..i], tail[i + 3..]))
    else Split(tail, i + 1)
  }

  /** `_COMPARED.search(url)`: what is compared with what. */
  function Compared(url: string): Option<(string, string)> {
    var tail := CompareTail(url);
    if tail.None? then None else Split(tail.value, 0)
  }
}
