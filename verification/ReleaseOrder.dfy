/**
 Which labels `scripts/check_changelog.py` takes for versions, and the order
 of versions and of dates, said of the numbers they are written with.
 */
module ReleaseOrder {
  import opened Wrappers
  import opened AsciiText
  import opened ChangelogText
  import opened Changelog

  /** A version as it is written: leading zeros are allowed. */
  datatype Version = Version(major: string, minor: string, patch: string, candidate: Option<string>)

  predicate IsNumber(s: string) {
    s != "" && AllDigits(s)
  }

  predicate Formed(v: Version) {
    IsNumber(v.major) && IsNumber(v.minor) && IsNumber(v.patch) && (v.candidate.Some? ==> IsNumber(v.candidate.value))
  }

  function Suffix(v: Version): string {
    if v.candidate.None? then "" else "rc" + v.candidate.value
  }

  function Written(v: Version): string {
    v.major + ("." + (v.minor + ("." + (v.patch + Suffix(v)))))
  }

  /** `v` came before `w`: by the numbers, and the candidates of a version, in order, before the version. */
  predicate Older(v: Version, w: Version)
    requires Formed(v) && Formed(w)
  {
    if NumberOf(v.major) != NumberOf(w.major) then NumberOf(v.major) < NumberOf(w.major)
    else if NumberOf(v.minor) != NumberOf(w.minor) then NumberOf(v.minor) < NumberOf(w.minor)
    else if NumberOf(v.patch) != NumberOf(w.patch) then NumberOf(v.patch) < NumberOf(w.patch)
    else v.candidate.Some? && (w.candidate.Some? ==> NumberOf(v.candidate.value) < NumberOf(w.candidate.value))
  }

  lemma {:induction false} DigitRunOf(digits: string, rest: string)
    requires AllDigits(digits) && (rest != "" ==> !IsDigit(rest[0]))
    ensures DigitRun(digits + rest) == |digits|
  {
    if digits == "" {
      assert digits + rest == rest;
    } else {
      assert (digits + rest)[1..] == digits[1..] + rest;
      DigitRunOf(digits[1..], rest);
    }
  }

  lemma NumberRead(digits: string, rest: string)
    requires IsNumber(digits) && (rest != "" ==> !IsDigit(rest[0]))
    ensures Number(digits + rest) == Some((NumberOf(digits), rest))
  {
    DigitRunOf(digits, rest);
    assert (digits + rest)[..|digits|] == digits && (digits + rest)[|digits|..] == rest;
  }

  lemma NumberDotRead(digits: string, rest: string)
    requires IsNumber(digits)
    ensures NumberDot(digits + ("." + rest)) == Some((NumberOf(digits), rest))
  {
    NumberRead(digits, "." + rest);
    assert ("." + rest)[1..] == rest;
  }

  lemma NumberIs(s: string)
    requires Number(s).Some?
    ensures exists digits :: IsNumber(digits) && s == digits + Number(s).value.1
  {
    var n := DigitRun(s);
    assert IsNumber(s[..n]) && s == s[..n] + s[n..];
  }

  lemma NumberDotIs(s: string)
    requires NumberDot(s).Some?
    ensures exists digits :: IsNumber(digits) && s == digits + ("." + NumberDot(s).value.1)
  {
    NumberIs(s);
    var digits :| IsNumber(digits) && s == digits + Number(s).value.1;
    var rest := Number(s).value.1;
    assert rest == "." + rest[1..];
  }

  /** The key of a version that is written so. */
  function KeyOf(v: Version): Key
    requires Formed(v)
  {
    Key(NumberOf(v.major), NumberOf(v.minor), NumberOf(v.patch), if v.candidate.Some? then 0 else 1,
        if v.candidate.Some? then NumberOf(v.candidate.value) else 0)
  }

  lemma KeyRead(v: Version)
    requires Formed(v)
    ensures VersionKey(Written(v)) == Some(KeyOf(v))
  {
    hide NumberOf, DigitRun, Number, NumberDot;
    NumberDotRead(v.major, v.minor + ("." + (v.patch + Suffix(v))));
    NumberDotRead(v.minor, v.patch + Suffix(v));
    NumberRead(v.patch, Suffix(v));
    if v.candidate.Some? {
      assert Suffix(v)[..2] == "rc" && Suffix(v)[2..] == v.candidate.value;
      assert v.candidate.value + "" == v.candidate.value;
      NumberRead(v.candidate.value, "");
    }
  }

  /** A label is a version exactly when it is written as X.Y.Z or X.Y.ZrcN. */
  lemma VersionIff(name: string)
    ensures VersionKey(name).Some? <==> exists v :: Formed(v) && Written(v) == name
  {
    hide NumberOf, DigitRun, Number, NumberDot, Written, Formed;
    if v :| Formed(v) && Written(v) == name { KeyRead(v); }
    if VersionKey(name).Some? { WrittenSo(name); }
  }

  lemma WrittenSo(name: string)
    requires VersionKey(name).Some?
    ensures exists v :: Formed(v) && Written(v) == name
  {
    hide NumberOf, DigitRun, Number, NumberDot;
    NumberDotIs(name);
    var after := NumberDot(name).value.1;
    NumberDotIs(after);
    var last := NumberDot(after).value.1;
    NumberIs(last);
    var major :| IsNumber(major) && name == major + ("." + after);
    var minor :| IsNumber(minor) && after == minor + ("." + last);
    var rest := Number(last).value.1;
    var patch :| IsNumber(patch) && last == patch + rest;
    if rest == "" {
      assert Written(Version(major, minor, patch, None)) == name;
    } else {
      NumberIs(rest[2..]);
      var candidate :| IsNumber(candidate) && rest[2..] == candidate + "";
      assert rest == "rc" + candidate;
      assert Written(Version(major, minor, patch, Some(candidate))) == name;
    }
  }

  /** One version stands below another in the file's order exactly when it is older. */
  lemma BelowIff(v: Version, w: Version)
    requires Formed(v) && Formed(w)
    ensures Below(Written(v), Written(w)) <==> Older(v, w)
  {
    hide Written, NumberOf, VersionKey;
    KeyRead(v);
    KeyRead(w);
  }

  // ── dates ─────────────────────────────────────────────────────────────

  lemma TwoDigits(s: string)
    requires |s| == 2 && AllDigits(s)
    ensures NumberOf(s) < 100
  {
    assert NumberOf(s[..1]) < 10 by { assert s[..1][..0] == "" && NumberOf("") == 0; }
  }

  /** A date is earlier than another exactly when its digits, read as one number, are fewer. */
  lemma EarlierIff(a: string, b: string)
    requires IsoShaped(a) && IsoShaped(b)
    ensures Earlier(IsoDate(a), IsoDate(b)) <==> Stamp(IsoDate(a)) < Stamp(IsoDate(b))
  {
    hide NumberOf;
    TwoDigits(a[5..7]);
    TwoDigits(a[8..]);
    TwoDigits(b[5..7]);
    TwoDigits(b[8..]);
  }

  /** YYYYMMDD */
  function Stamp(d: Date): nat {
    (d.year * 100 + d.month) * 100 + d.day
  }

  /** The leap years from 1 to `year`. */
  function LeapYears(year: nat): nat {
    if year == 0 then 0 else LeapYears(year - 1) + if Leap(year) then 1 else 0
  }

  /** The Gregorian count: every fourth year, not every hundredth, but every four hundredth. */
  function Gregorian(year: nat): int {
    year / 4 - year / 100 + year / 400
  }

  lemma Fourth(year: nat)
    requires year > 0
    ensures year / 4 == (year - 1) / 4 + if year % 4 == 0 then 1 else 0
  {
  }

  lemma Hundredth(year: nat)
    requires year > 0
    ensures year / 100 == (year - 1) / 100 + if year % 100 == 0 then 1 else 0
  {
  }

  lemma FourHundredth(year: nat)
    requires year > 0
    ensures year / 400 == (year - 1) / 400 + if year % 400 == 0 then 1 else 0
  {
  }

  lemma NoRest(n: nat, r: nat, times: int)
    requires r < n && r == n * times && (n == 4 || n == 100)
    ensures r == 0
  {
    if n == 4 { assert times == 0; } else { assert times == 0; }
  }

  lemma Centuries(year: nat, q: nat)
    requires year == 100 * q
    ensures year % 4 == 0
  {
    NoRest(4, year % 4, 25 * q - year / 4);
  }

  lemma FourCenturies(year: nat, q: nat)
    requires year == 400 * q
    ensures year % 100 == 0
  {
    NoRest(100, year % 100, 4 * q - year / 100);
  }

  lemma OneMore(year: nat)
    requires year > 0
    ensures Gregorian(year) == Gregorian(year - 1) + if Leap(year) then 1 else 0
  {
    Fourth(year);
    Hundredth(year);
    FourHundredth(year);
    if year % 100 == 0 { Centuries(year, year / 100); }
    if year % 400 == 0 { FourCenturies(year, year / 400); }
  }

  lemma {:induction false} LeapYearsCounted(year: nat)
    ensures LeapYears(year) == Gregorian(year)
  {
    hide Gregorian, Leap;
    if year > 0 { OneMore(year); LeapYearsCounted(year - 1); } else { NoYear(); }
  }

  lemma NoYear()
    ensures Gregorian(0) == 0
  {
  }

  /** Months alternate between 31 and 30 days, August starting over, and February makes up the year. */
  lemma MonthLengths(year: nat, month: nat)
    requires year > 0 && 1 <= month <= 12
    ensures month != 2 ==> DaysIn(year, month) == 30 + (month + month / 8) % 2
    ensures DaysIn(year, 2) == 28 + LeapYears(year) - LeapYears(year - 1)
  {
  }
}
