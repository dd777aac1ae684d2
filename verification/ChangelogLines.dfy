/**
 What the regular expressions of `scripts/check_changelog.py` take out of a
 line, said of the text the line is made of.
 */
module ChangelogLines {
  import opened Wrappers
  import opened AsciiText
  import opened ChangelogText

  /** `## ` and a title, which is stripped. */
  lemma HeadingIff(line: string, title: string)
    ensures HeadingOf(line) == Some(title) <==> exists text :: line == "## " + text && title == Strip(text)
  {
    hide Strip;
    if HeadingOf(line) == Some(title) {
      assert line == "## " + line[3..];
    }
    if text :| line == "## " + text && title == Strip(text) {
      assert line[..3] == "## " && line[3..] == text;
    }
  }

  /** The first bracket that closes is the one that counts. */
  lemma FirstClosing(name: string, rest: string)
    requires Lacks(name, ']')
    ensures IndexOf(name + ("]" + rest), ']') == |name|
  {
    var s := name + ("]" + rest);
    var i := IndexOf(s, ']');
    assert s[|name|] == ']';
    assert forall k | 0 <= k < |name| :: s[k] == name[k];
    assert forall k | 0 <= k < i :: s[..i][k] == s[k];
  }

  /** A label in brackets, with anything behind it. */
  lemma BracketedIff(heading: string, name: string, rest: string)
    ensures Bracketed(heading) == Some((name, rest)) <==> name != "" && Lacks(name, ']') && heading == "[" + (name + ("]" + rest))
  {
    if Bracketed(heading) == Some((name, rest)) {
      assert heading[1..][..|name|] == name;
      assert heading == "[" + (name + ("]" + rest));
    }
    if name != "" && Lacks(name, ']') && heading == "[" + (name + ("]" + rest)) {
      hide Lacks;
      assert heading[1..] == name + ("]" + rest);
      FirstClosing(name, rest);
      assert heading[1..1 + |name|] == name && heading[2 + |name|..] == rest;
    }
  }

  // ── link definitions ──────────────────────────────────────────────────

  predicate Blank(s: string) {
    forall i | 0 <= i < |s| :: IsSpace(s[i])
  }

  lemma {:induction false} LStripOf(blank: string, text: string)
    requires Blank(blank) && (text != "" ==> !IsSpace(text[0]))
    ensures LStrip(blank + text) == text
  {
    if blank == "" {
      assert blank + text == text;
    } else {
      assert (blank + text)[1..] == blank[1..] + text;
      LStripOf(blank[1..], text);
    }
  }

  lemma {:induction false} LStripIs(s: string) returns (blank: string)
    ensures Blank(blank) && s == blank + LStrip(s) && (LStrip(s) != "" ==> !IsSpace(LStrip(s)[0]))
  {
    if s != "" && IsSpace(s[0]) {
      var more := LStripIs(s[1..]);
      blank := [s[0]] + more;
    } else {
      blank := "";
    }
  }

  lemma WordOf(word: string, more: string)
    requires NoSpace(word) && (more != "" ==> IsSpace(more[0]))
    ensures WordLength(word + more) == |word|
  {
    var s := word + more;
    var n := WordLength(s);
    assert forall k | 0 <= k < |word| :: s[k] == word[k];
    assert forall k | 0 <= k < n :: s[..n][k] == s[k];
    if more != "" { assert s[|word|] == more[0]; }
  }

  predicate IsLink(body: string, name: string, blank: string, url: string, more: string) {
    && body == "[" + (name + ("]" + (":" + (blank + (url + more)))))
    && name != "" && Lacks(name, ']') && Blank(blank)
    && url != "" && NoSpace(url) && (more != "" ==> IsSpace(more[0]))
  }

  lemma NotBlank(url: string, more: string)
    requires url != "" && NoSpace(url)
    ensures !IsSpace((url + more)[0])
  {
  }

  lemma LinkRead(body: string, name: string, blank: string, url: string, more: string)
    requires IsLink(body, name, blank, url, more)
    ensures LinkOf(body) == Some((name, url))
  {
    hide Lacks, NoSpace, Blank, LStrip, WordLength, IndexOf;
    var text := url + more;
    assert body[0] == '[' && Indent(body) == 0 && body[0..] == body;
    assert body[1..] == name + ("]" + (":" + (blank + text)));
    FirstClosing(name, ":" + (blank + text));
    assert body[1..1 + |name|] == name;
    var rest := body[1 + |name|..];
    assert rest == "]" + (":" + (blank + text)) && rest[..2] == "]:" && rest[2..] == blank + text;
    NotBlank(url, more);
    LStripOf(blank, text);
    WordOf(url, more);
    assert text[..|url|] == url;
  }

  lemma LinkIs(body: string, name: string, url: string)
    requires LinkOf(body) == Some((name, url)) && Indent(body) == 0
    ensures exists blank, more :: IsLink(body, name, blank, url, more)
  {
    hide IndexOf, LStrip, WordLength, Lacks, NoSpace, Blank;
    assert body[0..] == body;
    var i := IndexOf(body[1..], ']');
    var rest := body[1 + i..];
    assert rest[..2] == "]:" && body[1..][..i] == name;
    var blank := LStripIs(rest[2..]);
    var text := LStrip(rest[2..]);
    var more := text[|url|..];
    assert rest[2..] == blank + text && rest == "]" + (":" + rest[2..]) && text == url + more;
    assert body == "[" + (name + rest);
    assert IsLink(body, name, blank, url, more);
  }

  /** Up to three spaces; a fourth makes it code. */
  function Spaces(n: nat): string
    requires n <= 3
  {
    if n == 0 then "" else if n == 1 then " " else if n == 2 then "  " else "   "
  }

  lemma IndentOf(n: nat, body: string)
    requires n <= 3 && body != "" && body[0] != ' '
    ensures Indent(Spaces(n) + body) == n && (Spaces(n) + body)[n..] == body
  {
    var line := Spaces(n) + body;
    assert line[n] == body[0];
    assert line[..n] == Spaces(n);
    if n < 3 && |line| >= 3 { assert line[..3][n] == body[0]; }
    if n < 2 && |line| >= 2 { assert line[..2][n] == body[0]; }
  }

  lemma Opens(body: string, name: string, blank: string, url: string, more: string)
    requires IsLink(body, name, blank, url, more)
    ensures body != "" && body[0] == '['
  {
  }

  /** A line that opens a bracket behind its indent says what it says without it. */
  lemma BodyAlone(line: string)
    requires line[Indent(line)..] != "" && line[Indent(line)] == '['
    ensures Indent(line[Indent(line)..]) == 0 && LinkOf(line) == LinkOf(line[Indent(line)..])
  {
    var body := line[Indent(line)..];
    assert body[0] == '[' && body[0..] == body;
  }

  predicate LinkAt(line: string, name: string, url: string, n: nat, blank: string, more: string) {
    n <= 3 && n <= |line| && line[..n] == Spaces(n) && IsLink(line[n..], name, blank, url, more)
  }

  lemma LinkFound(line: string, name: string, url: string)
    requires LinkOf(line) == Some((name, url))
    ensures exists n, blank, more :: LinkAt(line, name, url, n, blank, more)
  {
    hide IsLink;
    var n := Indent(line);
    BodyAlone(line);
    LinkIs(line[n..], name, url);
    var blank, more :| IsLink(line[n..], name, blank, url, more);
    assert LinkAt(line, name, url, n, blank, more);
  }

  lemma LinkThere(line: string, name: string, url: string, n: nat, blank: string, more: string)
    requires LinkAt(line, name, url, n, blank, more)
    ensures LinkOf(line) == Some((name, url))
  {
    hide IsLink, LinkOf;
    var body := line[n..];
    LinkRead(body, name, blank, url, more);
    Opens(body, name, blank, url, more);
    assert line == Spaces(n) + body;
    IndentOf(n, body);
    BodyAlone(line);
  }

  /** A link definition: indented by less than code is, the label in brackets, a colon, and the first word behind it. */
  lemma LinkIff(line: string, name: string, url: string)
    ensures LinkOf(line) == Some((name, url)) <==> exists n, blank, more :: LinkAt(line, name, url, n, blank, more)
  {
    hide LinkAt, LinkOf;
    if LinkOf(line) == Some((name, url)) { LinkFound(line, name, url); }
    if n, blank, more :| LinkAt(line, name, url, n, blank, more) { LinkThere(line, name, url, n, blank, more); }
  }

  // ── dates and compare links ───────────────────────────────────────────

  predicate IsDate(date: string, year: string, month: string, day: string) {
    && |year| == 4 && |month| == 2 && |day| == 2 && AllDigits(year) && AllDigits(month) && AllDigits(day)
    && date == year + ("-" + (month + ("-" + day)))
  }

  /** A date behind an em dash, and nothing else. */
  lemma DatedIff(rest: string, date: string)
    ensures Dated(rest) == Some(date) <==>
      rest == " \U{2014} " + date && exists year, month, day :: IsDate(date, year, month, day)
  {
    hide AllDigits;
    if Dated(rest) == Some(date) {
      assert rest == rest[..3] + date;
      assert IsDate(date, date[..4], date[5..7], date[8..]);
    }
    if rest == " \U{2014} " + date {
      if year, month, day :| IsDate(date, year, month, day) {
        assert date[..4] == year && date[5..7] == month && date[8..] == day;
        assert rest[..3] == [' ', EM_DASH, ' '] && rest[3..] == date;
      }
    }
  }

  /** The links are those of this repository. */
  lemma CompareIs()
    ensures COMPARE == "https://github.com/CodefyUI/CodefyUI/compare/"
  {
  }
}
