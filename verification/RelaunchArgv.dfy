/**
 How `cdui start` is started again after a restart-mode install:
 `_split_forwarded_args`, `_parse_host_port`, `_parse_project`,
 `_restart_relaunch_argv` and `_absolutise_project` of `scripts/dev.py`.
 `int()` is a parameter: whatever it accepts, it accepts both times.
 */
module RelaunchArgv {
  import opened Wrappers
  import opened AsciiText

  const FOREGROUND: set<string> := {"-f", "--foreground"}

  // ── the scanners ──────────────────────────────────────────────────────

  datatype Address = Address(host: string, port: int)

  const DEFAULT := Address("127.0.0.1", 8000)

  function PortOr(text: string, parse: string -> Option<int>, was: int): int {
    if parse(text).Some? then parse(text).value else was
  }

  /** One turn of the loop: argument `a`, with `rest` behind it. */
  function Scan(a: string, rest: seq<string>, parse: string -> Option<int>, at: Address): Address {
    if a == "--host" && rest != [] then at.(host := rest[0])
    else if StartsWith(a, "--host=") then at.(host := a[7..])
    else if a == "--port" && rest != [] then at.(port := PortOr(rest[0], parse, at.port))
    else if StartsWith(a, "--port=") then at.(port := PortOr(a[7..], parse, at.port))
    else at
  }

  function AddressFrom(argv: seq<string>, parse: string -> Option<int>, at: Address): Address {
    if argv == [] then at else AddressFrom(argv[1..], parse, Scan(argv[0], argv[1..], parse, at))
  }

  /** `_parse_host_port`: the last mention wins. */
  method ParseHostPort(argv: seq<string>, parse: string -> Option<int>) returns (host: string, port: int)
    ensures Address(host, port) == AddressFrom(argv, parse, DEFAULT)
  {
    host, port := DEFAULT.host, DEFAULT.port;
    for i := 0 to |argv|
      invariant AddressFrom(argv[i..], parse, Address(host, port)) == AddressFrom(argv, parse, DEFAULT)
    {
      var a := argv[i];
      assert argv[i..][0] == a && argv[i..][1..] == argv[i + 1..];
      if a == "--host" && i + 1 < |argv| {
        host := argv[i + 1];
      } else if StartsWith(a, "--host=") {
        host := a[7..];
      } else if a == "--port" && i + 1 < |argv| {
        port := PortOr(argv[i + 1], parse, port);
      } else if StartsWith(a, "--port=") {
        port := PortOr(a[7..], parse, port);
      }
    }
  }

  /** `_parse_project`: the first mention wins. */
  function ProjectOf(argv: seq<string>): Option<string> {
    if argv == [] then None
    else if argv[0] == "--project" && |argv| > 1 then Some(argv[1])
    else if StartsWith(argv[0], "--project=") then Some(argv[0][10..])
    else ProjectOf(argv[1..])
  }

  method ParseProject(argv: seq<string>) returns (project: Option<string>)
    ensures project == ProjectOf(argv)
  {
    for i := 0 to |argv|
      invariant ProjectOf(argv[i..]) == ProjectOf(argv)
    {
      assert argv[i..][0] == argv[i] && argv[i..][1..] == argv[i + 1..];
      if argv[i] == "--project" && i + 1 < |argv| { return Some(argv[i + 1]); }
      if StartsWith(argv[i], "--project=") { return Some(argv[i][10..]); }
    }
    project := None;
  }

  // ── split and relaunch ────────────────────────────────────────────────

  /** `argv.index("--")`, or the length. */
  function Separator(argv: seq<string>): (i: nat)
    ensures i <= |argv| && "--" !in argv[..i] && (i < |argv| ==> argv[i] == "--")
  {
    if argv == [] || argv[0] == "--" then 0
    else
      var i := 1 + Separator(argv[1..]);
      assert argv[..i] == [argv[0]] + argv[1..][..i - 1];
      i
  }

  /** `_split_forwarded_args` */
  function Split(argv: seq<string>): (seq<string>, seq<string>) {
    var cut := Separator(argv);
    if cut == |argv| then (argv, []) else (argv[..cut], argv[cut + 1..])
  }

  /** `[a for a in own_argv if a not in ("-f", "--foreground")]` */
  function Background(argv: seq<string>): seq<string> {
    if argv == [] then []
    else (if argv[0] in FOREGROUND then [] else [argv[0]]) + Background(argv[1..])
  }

  /** `_absolutise_project`, with what `CODEFYUI_PROJECT_DIR` says. */
  function Absolutised(argv: seq<string>, resolved: Option<string>): seq<string> {
    if resolved.None? || argv == [] then argv
    else if argv[0] == "--project" && |argv| > 1 then [argv[0], resolved.value] + argv[2..]
    else if StartsWith(argv[0], "--project=") then ["--project=" + resolved.value] + argv[1..]
    else [argv[0]] + Absolutised(argv[1..], resolved)
  }

  /** Where the scan is after `i` arguments that were not the project. */
  lemma AbsoluteAt(argv: seq<string>, resolved: Option<string>, i: nat)
    requires i < |argv| && resolved.Some?
    ensures Absolutised(argv[i..], resolved) ==
      if argv[i] == "--project" && i + 1 < |argv| then [argv[i], resolved.value] + argv[i + 2..]
      else if StartsWith(argv[i], "--project=") then ["--project=" + resolved.value] + argv[i + 1..]
      else [argv[i]] + Absolutised(argv[i + 1..], resolved)
  {
    var rest := argv[i..];
    assert rest[0] == argv[i] && rest[1..] == argv[i + 1..];
    if |rest| > 1 { assert rest[2..] == argv[i + 2..]; }
  }

  /** What one turn of the loop makes of the list. */
  lemma AbsoluteStep(argv: seq<string>, resolved: Option<string>, i: nat)
    requires i < |argv| && resolved.Some?
    requires argv[..i] + Absolutised(argv[i..], resolved) == Absolutised(argv, resolved)
    ensures argv[i] == "--project" && i + 1 < |argv| ==> argv[i + 1 := resolved.value] == Absolutised(argv, resolved)
    ensures !(argv[i] == "--project" && i + 1 < |argv|) && StartsWith(argv[i], "--project=") ==>
      argv[i := "--project=" + resolved.value] == Absolutised(argv, resolved)
    ensures !(argv[i] == "--project" && i + 1 < |argv|) && !StartsWith(argv[i], "--project=") ==>
      argv[..i + 1] + Absolutised(argv[i + 1..], resolved) == Absolutised(argv, resolved)
  {
    hide Absolutised, StartsWith;
    AbsoluteAt(argv, resolved, i);
    if argv[i] == "--project" && i + 1 < |argv| {
      SetNext(argv, i, resolved.value);
    } else if StartsWith(argv[i], "--project=") {
      SetHere(argv, i, "--project=" + resolved.value);
    } else {
      Shift(argv, i, Absolutised(argv[i + 1..], resolved));
    }
  }

  lemma SetNext(argv: seq<string>, i: nat, value: string)
    requires i + 1 < |argv|
    ensures argv[i + 1 := value] == argv[..i] + ([argv[i], value] + argv[i + 2..])
  {
  }

  lemma SetHere(argv: seq<string>, i: nat, value: string)
    requires i < |argv|
    ensures argv[i := value] == argv[..i] + ([value] + argv[i + 1..])
  {
  }

  lemma Shift(argv: seq<string>, i: nat, tail: seq<string>)
    requires i < |argv|
    ensures argv[..i] + ([argv[i]] + tail) == argv[..i + 1] + tail
  {
  }

  method AbsolutiseProject(argv: seq<string>, resolved: Option<string>) returns (out: seq<string>)
    ensures out == Absolutised(argv, resolved)
  {
    hide Absolutised, StartsWith;
    out := argv;
    if resolved.None? {
      NoDirectory(argv);
      return;
    }
    assert argv[..0] + argv[0..] == argv && argv[0..] == argv;
    for i := 0 to |out|
      invariant out == argv
      invariant argv[..i] + Absolutised(argv[i..], resolved) == Absolutised(argv, resolved)
    {
      AbsoluteStep(argv, resolved, i);
      if out[i] == "--project" && i + 1 < |out| {
        out := out[i + 1 := resolved.value];
        return;
      }
      if StartsWith(out[i], "--project=") {
        out := out[i := "--project=" + resolved.value];
        return;
      }
    }
    NothingToResolve(argv[|argv|..], resolved);
    assert argv[..|argv|] == argv;
  }

  lemma NoDirectory(argv: seq<string>)
    ensures Absolutised(argv, None) == argv
  {
  }

  lemma NothingToResolve(argv: seq<string>, resolved: Option<string>)
    requires argv == []
    ensures Absolutised(argv, resolved) == []
  {
  }

  /** `_restart_relaunch_argv` */
  function Relaunch(own: seq<string>, extra: seq<string>, resolved: Option<string>): seq<string> {
    Absolutised(Background(own), resolved) + if extra == [] then [] else ["--"] + extra
  }

  // ── what the scanners see ─────────────────────────────────────────────

  /** Flags of `cdui start` that take their value from the next argument. */
  predicate TakesValue(a: string) {
    a == "--host" || a == "--port" || a == "--project"
  }

  /** Flags that carry their value. */
  predicate Joins(a: string) {
    StartsWith(a, "--host=") || StartsWith(a, "--port=") || StartsWith(a, "--project=")
  }

  /** One flag with its value, as a scanner meets them. */
  datatype Mention = Spaced(flag: string, value: string) | Joined(arg: string)

  function MentionAt(a: string, rest: seq<string>): seq<Mention> {
    if TakesValue(a) && rest != [] then [Spaced(a, rest[0])] else if Joins(a) then [Joined(a)] else []
  }

  function Mentions(argv: seq<string>): seq<Mention> {
    if argv == [] then [] else MentionAt(argv[0], argv[1..]) + Mentions(argv[1..])
  }

  function AddressOf(ms: seq<Mention>, parse: string -> Option<int>, at: Address): Address {
    if ms == [] then at else AddressOf(ms[1..], parse, ScanMention(ms[0], parse, at))
  }

  function ScanMention(m: Mention, parse: string -> Option<int>, at: Address): Address {
    match m case Spaced(f, v) => Scan(f, [v], parse, at) case Joined(a) => Scan(a, [], parse, at)
  }

  predicate OfProject(m: Mention) {
    match m case Spaced(f, _) => f == "--project" case Joined(a) => StartsWith(a, "--project=")
  }

  function ProjectIn(ms: seq<Mention>): Option<string> {
    if ms == [] then None
    else if !OfProject(ms[0]) then ProjectIn(ms[1..])
    else Some(match ms[0] case Spaced(_, v) => v case Joined(a) => a[10..])
  }

  /** The same mentions, the first project's value replaced. */
  function WithProject(ms: seq<Mention>, value: string): seq<Mention> {
    if ms == [] then []
    else if !OfProject(ms[0]) then [ms[0]] + WithProject(ms[1..], value)
    else [match ms[0] case Spaced(f, _) => Spaced(f, value) case Joined(_) => Joined("--project=" + value)] + ms[1..]
  }

  lemma JoinsApart(a: string)
    requires Joins(a)
    ensures !TakesValue(a) && a !in FOREGROUND && a != "--"
  {
    if StartsWith(a, "--project=") {
      assert a[..10][3] == a[3] && a[..10][9] == a[9] && a[..10][2] == a[2];
    } else {
      assert a[..7][2] == a[2] && a[..7][6] == a[6];
    }
  }

  lemma ScanIsMention(a: string, rest: seq<string>, parse: string -> Option<int>, at: Address)
    ensures Scan(a, rest, parse, at) == AddressOf(MentionAt(a, rest), parse, at)
  {
    if Joins(a) { JoinsApart(a); }
    var ms := MentionAt(a, rest);
    if ms != [] { assert ms[1..] == []; }
    if a == "--project" { ProjectSaysNoAddress(rest, parse, at); }
  }

  lemma ProjectSaysNoAddress(rest: seq<string>, parse: string -> Option<int>, at: Address)
    ensures Scan("--project", rest, parse, at) == at
  {
    assert "--project"[2] == 'p' && "--host="[2] == 'h' && "--port="[3] == 'o' && "--project"[3] == 'r';
    assert "--project"[..7][2] == 'p' && "--project"[..7][3] == 'r';
  }

  lemma {:induction false} AddressOfConcat(a: seq<Mention>, b: seq<Mention>, parse: string -> Option<int>, at: Address)
    ensures AddressOf(a + b, parse, at) == AddressOf(b, parse, AddressOf(a, parse, at))
  {
    hide ScanMention;
    if a == [] {
      assert a + b == b;
    } else {
      assert (a + b)[1..] == a[1..] + b;
      AddressOfConcat(a[1..], b, parse, ScanMention(a[0], parse, at));
    }
  }

  /** Host, port and project are read off the mentions, and off nothing else. */
  lemma {:induction false} ScannersReadMentions(argv: seq<string>, parse: string -> Option<int>, at: Address)
    ensures AddressFrom(argv, parse, at) == AddressOf(Mentions(argv), parse, at)
    ensures ProjectOf(argv) == ProjectIn(Mentions(argv))
    decreases |argv|
  {
    hide Scan;
    if argv != [] {
      var here, rest := MentionAt(argv[0], argv[1..]), Mentions(argv[1..]);
      ScanIsMention(argv[0], argv[1..], parse, at);
      ScannersReadMentions(argv[1..], parse, Scan(argv[0], argv[1..], parse, at));
      AddressOfConcat(here, rest, parse, at);
      ProjectHere(argv[0], argv[1..], rest);
    }
  }

  lemma ProjectHere(a: string, rest: seq<string>, ms: seq<Mention>)
    ensures ProjectIn(MentionAt(a, rest) + ms) ==
      if a == "--project" && rest != [] then Some(rest[0])
      else if StartsWith(a, "--project=") then Some(a[10..])
      else ProjectIn(ms)
  {
    var here := MentionAt(a, rest);
    if here == [] { assert here + ms == ms; } else { assert (here + ms)[1..] == ms; }
    if Joins(a) { JoinsApart(a); }
  }

  lemma {:induction false} WithProjectSays(ms: seq<Mention>, value: string, parse: string -> Option<int>, at: Address)
    ensures AddressOf(WithProject(ms, value), parse, at) == AddressOf(ms, parse, at)
    ensures ProjectIn(WithProject(ms, value)) == if ProjectIn(ms).Some? then Some(value) else None
  {
    hide ScanMention, StartsWith;
    if ms != [] {
      var out := WithProject(ms, value);
      if OfProject(ms[0]) {
        assert out[1..] == ms[1..];
        JoinedProject(value);
        ProjectMention(ms[0], parse, at);
        ProjectMention(out[0], parse, at);
      } else {
        assert out[1..] == WithProject(ms[1..], value);
        WithProjectSays(ms[1..], value, parse, ScanMention(ms[0], parse, at));
      }
    }
  }

  lemma JoinedProject(value: string)
    ensures StartsWith("--project=" + value, "--project=") && ("--project=" + value)[10..] == value
  {
    assert ("--project=" + value)[..10] == "--project=";
  }

  lemma ProjectMention(m: Mention, parse: string -> Option<int>, at: Address)
    requires OfProject(m)
    ensures ScanMention(m, parse, at) == at
  {
    match m
    case Spaced(_, v) => ProjectSaysNoAddress([v], parse, at);
    case Joined(a) =>
      assert a[2] == a[..10][2] && a[3] == a[..10][3] && a[9] == a[..10][9];
      assert a[..7][2] == a[2] && a[..7][3] == a[3];
  }

  // ── dropping the foreground flags ─────────────────────────────────────

  /** No foreground flag stands where another flag's value is taken from. */
  predicate Unbroken(argv: seq<string>) {
    argv != [] ==> (TakesValue(argv[0]) && |argv| > 1 ==> argv[1] !in FOREGROUND) && Unbroken(argv[1..])
  }

  lemma ForegroundSaysNothing(a: string, rest: seq<string>)
    requires a in FOREGROUND
    ensures MentionAt(a, rest) == []
  {
    if Joins(a) { JoinsApart(a); }
    assert a[1] == 'f' || a[2] == 'f';
  }

  lemma {:induction false} BackgroundKeeps(argv: seq<string>)
    requires Unbroken(argv)
    ensures Mentions(Background(argv)) == Mentions(argv)
    decreases |argv|
  {
    hide MentionAt, TakesValue;
    if argv != [] {
      var a, rest := argv[0], argv[1..];
      BackgroundKeeps(rest);
      if a in FOREGROUND {
        ForegroundSaysNothing(a, rest);
        assert Background(argv) == Background(rest);
      } else {
        assert Background(argv)[1..] == Background(rest);
        SameValue(a, rest);
      }
    }
  }

  lemma SameValue(a: string, rest: seq<string>)
    requires TakesValue(a) && rest != [] ==> rest[0] !in FOREGROUND
    ensures MentionAt(a, Background(rest)) == MentionAt(a, rest)
  {
  }

  ghost predicate TakesForeground(m: Mention) {
    m.Spaced? && m.value in FOREGROUND
  }

  lemma {:induction false} BrokenIsMentioned(argv: seq<string>)
    requires !Unbroken(argv)
    ensures exists m :: m in Mentions(argv) && TakesForeground(m)
  {
    if TakesValue(argv[0]) && |argv| > 1 && argv[1] in FOREGROUND {
      assert MentionAt(argv[0], argv[1..]) == [Spaced(argv[0], argv[1])];
      assert Mentions(argv)[0] == Spaced(argv[0], argv[1]);
      assert TakesForeground(Mentions(argv)[0]);
    } else {
      BrokenIsMentioned(argv[1..]);
      var m :| m in Mentions(argv[1..]) && TakesForeground(m);
      assert m in Mentions(argv);
    }
  }

  lemma {:induction false} MentionedValues(argv: seq<string>, m: Mention)
    requires m in Mentions(argv) && m.Spaced?
    ensures m.value in argv
  {
    if m in Mentions(argv[1..]) { MentionedValues(argv[1..], m); }
  }

  lemma {:induction false} BackgroundHasNone(argv: seq<string>)
    ensures forall a | a in Background(argv) :: a in argv && a !in FOREGROUND
  {
    if argv != [] {
      BackgroundHasNone(argv[1..]);
      forall a | a in Background(argv) ensures a in argv && a !in FOREGROUND {
        if a != argv[0] { assert a in Background(argv[1..]); }
      }
    }
  }

  /** Dropping `-f` and `--foreground` keeps every flag with its value exactly when none of them stood where a value was taken from. */
  lemma BackgroundKeepsIff(argv: seq<string>)
    ensures Mentions(Background(argv)) == Mentions(argv) <==> Unbroken(argv)
  {
    if Unbroken(argv) {
      BackgroundKeeps(argv);
    } else {
      BrokenIsMentioned(argv);
      var m :| m in Mentions(argv) && TakesForeground(m);
      BackgroundHasNone(argv);
      if m in Mentions(Background(argv)) { MentionedValues(Background(argv), m); }
    }
  }

  // ── making the project absolute ───────────────────────────────────────

  predicate Dashed(a: string) {
    a != "" && a[0] == '-'
  }

  /** What `_activate_project` exports is an absolute path. */
  predicate Resolved(resolved: Option<string>) {
    resolved.Some? ==> !Dashed(resolved.value)
  }

  lemma NoDashNoFlag(a: string)
    requires !Dashed(a)
    ensures a !in FOREGROUND && a != "--" && !TakesValue(a) && !Joins(a)
  {
    if a != "" {
      if |a| >= 7 { assert a[..7][0] == a[0]; }
      if |a| >= 10 { assert a[..10][0] == a[0]; }
    }
  }

  /**
   The argument that is replaced is read as nothing else: a separate value is
   no flag itself, and a joined one is not what another flag takes for its
   value, unless it is absolute already.
   */
  predicate Replaceable(argv: seq<string>, value: string) {
    argv != [] ==>
      if argv[0] == "--project" && |argv| > 1 then !Joins(argv[1]) && (TakesValue(argv[1]) ==> |argv| == 2)
      else if StartsWith(argv[0], "--project=") then true
      else
        && (TakesValue(argv[0]) && |argv| > 1 && StartsWith(argv[1], "--project=") ==> argv[1] == "--project=" + value)
        && Replaceable(argv[1..], value)
  }

  lemma {:induction false} AbsolutisedLength(argv: seq<string>, resolved: Option<string>)
    ensures |Absolutised(argv, resolved)| == |argv|
  {
    if resolved.Some? && argv != [] { AbsolutisedLength(argv[1..], resolved); }
  }

  /** Making the project absolute replaces its value and keeps every other flag with its own, exactly when the argument is replaceable. */
  lemma {:induction false} AbsolutisedKeepsIff(argv: seq<string>, value: string)
    requires !Dashed(value)
    ensures Mentions(Absolutised(argv, Some(value))) == WithProject(Mentions(argv), value) <==> Replaceable(argv, value)
    decreases |argv|
  {
    if argv != [] {
      if argv[0] == "--project" && |argv| > 1 {
        ReplaceNext(argv, value);
      } else if StartsWith(argv[0], "--project=") {
        ReplaceJoined(argv, value);
      } else {
        AbsolutisedKeepsIff(argv[1..], value);
        ReplaceLater(argv, value);
      }
    }
  }

  /** `--project DIR` */
  lemma ReplaceNext(argv: seq<string>, value: string)
    requires |argv| > 1 && argv[0] == "--project" && !Dashed(value)
    ensures Mentions(Absolutised(argv, Some(value))) == WithProject(Mentions(argv), value) <==> MentionAt(argv[1], argv[2..]) == []
  {
    NoDashNoFlag(value);
    hide Joins;
    var tail := argv[2..];
    var out := ["--project", value] + tail;
    assert out[1..] == [value] + tail && out[1..][1..] == tail && argv[1..][1..] == tail;
    var was := MentionAt(argv[1], tail) + Mentions(tail);
    assert Mentions(argv) == [Spaced("--project", argv[1])] + was;
    assert WithProject(Mentions(argv), value) == [Spaced("--project", value)] + was;
    assert Mentions(out[1..]) == Mentions(tail);
    assert Mentions(out) == [Spaced("--project", value)] + Mentions(tail);
    assert |Mentions(tail)| == |was| <==> MentionAt(argv[1], tail) == [];
  }

  /** `--project=DIR` */
  lemma ReplaceJoined(argv: seq<string>, value: string)
    requires argv != [] && StartsWith(argv[0], "--project=")
    ensures Mentions(Absolutised(argv, Some(value))) == WithProject(Mentions(argv), value)
  {
    JoinedProject(value);
    JoinsApart(argv[0]);
    JoinsApart("--project=" + value);
    var out := ["--project=" + value] + argv[1..];
    assert out[1..] == argv[1..];
    assert Mentions(out) == [Joined("--project=" + value)] + Mentions(argv[1..]);
    assert Mentions(argv) == [Joined(argv[0])] + Mentions(argv[1..]);
  }

  /** Any other argument, in front of the rest. */
  lemma ReplaceLater(argv: seq<string>, value: string)
    requires argv != [] && !(argv[0] == "--project" && |argv| > 1) && !StartsWith(argv[0], "--project=")
    ensures Mentions(Absolutised(argv, Some(value))) == WithProject(Mentions(argv), value) <==>
      && (TakesValue(argv[0]) && |argv| > 1 && StartsWith(argv[1], "--project=") ==> argv[1] == "--project=" + value)
      && Mentions(Absolutised(argv[1..], Some(value))) == WithProject(Mentions(argv[1..]), value)
  {
    var a, rest := argv[0], argv[1..];
    var after := Absolutised(rest, Some(value));
    AbsolutisedLength(rest, Some(value));
    assert Absolutised(argv, Some(value)) == [a] + after && ([a] + after)[1..] == after;
    MentionOther(a, rest, value);
    hide MentionAt, Absolutised, TakesValue, Joins, StartsWith;
    WithProjectLater(MentionAt(a, rest), Mentions(rest), value);
    SameHeads(MentionAt(a, after), Mentions(after), MentionAt(a, rest), WithProject(Mentions(rest), value));
  }

  /** An argument that says nothing of the project is mentioned alike, unless its value is a joined project that changes. */
  lemma MentionOther(a: string, rest: seq<string>, value: string)
    requires !(a == "--project" && rest != []) && !StartsWith(a, "--project=")
    ensures var here, there := MentionAt(a, rest), MentionAt(a, Absolutised(rest, Some(value)));
      && |here| == |there| <= 1
      && (forall m | m in here :: !OfProject(m))
      && (here == there <==>
            (TakesValue(a) && rest != [] && StartsWith(rest[0], "--project=") ==> rest[0] == "--project=" + value))
  {
    AbsolutisedLength(rest, Some(value));
  }

  lemma WithProjectLater(here: seq<Mention>, ms: seq<Mention>, value: string)
    requires |here| <= 1 && forall m | m in here :: !OfProject(m)
    ensures WithProject(here + ms, value) == here + WithProject(ms, value)
  {
    if here == [] { assert here + ms == ms; } else { assert (here + ms)[1..] == ms && here == [here[0]]; }
  }

  lemma SameHeads<T>(a: seq<T>, b: seq<T>, c: seq<T>, d: seq<T>)
    requires |a| == |c|
    ensures a + b == c + d <==> a == c && b == d
  {
    if a + b == c + d {
      assert a == (a + b)[..|a|] && b == (a + b)[|a|..];
      assert c == (c + d)[..|a|] && d == (c + d)[|a|..];
    }
  }

  // ── the relaunch ──────────────────────────────────────────────────────

  /** Splitting at the first `--` undoes joining with one. */
  lemma SplitBack(own: seq<string>, extra: seq<string>)
    requires "--" !in own
    ensures Split(own + if extra == [] then [] else ["--"] + extra) == (own, extra)
  {
    if extra == [] {
      assert own + [] == own;
      SeparatorAt(own, []);
    } else {
      SeparatorAt(own, ["--"] + extra);
      var argv := own + (["--"] + extra);
      assert argv[..|own|] == own && argv[|own| + 1..] == extra;
    }
  }

  lemma {:induction false} SeparatorAt(own: seq<string>, rest: seq<string>)
    requires "--" !in own && (rest == [] || rest[0] == "--")
    ensures Separator(own + rest) == |own|
  {
    if own == [] {
      assert own + rest == rest;
    } else {
      assert (own + rest)[1..] == own[1..] + rest && own[0] in own;
      SeparatorAt(own[1..], rest);
    }
  }

  /** What replaces the project is neither a foreground flag nor the separator. */
  lemma {:induction false} AbsolutisedPlain(argv: seq<string>, resolved: Option<string>)
    requires Resolved(resolved)
    ensures forall a | a in Absolutised(argv, resolved) :: a in argv || (a !in FOREGROUND && a != "--")
  {
    if resolved.Some? && argv != [] {
      NoDashNoFlag(resolved.value);
      JoinedProject(resolved.value);
      JoinsApart("--project=" + resolved.value);
      AbsolutisedPlain(argv[1..], resolved);
    }
  }

  /** For every command line the relaunched start splits as this one did: its own arguments, less the foreground flags and with the project made absolute, and the same tail. */
  lemma RelaunchSplits(argv: seq<string>, resolved: Option<string>)
    requires Resolved(resolved)
    ensures var (own, extra) := Split(argv);
      Split(Relaunch(own, extra, resolved)) == (Absolutised(Background(own), resolved), extra)
  {
    var (own, extra) := Split(argv);
    assert "--" !in own;
    BackgroundHasNone(own);
    AbsolutisedPlain(Background(own), resolved);
    SplitBack(Absolutised(Background(own), resolved), extra);
  }

  /**
   It reads the address this one read, and the project this one opened, where
   no foreground flag stands in for a value and the project's own is
   replaceable.
   */
  lemma RelaunchSame(argv: seq<string>, resolved: Option<string>, parse: string -> Option<int>)
    requires Resolved(resolved) && Unbroken(Split(argv).0)
    requires resolved.Some? ==> Replaceable(Background(Split(argv).0), resolved.value)
    ensures var (own, extra) := Split(argv);
      var own' := Split(Relaunch(own, extra, resolved)).0;
      && AddressFrom(own', parse, DEFAULT) == AddressFrom(own, parse, DEFAULT)
      && ProjectOf(own') == (if ProjectOf(own).Some? && resolved.Some? then resolved else ProjectOf(own))
  {
    var (own, extra) := Split(argv);
    var own' := Absolutised(Background(own), resolved);
    RelaunchSplits(argv, resolved);
    BackgroundKeepsIff(own);
    ScannersReadMentions(own, parse, DEFAULT);
    ScannersReadMentions(own', parse, DEFAULT);
    if resolved.Some? {
      AbsolutisedKeepsIff(Background(own), resolved.value);
      WithProjectSays(Mentions(own), resolved.value, parse, DEFAULT);
    }
  }

  /** No flag's value starts with a dash. */
  predicate WellFormed(argv: seq<string>) {
    argv != [] ==> (TakesValue(argv[0]) && |argv| > 1 ==> !Dashed(argv[1])) && WellFormed(argv[1..])
  }

  lemma {:induction false} WellFormedUnbroken(argv: seq<string>)
    requires WellFormed(argv)
    ensures Unbroken(argv) && WellFormed(Background(argv))
    ensures argv != [] && !Dashed(argv[0]) ==> Background(argv) != [] && Background(argv)[0] == argv[0]
  {
    if argv != [] {
      WellFormedUnbroken(argv[1..]);
      if |argv| > 1 && !Dashed(argv[1]) { NoDashNoFlag(argv[1]); }
      if !Dashed(argv[0]) { NoDashNoFlag(argv[0]); }
      assert Background(argv) == (if argv[0] in FOREGROUND then Background(argv[1..]) else [argv[0]] + Background(argv[1..]));
      if argv[0] !in FOREGROUND { assert Background(argv)[1..] == Background(argv[1..]); }
      if TakesValue(argv[0]) && |argv| == 1 { assert Background(argv[1..]) == []; }
    }
  }

  lemma {:induction false} WellFormedReplaceable(argv: seq<string>, value: string)
    requires WellFormed(argv)
    ensures Replaceable(argv, value)
  {
    if argv != [] {
      WellFormedReplaceable(argv[1..], value);
      if |argv| > 1 && !Dashed(argv[1]) { NoDashNoFlag(argv[1]); }
    }
  }

  /** So it is for every command line in which no flag's value starts with a dash. */
  lemma RelaunchWellFormed(argv: seq<string>, resolved: Option<string>, parse: string -> Option<int>)
    requires Resolved(resolved) && WellFormed(Split(argv).0)
    ensures var (own, extra) := Split(argv);
      var own' := Split(Relaunch(own, extra, resolved)).0;
      && AddressFrom(own', parse, DEFAULT) == AddressFrom(own, parse, DEFAULT)
      && ProjectOf(own') == (if ProjectOf(own).Some? && resolved.Some? then resolved else ProjectOf(own))
  {
    WellFormedUnbroken(Split(argv).0);
    if resolved.Some? { WellFormedReplaceable(Background(Split(argv).0), resolved.value); }
    RelaunchSame(argv, resolved, parse);
  }

  lemma {:induction false} BackgroundTwice(argv: seq<string>)
    requires forall a | a in argv :: a !in FOREGROUND
    ensures Background(argv) == argv
  {
    if argv != [] {
      assert argv[0] in argv;
      BackgroundTwice(argv[1..]);
      assert [argv[0]] + argv[1..] == argv;
    }
  }

  /** Replacing again, or with no project to replace, changes nothing. */
  lemma {:induction false} AbsolutisedTwice(argv: seq<string>, resolved: Option<string>, again: Option<string>)
    requires again == resolved || ProjectOf(argv).None?
    ensures Absolutised(Absolutised(argv, resolved), again) == Absolutised(argv, resolved)
    ensures ProjectOf(Absolutised(argv, resolved)).None? <==> ProjectOf(argv).None?
    ensures ProjectOf(argv).None? ==> Absolutised(argv, resolved) == argv
  {
    if argv != [] {
      var out := Absolutised(argv, resolved);
      if argv[0] == "--project" && |argv| > 1 {
        if resolved.Some? { assert out[2..] == argv[2..]; }
      } else if StartsWith(argv[0], "--project=") {
        if resolved.Some? {
          assert out[1..] == argv[1..];
          JoinedProject(resolved.value);
          JoinsApart(argv[0]);
          JoinsApart(out[0]);
        }
      } else {
        AbsolutisedTwice(argv[1..], resolved, again);
        AbsolutisedLength(argv[1..], resolved);
        if resolved.Some? { assert out[1..] == Absolutised(argv[1..], resolved); }
        assert [argv[0]] + argv[1..] == argv;
      }
    }
  }

  /**
   For every command line a second restart hands on the argv of the first: the
   project it resolves, if there is one, is the absolute path it was handed.
   */
  lemma RelaunchFixpoint(argv: seq<string>, resolved: Option<string>, again: Option<string>)
    requires Resolved(resolved)
    requires again == resolved || ProjectOf(Split(Relaunch(Split(argv).0, Split(argv).1, resolved)).0).None?
    ensures var (own, extra) := Split(argv);
      var once := Relaunch(own, extra, resolved);
      Relaunch(Split(once).0, Split(once).1, again) == once
  {
    var (own, extra) := Split(argv);
    var kept := Background(own);
    var once := Absolutised(kept, resolved);
    RelaunchSplits(argv, resolved);
    BackgroundHasNone(own);
    AbsolutisedPlain(kept, resolved);
    BackgroundTwice(once);
    AbsolutisedTwice(kept, resolved, resolved);
    if again != resolved { AbsolutisedTwice(once, resolved, again); AbsolutisedTwice(kept, resolved, again); }
  }

  // ── which mention counts ──────────────────────────────────────────────

  /** An argument that says nothing of the host. */
  predicate NotHost(a: string) {
    a != "--host" && !StartsWith(a, "--host=")
  }

  lemma {:induction false} HostStays(argv: seq<string>, parse: string -> Option<int>, at: Address)
    requires forall a | a in argv :: NotHost(a)
    ensures AddressFrom(argv, parse, at).host == at.host
  {
    if argv != [] {
      assert NotHost(argv[0]);
      HostStays(argv[1..], parse, Scan(argv[0], argv[1..], parse, at));
    }
  }

  /** The last `--host VALUE` decides, whatever comes before it. */
  lemma {:induction false} LastHostWins(before: seq<string>, value: string, after: seq<string>, parse: string -> Option<int>, at: Address)
    requires forall a | a in [value] + after :: NotHost(a)
    ensures AddressFrom(before + (["--host", value] + after), parse, at).host == value
  {
    var rest := ["--host", value] + after;
    if before == [] {
      assert before + rest == rest && rest[1..] == [value] + after;
      HostStays(rest[1..], parse, at.(host := value));
    } else {
      assert (before + rest)[1..] == before[1..] + rest;
      LastHostWins(before[1..], value, after, parse, Scan(before[0], before[1..] + rest, parse, at));
    }
  }

  /** An argument that says nothing of the port. */
  predicate NotPort(a: string) {
    a != "--port" && !StartsWith(a, "--port=")
  }

  lemma {:induction false} PortStays(argv: seq<string>, parse: string -> Option<int>, at: Address)
    requires forall a | a in argv :: NotPort(a)
    ensures AddressFrom(argv, parse, at).port == at.port
  {
    if argv != [] {
      assert NotPort(argv[0]);
      PortStays(argv[1..], parse, Scan(argv[0], argv[1..], parse, at));
    }
  }

  /** What `--port VALUE` and `--port=VALUE` do: a value that is no number changes nothing. */
  lemma PortSaid(value: string, after: seq<string>, parse: string -> Option<int>, at: Address)
    requires forall a | a in [value] + after :: NotPort(a)
    ensures AddressFrom(["--port", value] + after, parse, at).port == (if parse(value).Some? then parse(value).value else at.port)
    ensures AddressFrom(["--port=" + value] + after, parse, at).port == (if parse(value).Some? then parse(value).value else at.port)
  {
    var spaced, joined := ["--port", value] + after, ["--port=" + value] + after;
    var port := if parse(value).Some? then parse(value).value else at.port;
    assert spaced[1..] == [value] + after && joined[1..] == after;
    assert ("--port=" + value)[..7] == "--port=" && ("--port=" + value)[7..] == value;
    assert "--port="[2] == 'p' && "--host="[2] == 'h' && "--port"[2] == 'p' && "--host"[2] == 'h';
    assert ("--port=" + value)[2] == 'p' && ("--port=" + value)[6] == '=';
    PortStays([value] + after, parse, at.(port := port));
    assert forall a | a in after :: a in [value] + after;
    PortStays(after, parse, at.(port := port));
  }

  /** The last port that is a number decides, spaced or joined, whatever comes before it. */
  lemma {:induction false} LastPortWins(before: seq<string>, value: string, after: seq<string>, parse: string -> Option<int>, at: Address)
    requires (forall a | a in [value] + after :: NotPort(a)) && parse(value).Some?
    ensures AddressFrom(before + (["--port", value] + after), parse, at).port == parse(value).value
    ensures AddressFrom(before + (["--port=" + value] + after), parse, at).port == parse(value).value
  {
    var spaced, joined := ["--port", value] + after, ["--port=" + value] + after;
    if before == [] {
      assert before + spaced == spaced && before + joined == joined;
      PortSaid(value, after, parse, at);
    } else {
      assert (before + spaced)[1..] == before[1..] + spaced && (before + joined)[1..] == before[1..] + joined;
      LastPortWins(before[1..], value, after, parse, Scan(before[0], before[1..] + spaced, parse, at));
      LastPortWins(before[1..], value, after, parse, Scan(before[0], before[1..] + joined, parse, at));
    }
  }

  /** `--host=VALUE` counts like `--host VALUE`. */
  lemma {:induction false} LastJoinedHostWins(before: seq<string>, value: string, after: seq<string>, parse: string -> Option<int>, at: Address)
    requires forall a | a in after :: NotHost(a)
    ensures AddressFrom(before + (["--host=" + value] + after), parse, at).host == value
  {
    var joined := ["--host=" + value] + after;
    if before == [] {
      assert before + joined == joined && joined[1..] == after;
      assert ("--host=" + value)[..7] == "--host=" && ("--host=" + value)[7..] == value;
      assert ("--host=" + value)[6] == '=';
      HostStays(after, parse, at.(host := value));
    } else {
      assert (before + joined)[1..] == before[1..] + joined;
      LastJoinedHostWins(before[1..], value, after, parse, Scan(before[0], before[1..] + joined, parse, at));
    }
  }

  /** A command line that says nothing of either is for port 8000 of this machine. */
  lemma NothingSaid(argv: seq<string>, parse: string -> Option<int>)
    requires forall a | a in argv :: NotHost(a) && NotPort(a)
    ensures AddressFrom(argv, parse, DEFAULT) == Address("127.0.0.1", 8000)
  {
    HostStays(argv, parse, DEFAULT);
    PortStays(argv, parse, DEFAULT);
  }

  predicate NotProject(a: string) {
    a != "--project" && !StartsWith(a, "--project=")
  }

  /** The first `--project` decides, whatever comes after it. */
  lemma {:induction false} FirstProjectWins(before: seq<string>, value: string, after: seq<string>)
    requires forall a | a in before :: NotProject(a)
    ensures ProjectOf(before + (["--project", value] + after)) == Some(value)
  {
    var rest := ["--project", value] + after;
    if before == [] {
      assert before + rest == rest;
    } else {
      assert (before + rest)[1..] == before[1..] + rest;
      assert NotProject(before[0]);
      FirstProjectWins(before[1..], value, after);
    }
  }

  /** `--project=VALUE` counts like `--project VALUE`, and without either there is none. */
  lemma {:induction false} FirstJoinedProjectWins(before: seq<string>, value: string, after: seq<string>)
    requires forall a | a in before :: NotProject(a)
    ensures ProjectOf(before + (["--project=" + value] + after)) == Some(value)
    ensures ProjectOf(before).None?
  {
    var rest := ["--project=" + value] + after;
    if before == [] {
      assert before + rest == rest;
      assert ("--project=" + value)[..10] == "--project=" && ("--project=" + value)[10..] == value;
      assert ("--project=" + value)[9] == '=';
    } else {
      assert (before + rest)[1..] == before[1..] + rest;
      assert NotProject(before[0]);
      FirstJoinedProjectWins(before[1..], value, after);
    }
  }

  predicate NotForeground(a: string) {
    a != "-f" && a != "--foreground"
  }

  lemma BackgroundStep(a: string, rest: seq<string>)
    ensures Background([a] + rest) == if NotForeground(a) then [a] + Background(rest) else Background(rest)
  {
    assert ([a] + rest)[1..] == rest;
  }

  /** Of the own arguments `-f` and `--foreground` go, and nothing else. */
  lemma {:induction false} ForegroundDropped(before: seq<string>, flag: string, after: seq<string>)
    requires (forall a | a in before :: NotForeground(a)) && !NotForeground(flag)
    ensures Background(before + ([flag] + after)) == before + Background(after)
  {
    hide Background, NotForeground;
    if before == [] {
      assert before + ([flag] + after) == [flag] + after && before + Background(after) == Background(after);
      BackgroundStep(flag, after);
    } else {
      var rest := before[1..] + ([flag] + after);
      assert before + ([flag] + after) == [before[0]] + rest;
      assert NotForeground(before[0]);
      BackgroundStep(before[0], rest);
      ForegroundDropped(before[1..], flag, after);
      assert [before[0]] + (before[1..] + Background(after)) == before + Background(after);
    }
  }

  // ── where the conditions fail ─────────────────────────────────────────

  /** The flag behind `--host` goes, and the next argument becomes the host. */
  lemma BrokenPairIsLost(parse: string -> Option<int>)
    ensures exists own ::
      AddressFrom(Absolutised(Background(own), None), parse, DEFAULT) != AddressFrom(own, parse, DEFAULT)
  {
    var own := ["--host", "-f", "x"];
    assert own[1..] == ["-f", "x"] && own[1..][1..] == ["x"] && ["x"][1..] == [];
    assert Background(["x"]) == ["x"] && Background(["-f", "x"]) == ["x"];
    assert Background(own) == ["--host", "x"];
    HostStays(["-f", "x"], parse, DEFAULT.(host := "-f"));
    HostStays(["x"], parse, DEFAULT.(host := "x"));
    assert ["--host", "x"][1..] == ["x"];
    assert AddressFrom(["--host", "x"], parse, DEFAULT).host == "x";
    assert AddressFrom(own, parse, DEFAULT).host == "-f";
    assert "x"[0] != "-f"[0];
  }

  /** A flag that was taken for the project's directory, and read as a flag as well, is gone. */
  lemma ReplacedFlagIsLost(parse: string -> Option<int>)
    ensures exists own, value ::
      !Dashed(value) && AddressFrom(Absolutised(Background(own), Some(value)), parse, DEFAULT) != AddressFrom(own, parse, DEFAULT)
  {
    var own := ["--project", "--host", "x"];
    assert own[1..] == ["--host", "x"] && own[2..] == ["x"] && ["--host", "x"][1..] == ["x"];
    BackgroundTwice(own);
    var out := ["--project", "/p"] + ["x"];
    assert Absolutised(own, Some("/p")) == out;
    ProjectSaysNoAddress(own[1..], parse, DEFAULT);
    HostStays(["x"], parse, DEFAULT.(host := "x"));
    HostStays(out, parse, DEFAULT);
    assert AddressFrom(own, parse, DEFAULT).host == "x";
    assert "x" != DEFAULT.host;
    assert !Dashed("/p");
  }
}
