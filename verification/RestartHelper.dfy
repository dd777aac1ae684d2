/**
 `_run_pending_steps` and `_finish_pending_job` of `scripts/dev.py`: one
 restart job, with an exception or an interrupt raised at any one point of its
 try body. What the job does to the outside is a trace of events; `Allowed`
 says when each may happen, `Emit` refuses any other moment, and every path
 through the job is checked against it.
 */
module RestartHelper {
  import opened Wrappers

  datatype How = Exited | Terminated | Alive

  datatype Status = Installed | Failed

  datatype Event =
    | StampedHelper            // helper_pid written into the claim
    | Waited(how: How)         // _wait_for_server_exit answered
    | Forgot                   // pidfile and address removed
    | StartedInstaller
    | StampedInstaller         // installer_pid written into the claim
    | InstallerExit(code: int) // proc.wait() returned
    | StoppedInstaller         // _terminate_pid
    | Outcome(status: Status)  // last_restart_job.json written
    | Dropped                  // pending_restart.json unlinked
    | Relaunched
    | Noted                    // the relaunch added to the outcome record

  /** Where in the try body the exception is raised. */
  datatype Point =
    | InWait | BeforeWaited | InForget | InChecks
    | BeforeAppend | BeforeStamp | InInstall | BeforeClear | AfterClear
    | BeforeOutcome | BetweenOutcomeAndDrop | AfterFinish

  datatype Refusal = NotRefused | Foreign | Unreadable | Malformed

  /** What the outside answers, and where the exception lands, if one does. */
  datatype World = World(
    refusal: Refusal,
    how: How,
    shortfall: bool,
    command: bool,             // _pending_install_cmd found one
    spawns: bool,              // Popen did not raise OSError
    code: int,                 // the installer's exit code
    fault: Option<Point>,
    os: bool,                  // the exception is an OSError
    secondWait: Option<How>    // the wait in the finally block; None when it raised too
  )

  predicate OutcomeIn(t: seq<Event>) {
    Outcome(Installed) in t || Outcome(Failed) in t
  }

  predicate WaitedIn(t: seq<Event>) {
    Waited(Exited) in t || Waited(Terminated) in t || Waited(Alive) in t
  }

  /** An installer runs that nothing waited for or stopped. */
  ghost predicate Running(w: World, t: seq<Event>) {
    StartedInstaller in t && StoppedInstaller !in t && InstallerExit(w.code) !in t
  }

  /** The exceptions after which the installer is left running. */
  predicate Abandons(w: World) {
    && w.refusal.NotRefused? && !w.shortfall && w.command && w.spawns
    && (w.fault == Some(BeforeAppend) || (w.os && (w.fault == Some(BeforeStamp) || w.fault == Some(InInstall))))
  }

  /** Popen is reached, and returns. */
  predicate Starts(w: World) {
    && w.refusal.NotRefused? && !w.shortfall && w.command && w.spawns
    && w.fault != Some(InWait) && w.fault != Some(BeforeWaited) && w.fault != Some(InChecks)
    && (w.fault == Some(InForget) ==> w.how.Alive?)
  }

  /** And its pid is written into the claim. */
  predicate Stamps(w: World) {
    Starts(w) && w.fault != Some(BeforeAppend) && w.fault != Some(BeforeStamp)
  }

  /** The exceptions that find an installer in the handler's list. */
  predicate Stops(w: World) {
    && Starts(w)
    && ((w.fault == Some(BeforeStamp) && !w.os) || (w.fault == Some(InInstall) && !w.os) || w.fault == Some(BeforeClear))
  }

  // ── the whole of a job, event by event ────────────────────────────────

  predicate RaisedEarly(w: World) {
    w.fault == Some(InWait) || w.fault == Some(BeforeWaited) || w.fault == Some(InChecks) || (w.fault == Some(InForget) && !w.how.Alive?)
  }

  /** Up to the checks. */
  function Begun(w: World): seq<Event> {
    if w.fault == Some(InWait) then [StampedHelper]
    else if w.how.Alive? || w.fault == Some(BeforeWaited) || w.fault == Some(InForget) then [StampedHelper, Waited(w.how)]
    else [StampedHelper, Waited(w.how), Forgot]
  }

  predicate InstallRaises(w: World) {
    w.fault == Some(BeforeAppend) || w.fault == Some(BeforeStamp) || w.fault == Some(InInstall)
  }

  /** The installer's part. */
  function Ran(w: World): seq<Event> {
    if !Starts(w) then []
    else if w.fault == Some(BeforeAppend) || w.fault == Some(BeforeStamp) then [StartedInstaller]
    else if w.fault == Some(InInstall) then [StartedInstaller, StampedInstaller]
    else [StartedInstaller, StampedInstaller, InstallerExit(w.code)]
  }

  /** What the try body comes to say: nothing if the exception gets out before. */
  function Verdict(w: World): Option<Status> {
    if RaisedEarly(w) then None
    else if !Starts(w) then Some(Failed)
    else if InstallRaises(w) then (if w.os then Some(Failed) else None)
    else if w.fault == Some(BeforeClear) || w.fault == Some(AfterClear) then None
    else Some(if w.code == 0 then Installed else Failed)
  }

  /** `_finish` with the exception inside it, if it lands there. */
  function Finishing(status: Status, fault: Option<Point>): seq<Event> {
    if fault == Some(BeforeOutcome) then []
    else if fault == Some(BetweenOutcomeAndDrop) then [Outcome(status)]
    else [Outcome(status), Dropped]
  }

  predicate FinishRaises(w: World) {
    w.fault == Some(BeforeOutcome) || w.fault == Some(BetweenOutcomeAndDrop)
  }

  /** The exception gets out of the try body. */
  predicate Raises(w: World) {
    Verdict(w).None? || FinishRaises(w) || w.fault == Some(AfterFinish)
  }

  function Tried(w: World): seq<Event> {
    Begun(w) + Ran(w) + if Verdict(w).None? then [] else Finishing(Verdict(w).value, w.fault)
  }

  /** The handler's part: the installer it knows of is stopped, and the job reported as failed. */
  function Handled(w: World): seq<Event> {
    if !Raises(w) then [] else if Stops(w) then [StoppedInstaller, Outcome(Failed), Dropped] else [Outcome(Failed), Dropped]
  }

  /** The wait once more, where it never answered. */
  function Again(w: World): seq<Event> {
    if (w.fault != Some(InWait) && w.fault != Some(BeforeWaited)) || w.secondWait.None? then []
    else if w.secondWait.value.Alive? then [Waited(Alive)] else [Waited(w.secondWait.value), Forgot]
  }

  function Whole(w: World): seq<Event> {
    Tried(w) + Handled(w) + Again(w) + [Relaunched, Noted]
  }

  /** What must have happened before `e`. */
  ghost predicate Allowed(w: World, past: seq<Event>, e: Event) {
    && (Relaunched in past ==> e == Noted)
    && match e
       case StampedHelper => past == []
       case Waited(how) => StampedHelper in past
       case Forgot => Waited(Exited) in past || Waited(Terminated) in past
       case StartedInstaller => WaitedIn(past) && StartedInstaller !in past && !OutcomeIn(past)
       case StampedInstaller => Running(w, past) && !OutcomeIn(past)
       case InstallerExit(code) => Running(w, past) && StampedInstaller in past && code == w.code
       case StoppedInstaller => StartedInstaller in past
       case Outcome(status) => status == Installed ==> InstallerExit(0) in past
       case Dropped => OutcomeIn(past)
       case Relaunched =>
         && OutcomeIn(past) && Dropped in past
         && (WaitedIn(past) || (w.fault == Some(InWait) && w.secondWait.None?))
         && (Running(w, past) ==> Abandons(w))
       case Noted => Relaunched in past
  }

  ghost predicate Orderly(w: World, t: seq<Event>) {
    t == [] || (Orderly(w, t[..|t| - 1]) && Allowed(w, t[..|t| - 1], t[|t| - 1]))
  }

  /** What the outcome record says in the end. */
  ghost function Reported(t: seq<Event>): Option<Status> {
    if t == [] then None
    else if t[|t| - 1].Outcome? then Some(t[|t| - 1].status)
    else Reported(t[..|t| - 1])
  }

  /** Every event of an orderly trace was allowed when it happened. */
  lemma {:induction false} OrderlyAt(w: World, t: seq<Event>, k: nat)
    requires Orderly(w, t) && k < |t|
    ensures Allowed(w, t[..k], t[k])
    decreases |t|
  {
    if k < |t| - 1 {
      OrderlyAt(w, t[..|t| - 1], k);
      assert t[..|t| - 1][..k] == t[..k];
    }
  }

  /** Exactly once: no two relaunches in an orderly trace. */
  lemma OneRelaunch(w: World, t: seq<Event>, i: nat, j: nat)
    requires Orderly(w, t) && i < |t| && j < |t| && t[i] == Relaunched && t[j] == Relaunched
    ensures i == j
  {
    var first, last := if i < j then i else j, if i < j then j else i;
    if first < last { assert t[..last][first] == Relaunched; }
    OrderlyAt(w, t, last);
  }

  /** The claim is never released before there is a report to read in its place. */
  lemma ReportBeforeRelease(w: World, t: seq<Event>, k: nat)
    requires Orderly(w, t) && k < |t| && t[k] == Dropped
    ensures exists j :: 0 <= j < k && t[j].Outcome?
  {
    OrderlyAt(w, t, k);
    var report := if Outcome(Installed) in t[..k] then Outcome(Installed) else Outcome(Failed);
    var j :| 0 <= j < |t[..k]| && t[..k][j] == report;
    assert t[j].Outcome?;
  }

  /** A record that says installed is only written after the installer exited with 0. */
  lemma InstalledMeansExitZero(w: World, t: seq<Event>, k: nat)
    requires Orderly(w, t) && k < |t| && t[k] == Outcome(Installed)
    ensures w.code == 0 && exists j :: 0 <= j < k && t[j] == InstallerExit(0)
  {
    OrderlyAt(w, t, k);
    var j :| 0 <= j < |t[..k]| && t[..k][j] == InstallerExit(0);
    assert t[j] == InstallerExit(0);
    OrderlyAt(w, t, j);
  }

  /** Between its start and its exit an installer's pid is written into the claim. */
  lemma StampedBeforeExit(w: World, t: seq<Event>, k: nat)
    requires Orderly(w, t) && k < |t| && t[k].InstallerExit?
    ensures exists i, j :: 0 <= i < j < k && t[i] == StartedInstaller && t[j] == StampedInstaller
  {
    OrderlyAt(w, t, k);
    var j :| 0 <= j < |t[..k]| && t[..k][j] == StampedInstaller;
    assert t[j] == StampedInstaller;
    OrderlyAt(w, t, j);
    var i :| 0 <= i < |t[..j]| && t[..j][i] == StartedInstaller;
    assert t[i] == StartedInstaller;
  }

  /** The server comes back after the exit wait answered, unless that wait was interrupted twice. */
  lemma RelaunchAfterWait(w: World, t: seq<Event>, k: nat)
    requires Orderly(w, t) && k < |t| && t[k] == Relaunched
    requires w.fault != Some(InWait) || w.secondWait.Some?
    ensures exists j :: 0 <= j < k && t[j].Waited?
  {
    OrderlyAt(w, t, k);
    var answer := if Waited(Exited) in t[..k] then Exited else if Waited(Terminated) in t[..k] then Terminated else Alive;
    var j :| 0 <= j < |t[..k]| && t[..k][j] == Waited(answer);
    assert t[j].Waited?;
  }

  /** A refused claim: nothing waited for, installed or relaunched. */
  function Refused(refusal: Refusal): seq<Event>
    requires !refusal.NotRefused?
  {
    match refusal
    case Foreign => []                          // another installation's files
    case Malformed => [Outcome(Failed), Dropped]
    case Unreadable => [Dropped]                // names no job: no record to write
  }

  // ── what the whole comes to ───────────────────────────────────────────

  lemma BegunFacts(w: World)
    ensures StampedHelper in Begun(w) && (w.fault != Some(InWait) ==> WaitedIn(Begun(w)))
    ensures forall e | e in Begun(w) :: e.StampedHelper? || e.Waited? || e.Forgot?
  {
    assert w.how.Exited? || w.how.Terminated? || w.how.Alive?;
  }

  /** The installer's pid and its end are in the trace of the try body exactly where they were reached. */
  lemma TriedInstalls(w: World)
    ensures (StartedInstaller in Tried(w) <==> Starts(w)) && (StampedInstaller in Tried(w) <==> Stamps(w))
    ensures InstallerExit(w.code) in Tried(w) <==> Starts(w) && !InstallRaises(w)
    ensures StoppedInstaller !in Tried(w) && Relaunched !in Tried(w) && StampedHelper in Tried(w)
    ensures w.fault != Some(InWait) ==> WaitedIn(Tried(w))
  {
    hide Starts, Begun, Verdict;
    BegunFacts(w);
  }

  /** Something is reported before the end, and the claim dropped. */
  lemma HandledReports(w: World)
    ensures OutcomeIn(Tried(w) + Handled(w)) && Dropped in Tried(w) + Handled(w)
    ensures Relaunched !in Handled(w) && (StoppedInstaller in Handled(w) <==> Stops(w) && Raises(w))
  {
    hide Begun, Ran, Verdict, Stops;
    if !Raises(w) {
      assert Finishing(Verdict(w).value, w.fault) == [Outcome(Verdict(w).value), Dropped];
      assert Verdict(w).value.Installed? || Verdict(w).value.Failed?;
    } else {
      assert Outcome(Failed) in Handled(w);
    }
  }

  lemma StopsRaises(w: World)
    requires Stops(w)
    ensures Raises(w)
  {
  }

  /** Exactly where an installer is started, stamped, stopped and left running. */
  lemma WholeInstalls(w: World)
    requires w.refusal.NotRefused?
    ensures (StartedInstaller in Whole(w) <==> Starts(w)) && (StampedInstaller in Whole(w) <==> Stamps(w))
    ensures StoppedInstaller in Whole(w) <==> Stops(w)
    ensures Running(w, Whole(w)) <==> Abandons(w)
  {
    TriedInstalls(w);
    HandledReports(w);
    hide Tried;
    if Stops(w) { StopsRaises(w); }
    assert InstallerExit(w.code) !in Handled(w) && InstallerExit(w.code) !in Again(w);
  }

  lemma SaidByHandler(w: World) returns (before: seq<Event>)
    requires Raises(w)
    ensures Tried(w) + Handled(w) == before + [Outcome(Failed), Dropped]
  {
    hide Tried, Raises;
    before := Tried(w) + if Stops(w) then [StoppedInstaller] else [];
  }

  lemma SaidByVerdict(w: World) returns (before: seq<Event>)
    requires !Raises(w)
    ensures Tried(w) + Handled(w) == before + [Outcome(Verdict(w).value), Dropped]
  {
    hide Begun, Ran, Verdict;
    before := Begun(w) + Ran(w);
  }

  lemma ReportedAfter(w: World, before: seq<Event>, status: Status)
    requires Tried(w) + Handled(w) == before + [Outcome(status), Dropped]
    ensures Reported(Whole(w)) == Some(status)
  {
    hide Tried, Handled;
    var rest := Again(w) + [Relaunched, Noted];
    assert Whole(w) == before + [Outcome(status), Dropped] + rest;
    ReportedLast(before, status, rest);
  }

  /** What is reported in the end: installed exactly where that was the verdict and nothing got out. */
  lemma WholeReports(w: World)
    ensures Reported(Whole(w)) == Some(if !Raises(w) && Verdict(w) == Some(Installed) then Installed else Failed)
  {
    hide Tried, Handled, Verdict, Whole, Reported;
    var before: seq<Event>;
    if Raises(w) {
      before := SaidByHandler(w);
      ReportedAfter(w, before, Failed);
    } else {
      before := SaidByVerdict(w);
      ReportedAfter(w, before, Verdict(w).value);
      assert Verdict(w).value.Installed? || Verdict(w).value.Failed?;
    }
  }

  /** And that verdict needs the installer to have exited with 0. */
  lemma InstalledIsZero(w: World)
    requires Verdict(w) == Some(Installed)
    ensures Starts(w) && w.code == 0 && InstallerExit(0) in Tried(w)
  {
    hide Begun;
    TriedInstalls(w);
  }

  /** Without an exception: the whole trace. */
  lemma Undisturbed(w: World)
    requires w.refusal.NotRefused? && w.fault.None?
    ensures Whole(w) ==
      [StampedHelper, Waited(w.how)] + (if w.how.Alive? then [] else [Forgot])
      + (if w.shortfall || !w.command || !w.spawns then [Outcome(Failed)]
         else [StartedInstaller, StampedInstaller, InstallerExit(w.code), Outcome(if w.code == 0 then Installed else Failed)])
      + [Dropped, Relaunched, Noted]
  {
    assert Handled(w) == [] && Again(w) == [];
    assert Begun(w) == [StampedHelper, Waited(w.how)] + if w.how.Alive? then [] else [Forgot];
    assert Tried(w) == Begun(w) + Ran(w) + [Outcome(Verdict(w).value), Dropped];
  }

  lemma {:induction false} ReportedLast(before: seq<Event>, status: Status, after: seq<Event>)
    requires forall e | e in after :: !e.Outcome?
    ensures Reported(before + [Outcome(status), Dropped] + after) == Some(status)
    decreases |after|
  {
    var t := before + [Outcome(status), Dropped] + after;
    if after == [] {
      assert t[..|t| - 1] == before + [Outcome(status)];
      assert t[..|t| - 1][..|t| - 2] == before;
    } else {
      assert t[|t| - 1] == after[|after| - 1];
      assert t[..|t| - 1] == before + [Outcome(status), Dropped] + after[..|after| - 1];
      ReportedLast(before, status, after[..|after| - 1]);
    }
  }

  // ── each moment is one it may be done at ──────────────────────────────

  lemma MayBegin(w: World)
    ensures Orderly(w, []) && Allowed(w, [], StampedHelper)
  {
  }

  lemma MayWait(w: World, t: seq<Event>, how: How)
    requires StampedHelper in t && Relaunched !in t
    ensures Allowed(w, t, Waited(how))
    ensures !how.Alive? ==> Allowed(w, t + [Waited(how)], Forgot)
  {
  }

  lemma MayInstall(w: World)
    requires Starts(w)
    ensures Allowed(w, Begun(w), StartedInstaller)
    ensures Allowed(w, Begun(w) + [StartedInstaller], StampedInstaller)
    ensures Allowed(w, Begun(w) + [StartedInstaller, StampedInstaller], InstallerExit(w.code))
  {
    hide Begun;
    BegunFacts(w);
  }

  lemma MayFinish(w: World, t: seq<Event>, status: Status)
    requires Relaunched !in t && (status == Installed ==> InstallerExit(0) in t)
    ensures Allowed(w, t, Outcome(status)) && Allowed(w, t + [Outcome(status)], Dropped)
  {
  }

  lemma MayStop(w: World, t: seq<Event>)
    requires StartedInstaller in t && Relaunched !in t
    ensures Allowed(w, t, StoppedInstaller)
  {
  }

  /** What the try body may report at its end. */
  lemma MayConclude(w: World)
    ensures Relaunched !in Begun(w) + Ran(w) && (!Starts(w) ==> Ran(w) == [])
    ensures Starts(w) && !InstallRaises(w) ==> InstallerExit(w.code) in Begun(w) + Ran(w)
  {
    hide Begun, Starts;
    BegunFacts(w);
  }

  lemma MayReturn(w: World)
    ensures StampedHelper in Tried(w) + Handled(w) && Relaunched !in Tried(w) + Handled(w)
  {
    hide Tried, Handled;
    TriedInstalls(w);
    HandledReports(w);
  }

  lemma MayRelaunch(w: World)
    requires w.refusal.NotRefused?
    ensures var t := Tried(w) + Handled(w) + Again(w);
      Allowed(w, t, Relaunched) && Allowed(w, t + [Relaunched], Noted)
  {
    hide Tried, Handled, Abandons, Allowed, Running, OutcomeIn;
    var told := Tried(w) + Handled(w);
    MayReturn(w);
    HandledReports(w);
    AgainFacts(w, told);
    WholeInstalls(w);
    TriedInstalls(w);
    MayRelaunchAt(w, told + Again(w));
  }

  lemma AgainFacts(w: World, t: seq<Event>)
    ensures OutcomeIn(t) ==> OutcomeIn(t + Again(w))
    ensures Relaunched !in Again(w) && (WaitedIn(t) ==> WaitedIn(t + Again(w)))
    ensures w.fault == Some(InWait) && w.secondWait.Some? ==> WaitedIn(t + Again(w))
    ensures Running(w, t + Again(w)) <==> Running(w, t + Again(w) + [Relaunched, Noted])
  {
    if w.secondWait.Some? { assert w.secondWait.value.Exited? || w.secondWait.value.Terminated? || w.secondWait.value.Alive?; }
  }

  lemma MayRelaunchAt(w: World, t: seq<Event>)
    requires OutcomeIn(t) && Dropped in t && Relaunched !in t && (Running(w, t) ==> Abandons(w))
    requires WaitedIn(t) || (w.fault == Some(InWait) && w.secondWait.None?)
    ensures Allowed(w, t, Relaunched) && Allowed(w, t + [Relaunched], Noted)
  {
  }

  datatype Ending = Returned(code: int) | Raised

  class Job {
    const w: World
    var trace: seq<Event>
    var waited: bool
    var installer: bool        // the list `installer` holds a process
    var record: bool           // _finish wrote a record

    constructor (w: World)
      ensures this.w == w && trace == [] && !waited && !installer && !record
    {
      this.w := w;
      trace, waited, installer, record := [], false, false, false;
    }

    /** One thing done to the outside, at a moment it may be done. */
    method Emit(e: Event)
      requires Orderly(w, trace) && Allowed(w, trace, e)
      modifies this`trace
      ensures Orderly(w, trace) && trace == old(trace) + [e]
    {
      assert (trace + [e])[..|trace|] == trace;
      trace := trace + [e];
    }

    /** `_finish`: the outcome, then the claim. True when the exception landed inside. */
    method Finish(status: Status, fault: Option<Point>) returns (raised: bool)
      requires Orderly(w, trace) && Relaunched !in trace && (status == Installed ==> InstallerExit(0) in trace)
      modifies this`trace, this`record
      ensures Orderly(w, trace) && trace == old(trace) + Finishing(status, fault)
      ensures raised <==> fault == Some(BeforeOutcome) || fault == Some(BetweenOutcomeAndDrop)
      ensures record == if raised then old(record) else true
    {
      hide Orderly, Allowed;
      MayFinish(w, trace, status);
      if fault == Some(BeforeOutcome) { return true; }
      Emit(Outcome(status));
      if fault == Some(BetweenOutcomeAndDrop) { return true; }
      Emit(Dropped);
      record := true;
      raised := false;
    }

    /** The try body up to the install command. */
    method Prepare() returns (raised: bool)
      requires Orderly(w, trace) && trace == [StampedHelper] && !waited
      modifies this`trace, this`waited
      ensures Orderly(w, trace) && trace == Begun(w)
      ensures waited <==> w.fault != Some(InWait) && w.fault != Some(BeforeWaited)
      ensures raised <==> RaisedEarly(w)
    {
      hide Orderly, Allowed;
      if w.fault == Some(InWait) { return true; }
      MayWait(w, trace, w.how);
      Emit(Waited(w.how));
      if w.fault == Some(BeforeWaited) { return true; }
      waited := true;
      if w.how != Alive {
        if w.fault == Some(InForget) { return true; }
        Emit(Forgot);
      }
      raised := w.fault == Some(InChecks);
    }

    /** `_run_pending_install` with `_stamp`; None when it raised. */
    method Install() returns (code: Option<int>)
      requires Orderly(w, trace) && trace == Begun(w) && Starts(w) && !installer
      modifies this`trace, this`installer
      ensures Orderly(w, trace) && trace == Begun(w) + Ran(w)
      ensures code == if InstallRaises(w) then None else Some(w.code)
      ensures installer <==> w.fault != Some(BeforeAppend)
    {
      hide Orderly, Allowed, Begun, Starts;
      MayInstall(w);
      Emit(StartedInstaller);
      if w.fault == Some(BeforeAppend) { return None; }
      installer := true;
      if w.fault == Some(BeforeStamp) { return None; }
      Emit(StampedInstaller);
      assert trace == Begun(w) + [StartedInstaller, StampedInstaller];
      if w.fault == Some(InInstall) { return None; }
      Emit(InstallerExit(w.code));
      code := Some(w.code);
    }

    /** A verdict reported from inside the try body. */
    method Conclude(status: Status, code: int) returns (out: Ending)
      requires Orderly(w, trace) && Relaunched !in trace && (status == Installed ==> InstallerExit(0) in trace) && !record
      modifies this`trace, this`record
      ensures Orderly(w, trace) && trace == old(trace) + Finishing(status, w.fault)
      ensures out == if FinishRaises(w) || w.fault == Some(AfterFinish) then Raised else Returned(code)
      ensures record <==> !FinishRaises(w)
    {
      hide Orderly;
      var raised := Finish(status, w.fault);
      out := if raised || w.fault == Some(AfterFinish) then Raised else Returned(code);
    }

    /** The try body. */
    method Try() returns (out: Ending)
      requires Orderly(w, trace) && trace == [StampedHelper] && !waited && !installer && !record && w.refusal.NotRefused?
      modifies this
      ensures Orderly(w, trace) && trace == Tried(w)
      ensures out == if Raises(w) then Raised else Returned(if Verdict(w) == Some(Installed) then 0 else 1)
      ensures waited <==> w.fault != Some(InWait) && w.fault != Some(BeforeWaited)
      ensures out.Raised? ==> (installer <==> Stops(w))
      ensures !out.Raised? ==> record
    {
      hide Orderly, Begun, Ran, Finishing;
      MayConclude(w);
      var raised := Prepare();
      if raised { return Raised; }
      if w.shortfall || !w.command {
        out := Conclude(Failed, 1);
        return;
      }
      if !w.spawns {
        out := Conclude(Failed, 1);
        return;
      }
      var code := Install();
      if code.None? {
        if !w.os { return Raised; }
        out := Conclude(Failed, 1);
        return;
      }
      if w.fault == Some(BeforeClear) { return Raised; }
      installer := false;
      if w.fault == Some(AfterClear) { return Raised; }
      if code.value == 0 {
        out := Conclude(Installed, 0);
      } else {
        out := Conclude(Failed, 1);
      }
    }

    /** The handler: stop the installer it knows of, and report. */
    method Handle()
      requires Orderly(w, trace) && Relaunched !in trace && (installer ==> StartedInstaller in trace)
      modifies this`trace, this`record
      ensures Orderly(w, trace) && record
      ensures trace == old(trace) + if installer then [StoppedInstaller, Outcome(Failed), Dropped] else [Outcome(Failed), Dropped]
    {
      hide Orderly, Allowed;
      if installer {
        MayStop(w, trace);
        Emit(StoppedInstaller);
      }
      var _ := Finish(Failed, None);
    }

    /** The same wait once more: the first was interrupted. */
    method WaitAgain(how: How)
      requires Orderly(w, trace) && StampedHelper in trace && Relaunched !in trace
      modifies this`trace
      ensures Orderly(w, trace)
      ensures trace == old(trace) + [Waited(how)] + if how.Alive? then [] else [Forgot]
    {
      hide Orderly, Allowed;
      MayWait(w, trace, how);
      Emit(Waited(how));
      if how != Alive { Emit(Forgot); }
    }

    /** The finally block: the server comes back, after one more wait if the first never answered. */
    method Return()
      requires Orderly(w, trace) && trace == Tried(w) + Handled(w) && record && w.refusal.NotRefused?
      requires waited <==> w.fault != Some(InWait) && w.fault != Some(BeforeWaited)
      modifies this`trace
      ensures Orderly(w, trace) && trace == Whole(w)
    {
      hide Orderly, Allowed, Tried, Handled;
      MayReturn(w);
      if !waited && w.secondWait.Some? { WaitAgain(w.secondWait.value); }
      assert trace == Tried(w) + Handled(w) + Again(w);
      MayRelaunch(w);
      Emit(Relaunched);
      if record { Emit(Noted); }
    }

    /** The try body, its handler for any exception, and the finally block. */
    method Steps() returns (out: Ending)
      requires trace == [] && !waited && !installer && !record
      modifies this
      ensures !w.refusal.NotRefused? ==> trace == Refused(w.refusal) && out == Returned(2)
      ensures w.refusal.NotRefused? ==> Orderly(w, trace) && trace == Whole(w)
      ensures w.refusal.NotRefused? ==>
        out == if Raises(w) then Raised else Returned(if Verdict(w) == Some(Installed) then 0 else 1)
      // whatever was raised where: an installer is left running exactly where an OSError hid it, and only 0 reports it installed
      ensures w.refusal.NotRefused? ==> (Running(w, trace) <==> Abandons(w))
      ensures w.refusal.NotRefused? ==> (out == Returned(0) <==> Reported(trace) == Some(Installed))
      ensures w.refusal.NotRefused? ==> (StartedInstaller in trace <==> Starts(w)) && (StampedInstaller in trace <==> Stamps(w))
      ensures w.refusal.NotRefused? ==> (StoppedInstaller in trace <==> Stops(w))
    {
      hide Orderly, Tried, Whole, Abandons, Running, Reported;
      if !w.refusal.NotRefused? {
        if w.refusal.Malformed? { trace := trace + [Outcome(Failed)]; }
        if !w.refusal.Foreign? { trace := trace + [Dropped]; }
        return Returned(2);
      }
      MayBegin(w);
      Emit(StampedHelper);
      out := Try();
      TriedInstalls(w);
      if out.Raised? { Handle(); }
      Return();
      WholeInstalls(w);
      WholeReports(w);
    }
  }
}
