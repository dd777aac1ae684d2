/**
 The claim file of a restart-mode install: the server that writes it
 (`backend/app/core/packs/restart.py`), the detached helper that stamps it and
 runs `uv` (`scripts/dev.py`, `_run_pending_steps`), and the preflight every
 `cdui start`, `dev` and `update` makes first (`_restart_preflight`).

 Any process may be killed at any step; a helper that is killed leaves its
 `uv` running. Process ids are not reused here: a reused one only makes
 `_pid_alive` answer True more often, and the preflight refuse more often.
 */
module RestartHandshake {
  import opened Wrappers

  type Pid = nat
  type Job = nat

  datatype Claim = Claim(
    job: Job,
    helper: Option<Pid>,
    installer: Option<Pid>,
    expired: bool               // past the age at which a claim naming no process is abandoned
  )

  /** How far a helper is in `_run_pending_steps`. */
  datatype Helper =
    | Spawned                       // started, its pid not in the claim yet
    | Waiting                       // stamped; waiting for the server, checking disk and command
    | Started(uv: Pid)              // Popen returned, on_started not run yet
    | Installing(uv: Pid)           // the installer's pid is in the claim
    | Finishing                     // the installer is gone, the claim still there
    | Relaunching                   // the claim dropped, the server about to come back
    | Gone                          // exited or killed

  datatype State = State(
    claim: Option<Claim>,
    helpers: map<Pid, (Job, Helper)>,
    alive: set<Pid>,          // helpers and installers running
    stamped: set<Pid>,        // installers whose pid a helper wrote into the claim
    abandoned: set<Pid>,      // installers a helper dropped the claim over while they ran
    used: set<Pid>,           // every pid handed out
    passed: nat               // start, dev or update runs that got past the preflight
  )

  datatype Step =
    | WriteClaim(job: Job, helper: Pid)   // write_pending, then spawn_helper
    | Age                                 // time passes
    | Refuse(h: Pid)                      // _validate_pending says no: the claim goes, nothing is installed
    | StampHelper(h: Pid)
    | StartInstaller(h: Pid, uv: Pid)
    | StampInstaller(h: Pid)
    | InstallerEnds(uv: Pid)
    | Reap(h: Pid)                        // proc.wait() returned
    | Interrupt(h: Pid)                   // a refusal to install, or except BaseException: stop the installer it knows of
    | LoseOutput(h: Pid)                  // except OSError while echoing the installer's lines: it is left running
    | DropClaim(h: Pid)                   // _finish_pending_job, after the outcome record
    | Relaunch(h: Pid)
    | Kill(p: Pid)                        // SIGKILL, End task
    | Preflight

  function Init(): State {
    State(None, map[], {}, {}, {}, {}, 0)
  }

  /** The pids a claim names, that are running. */
  predicate NamesAlive(c: Claim, alive: set<Pid>) {
    (c.helper.Some? && c.helper.value in alive) || (c.installer.Some? && c.installer.value in alive)
  }

  predicate NamesAny(c: Claim) {
    c.helper.Some? || c.installer.Some?
  }

  /** `_pending_state == "finishing"`, and its mirror `not _is_stale`. */
  predicate InFlight(c: Claim, alive: set<Pid>) {
    if NamesAny(c) then NamesAlive(c, alive) else !c.expired
  }

  predicate At(s: State, h: Pid, what: Helper) {
    h in s.helpers && s.helpers[h].1 == what && h in s.alive
  }

  /** A helper between spawn and stamp: the start grace is assumed to cover it. */
  predicate Unstamped(s: State) {
    exists h | h in s.helpers :: s.helpers[h].1.Spawned? && h in s.alive
  }

  function JobOf(s: State, h: Pid): Job
    requires h in s.helpers
  {
    s.helpers[h].0
  }

  function Move(s: State, h: Pid, to: Helper): map<Pid, (Job, Helper)>
    requires h in s.helpers
  {
    s.helpers[h := (s.helpers[h].0, to)]
  }

  /** The installer the claim names, while it runs. */
  function NamedInstaller(s: State): set<Pid> {
    if s.claim.Some? && s.claim.value.installer.Some? && s.claim.value.installer.value in s.alive
    then {s.claim.value.installer.value} else {}
  }

  predicate Enabled(s: State, step: Step) {
    match step
    case WriteClaim(job, h) =>
      h !in s.used && (s.claim.Some? ==> !InFlight(s.claim.value, s.alive))
    case Age => s.claim.Some? && !Unstamped(s)
    case Refuse(h) => At(s, h, Spawned)
    case StampHelper(h) => At(s, h, Spawned)
    case StartInstaller(h, uv) => At(s, h, Waiting) && uv !in s.used
    case StampInstaller(h) =>
      h in s.helpers && h in s.alive && s.helpers[h].1.Started?
    case InstallerEnds(uv) => uv in s.alive && uv !in s.helpers
    case Reap(h) =>
      h in s.helpers && h in s.alive && s.helpers[h].1.Installing? && s.helpers[h].1.uv !in s.alive
    case Interrupt(h) =>
      h in s.helpers && h in s.alive
      && (s.helpers[h].1.Waiting? || s.helpers[h].1.Started? || s.helpers[h].1.Installing?)
    case LoseOutput(h) => h in s.helpers && h in s.alive && s.helpers[h].1.Installing?
    case DropClaim(h) => At(s, h, Finishing)
    case Relaunch(h) => At(s, h, Relaunching)
    case Kill(p) => p in s.alive
    case Preflight => true
  }

  function Apply(s: State, step: Step): State
    requires Enabled(s, step)
  {
    match step
    case WriteClaim(job, h) =>
      s.(claim := Some(Claim(job, None, None, false)),
         helpers := s.helpers[h := (job, Spawned)], alive := s.alive + {h}, used := s.used + {h})
    case Age => s.(claim := Some(s.claim.value.(expired := true)))
    case Refuse(h) =>
      s.(claim := None, helpers := Move(s, h, Gone), alive := s.alive - {h})
    case StampHelper(h) =>
      s.(claim := Some(Claim(JobOf(s, h), Some(h), None, s.claim.Some? && s.claim.value.expired)),
         helpers := Move(s, h, Waiting))
    case StartInstaller(h, uv) =>
      s.(helpers := Move(s, h, Started(uv)), alive := s.alive + {uv}, used := s.used + {uv})
    case StampInstaller(h) =>
      var uv := s.helpers[h].1.uv;
      s.(claim := Some(Claim(JobOf(s, h), Some(h), Some(uv), s.claim.Some? && s.claim.value.expired)),
         helpers := Move(s, h, Installing(uv)), stamped := s.stamped + {uv})
    case InstallerEnds(uv) => s.(alive := s.alive - {uv})
    case Reap(h) => s.(helpers := Move(s, h, Finishing))
    case Interrupt(h) =>
      // `installer` is filled by on_started: an interrupt just after Popen knows of none
      s.(helpers := Move(s, h, Finishing),
         alive := if s.helpers[h].1.Installing? then s.alive - {s.helpers[h].1.uv} else s.alive)
    case LoseOutput(h) =>
      s.(helpers := Move(s, h, Finishing))
    case DropClaim(h) =>
      s.(claim := None, helpers := Move(s, h, Relaunching), abandoned := s.abandoned + NamedInstaller(s))
    case Relaunch(h) => s.(helpers := Move(s, h, Gone), alive := s.alive - {h})
    case Kill(p) => s.(alive := s.alive - {p})
    case Preflight =>
      if s.claim.Some? && InFlight(s.claim.value, s.alive) then s
      else s.(claim := None, passed := s.passed + 1)
  }

  /** A helper that has stamped the claim and not dropped it yet. */
  predicate Owns(what: Helper) {
    what.Waiting? || what.Started? || what.Installing? || what.Finishing?
  }

  /** A stamped installer that runs, and that no helper dropped the claim over. */
  predicate Guarded(s: State, uv: Pid) {
    uv in s.stamped && uv in s.alive && uv !in s.abandoned
  }

  ghost predicate Inv(s: State) {
    && s.alive <= s.used && s.helpers.Keys <= s.used && s.stamped <= s.used
    && s.stamped !! s.helpers.Keys
    // a running helper that stamped the claim is named in it, with its installer
    && (forall h | h in s.helpers && h in s.alive && Owns(s.helpers[h].1) ::
          s.claim.Some? && s.claim.value.helper == Some(h))
    && (forall h | h in s.helpers && h in s.alive && s.helpers[h].1.Installing? ::
          s.claim.Some? && s.claim.value.installer == Some(s.helpers[h].1.uv))
    && (forall h | h in s.helpers && h in s.alive && (s.helpers[h].1.Waiting? || s.helpers[h].1.Started?) ::
          s.claim.Some? && s.claim.value.installer.None?)
    // one not yet stamped is covered by its claim's youth
    && (forall h | h in s.helpers && h in s.alive && s.helpers[h].1.Spawned? ::
          s.claim.Some? && !NamesAny(s.claim.value) && !s.claim.value.expired)
    && (forall g, h | g in s.helpers && h in s.helpers && g in s.alive && h in s.alive
          && s.helpers[g].1.Spawned? && s.helpers[h].1.Spawned? :: g == h)
    // the promise: a stamped installer that runs is named in the claim
    && (forall uv | uv in s.stamped && uv in s.alive && uv !in s.abandoned ::
          s.claim.Some? && s.claim.value.installer == Some(uv))
    && (forall h | h in s.helpers && h in s.alive && s.helpers[h].1.Started? :: s.helpers[h].1.uv !in s.stamped)
    && (forall h | h in s.helpers && (s.helpers[h].1.Started? || s.helpers[h].1.Installing?) ::
          s.helpers[h].1.uv in s.used && s.helpers[h].1.uv !in s.helpers)
    // and one the claim names is none it was dropped over
    && s.abandoned <= s.stamped
    && (s.claim.Some? && s.claim.value.installer.Some? ==>
          s.claim.value.installer.value in s.stamped && s.claim.value.installer.value !in s.abandoned)
  }

  lemma WriteClaimKeeps(s: State, job: Job, h: Pid)
    requires Inv(s) && Enabled(s, WriteClaim(job, h))
    ensures Inv(Apply(s, WriteClaim(job, h)))
  {
  }

  lemma AgeKeeps(s: State)
    requires Inv(s) && Enabled(s, Age)
    ensures Inv(Apply(s, Age))
  {
  }

  lemma RefuseKeeps(s: State, h: Pid)
    requires Inv(s) && Enabled(s, Refuse(h))
    ensures Inv(Apply(s, Refuse(h)))
  {
  }

  lemma StampHelperKeeps(s: State, h: Pid)
    requires Inv(s) && Enabled(s, StampHelper(h))
    ensures Inv(Apply(s, StampHelper(h)))
  {
  }

  lemma StartInstallerKeeps(s: State, h: Pid, uv: Pid)
    requires Inv(s) && Enabled(s, StartInstaller(h, uv))
    ensures Inv(Apply(s, StartInstaller(h, uv)))
  {
  }

  lemma StampInstallerKeeps(s: State, h: Pid)
    requires Inv(s) && Enabled(s, StampInstaller(h))
    ensures Inv(Apply(s, StampInstaller(h)))
  {
  }

  lemma InstallerEndsKeeps(s: State, uv: Pid)
    requires Inv(s) && Enabled(s, InstallerEnds(uv))
    ensures Inv(Apply(s, InstallerEnds(uv)))
  {
  }

  lemma ReapKeeps(s: State, h: Pid)
    requires Inv(s) && Enabled(s, Reap(h))
    ensures Inv(Apply(s, Reap(h)))
  {
  }

  lemma InterruptKeeps(s: State, h: Pid)
    requires Inv(s) && Enabled(s, Interrupt(h))
    ensures Inv(Apply(s, Interrupt(h)))
  {
  }

  lemma LoseOutputKeeps(s: State, h: Pid)
    requires Inv(s) && Enabled(s, LoseOutput(h))
    ensures Inv(Apply(s, LoseOutput(h)))
  {
  }

  lemma DropClaimKeeps(s: State, h: Pid)
    requires Inv(s) && Enabled(s, DropClaim(h))
    ensures Inv(Apply(s, DropClaim(h)))
  {
  }

  lemma RelaunchKeeps(s: State, h: Pid)
    requires Inv(s) && Enabled(s, Relaunch(h))
    ensures Inv(Apply(s, Relaunch(h)))
  {
  }

  lemma KillKeeps(s: State, p: Pid)
    requires Inv(s) && Enabled(s, Kill(p))
    ensures Inv(Apply(s, Kill(p)))
  {
  }

  lemma PreflightKeeps(s: State)
    requires Inv(s) && Enabled(s, Preflight)
    ensures Inv(Apply(s, Preflight))
  {
  }

  lemma StepKeeps(s: State, step: Step)
    requires Inv(s) && Enabled(s, step)
    ensures Inv(Apply(s, step))
  {
    hide Inv;
    match step
    case WriteClaim(job, h) => WriteClaimKeeps(s, job, h);
    case Age => AgeKeeps(s);
    case Refuse(h) => RefuseKeeps(s, h);
    case StampHelper(h) => StampHelperKeeps(s, h);
    case StartInstaller(h, uv) => StartInstallerKeeps(s, h, uv);
    case StampInstaller(h) => StampInstallerKeeps(s, h);
    case InstallerEnds(uv) => InstallerEndsKeeps(s, uv);
    case Reap(h) => ReapKeeps(s, h);
    case Interrupt(h) => InterruptKeeps(s, h);
    case LoseOutput(h) => LoseOutputKeeps(s, h);
    case DropClaim(h) => DropClaimKeeps(s, h);
    case Relaunch(h) => RelaunchKeeps(s, h);
    case Kill(p) => KillKeeps(s, p);
    case Preflight => PreflightKeeps(s);
  }

  ghost predicate Possible(s: State, steps: seq<Step>)
    decreases |steps|
  {
    steps == [] || (Enabled(s, steps[0]) && Possible(Apply(s, steps[0]), steps[1..]))
  }

  ghost function Exec(s: State, steps: seq<Step>): State
    requires Possible(s, steps)
    decreases |steps|
  {
    if steps == [] then s else Exec(Apply(s, steps[0]), steps[1..])
  }

  ghost predicate Reachable(s: State) {
    exists steps: seq<Step> :: Possible(Init(), steps) && Exec(Init(), steps) == s
  }

  lemma {:induction false} ExecKeeps(s: State, steps: seq<Step>)
    requires Inv(s) && Possible(s, steps)
    ensures Inv(Exec(s, steps))
    decreases |steps|
  {
    hide Inv;
    if steps != [] {
      StepKeeps(s, steps[0]);
      ExecKeeps(Apply(s, steps[0]), steps[1..]);
    }
  }

  lemma ReachableInv(s: State)
    requires Reachable(s)
    ensures Inv(s)
  {
    var steps: seq<Step> :| Possible(Init(), steps) && Exec(Init(), steps) == s;
    ExecKeeps(Init(), steps);
  }

  /**
   In every reachable state a stamped installer that runs is named in the
   claim, orphaned or not, and no start, dev or update gets past the
   preflight or clears the claim under it.
   */
  lemma NoStartOverInstaller(s: State, uv: Pid)
    requires Reachable(s) && Guarded(s, uv)
    ensures s.claim.Some? && s.claim.value.installer == Some(uv)
    ensures Apply(s, Preflight) == s
  {
    ReachableInv(s);
  }

  /** A stamped installer that runs is named in the claim exactly unless a helper dropped the claim over it. */
  lemma NamedIff(s: State, uv: Pid)
    requires Reachable(s) && uv in s.stamped && uv in s.alive
    ensures s.claim.Some? && s.claim.value.installer == Some(uv) <==> uv !in s.abandoned
  {
    ReachableInv(s);
  }

  /** Nor while the helper that stamped the claim is still at work on it. */
  lemma NoStartOverHelper(s: State, h: Pid)
    requires Reachable(s) && h in s.helpers && h in s.alive && Owns(s.helpers[h].1)
    ensures Apply(s, Preflight) == s
    ensures s.claim.Some? && s.claim.value.helper == Some(h)
  {
    ReachableInv(s);
  }

  /** Two stamped installers never rewrite the venv at the same time. */
  lemma OneInstaller(s: State, u: Pid, v: Pid)
    requires Reachable(s) && Guarded(s, u) && Guarded(s, v)
    ensures u == v
  {
    ReachableInv(s);
  }

  lemma {:induction false} ExecAppend(s: State, steps: seq<Step>, last: Step)
    requires Possible(s, steps) && Enabled(Exec(s, steps), last)
    ensures Possible(s, steps + [last]) && Exec(s, steps + [last]) == Apply(Exec(s, steps), last)
    decreases |steps|
  {
    if steps == [] {
      assert (steps + [last])[1..] == [];
    } else {
      ExecAppend(Apply(s, steps[0]), steps[1..], last);
      assert (steps + [last])[1..] == steps[1..] + [last];
    }
  }

  lemma Extend(s: State, step: Step)
    requires Reachable(s) && Enabled(s, step)
    ensures Reachable(Apply(s, step))
  {
    var steps: seq<Step> :| Possible(Init(), steps) && Exec(Init(), steps) == s;
    ExecAppend(Init(), steps, step);
  }

  /** A helper that has just started its installer, over any state with no claim. */
  lemma UpToSpawn(s: State, h: Pid, uv: Pid) returns (t: State)
    requires Reachable(s) && s.claim.None? && h !in s.used && uv !in s.used && h != uv
    ensures Reachable(t)
    ensures t == s.(claim := Some(Claim(0, Some(h), None, false)),
                    helpers := s.helpers[h := (0, Started(uv))],
                    alive := s.alive + {h} + {uv}, used := s.used + {h} + {uv})
  {
    t := Taken(s, WriteClaim(0, h));
    t := Taken(t, StampHelper(h));
    t := Taken(t, StartInstaller(h, uv));
    assert t.helpers == s.helpers[h := (0, Started(uv))];
  }

  lemma InitReachable()
    ensures Reachable(Init())
  {
    assert Possible(Init(), []) && Exec(Init(), []) == Init();
  }

  /**
   A helper killed between starting `uv` and stamping it leaves an installer the
   claim does not name, and the next start goes ahead.
   */
  lemma UnstampedOrphanIsNotSeen()
    ensures exists s, uv :: Reachable(s) && uv in s.alive && uv !in s.helpers && uv !in s.stamped
                         && Apply(s, Preflight).passed == s.passed + 1
  {
    InitReachable();
    var s := UpToSpawn(Init(), 10, 11);
    s := Taken(s, Kill(10));
    assert 11 in s.alive;
  }

  /**
   So does one interrupted there: `installer` is still empty, so there is
   nothing to stop, and the helper goes on to report, drop the claim and bring
   the server back beside the installer.
   */
  lemma InterruptedOrphanIsNotSeen()
    ensures exists s, uv, h :: Reachable(s) && uv in s.alive && uv !in s.helpers && uv !in s.stamped
                            && At(s, h, Relaunching) && s.claim.None? && Apply(s, Preflight).passed == s.passed + 1
  {
    var s := Interrupted();
    assert Apply(s, Preflight).passed == s.passed + 1 && 11 in s.alive && At(s, 10, Relaunching);
  }

  /** The helper interrupted just after `Popen`, and past its claim. */
  lemma Interrupted() returns (s: State)
    ensures Reachable(s) && s.claim.None? && s.stamped == {} && 11 in s.alive && 11 !in s.helpers && At(s, 10, Relaunching)
  {
    hide Reachable, Exec, Possible;
    InitReachable();
    s := UpToSpawn(Init(), 10, 11);
    s := Taken(s, Interrupt(10));
    s := Taken(s, DropClaim(10));
  }

  /** The claim dropped while the installer it named still runs. */
  lemma Abandon() returns (s: State)
    ensures Reachable(s) && s.claim.None? && 11 in s.stamped && 11 in s.alive
    ensures s.used == {10, 11}
  {
    InitReachable();
    s := UpToSpawn(Init(), 10, 11);
    s := Taken(s, StampInstaller(10));
    s := Taken(s, LoseOutput(10));
    s := Taken(s, DropClaim(10));
  }

  /**
   The other way to lose sight of one: an `OSError` while the helper echoes the
   installer's output (a full disk under its own log, say) is answered like a
   failed spawn. The claim goes, the installer stays, and a second installer
   can be stamped beside it.
   */
  lemma AbandonedInstallerIsNotSeen()
    ensures exists s, uv :: Reachable(s) && uv in s.stamped && uv in s.alive
                         && Apply(s, Preflight).passed == s.passed + 1
    ensures exists s, u, v :: Reachable(s) && u != v && u in s.stamped && u in s.alive
                           && v in s.stamped && v in s.alive
  {
    var s := Abandon();
    assert Apply(s, Preflight).passed == s.passed + 1;
    s := UpToSpawn(s, 20, 21);
    s := Taken(s, StampInstaller(20));
    assert 11 in s.alive && 21 in s.alive;
  }

  lemma Taken(s: State, step: Step) returns (t: State)
    requires Reachable(s) && Enabled(s, step)
    ensures Reachable(t) && t == Apply(s, step)
  {
    Extend(s, step);
    t := Apply(s, step);
  }

  // ── what the steps do ─────────────────────────────────────────────────

  /** No claim, or one whose processes are all gone, is cleared and passed; so is one that names none, once it is old. */
  lemma PreflightPasses(s: State, job: Job, h: Pid, uv: Pid, aged: bool)
    ensures s.claim.None? ==> Apply(s, Preflight) == s.(passed := s.passed + 1)
    ensures s.claim == Some(Claim(job, None, None, true)) ==> Apply(s, Preflight) == s.(claim := None, passed := s.passed + 1)
    ensures s.claim == Some(Claim(job, Some(h), None, aged)) && h !in s.alive ==>
      Apply(s, Preflight) == s.(claim := None, passed := s.passed + 1)
    ensures s.claim == Some(Claim(job, Some(h), Some(uv), aged)) && h !in s.alive && uv !in s.alive ==>
      Apply(s, Preflight) == s.(claim := None, passed := s.passed + 1)
  {
  }

  /** One that names no process yet is waited for while it is young, and one that names a running process for ever; no other is written over it. */
  lemma PreflightWaits(s: State, job: Job, h: Pid, uv: Pid, aged: bool, other: Job, next: Pid)
    requires
      || s.claim == Some(Claim(job, None, None, false))
      || (s.claim == Some(Claim(job, Some(h), None, aged)) && h in s.alive)
      || (s.claim == Some(Claim(job, Some(h), Some(uv), aged)) && (h in s.alive || uv in s.alive))
    ensures Apply(s, Preflight) == s && !Enabled(s, WriteClaim(other, next))
  {
  }

  /** A claim is written for a job, and the helper started for it enters itself. */
  lemma Stamping(s: State, job: Job, h: Pid)
    requires s.claim.None? && h !in s.used
    ensures Enabled(s, WriteClaim(job, h))
    ensures var t := Apply(s, WriteClaim(job, h));
      && t == s.(claim := Some(Claim(job, None, None, false)), helpers := s.helpers[h := (job, Spawned)],
                 alive := s.alive + {h}, used := s.used + {h})
      && Enabled(t, StampHelper(h))
      && Apply(t, StampHelper(h)) == t.(claim := Some(Claim(job, Some(h), None, false)), helpers := t.helpers[h := (job, Waiting)])
  {
  }

  /** The installer is started, and then entered beside the helper. */
  lemma Installs(s: State, job: Job, h: Pid, uv: Pid, aged: bool)
    requires s.claim == Some(Claim(job, Some(h), None, aged)) && h in s.helpers && s.helpers[h] == (job, Waiting)
    requires h in s.alive && uv !in s.used
    ensures Enabled(s, StartInstaller(h, uv))
    ensures var t := Apply(s, StartInstaller(h, uv));
      && t == s.(helpers := s.helpers[h := (job, Started(uv))], alive := s.alive + {uv}, used := s.used + {uv})
      && Enabled(t, StampInstaller(h))
      && Apply(t, StampInstaller(h)) ==
           t.(claim := Some(Claim(job, Some(h), Some(uv), aged)), helpers := t.helpers[h := (job, Installing(uv))],
              stamped := t.stamped + {uv})
  {
  }

  /** A helper waits for its installer to end: it cannot go on before, and if it is killed the installer runs on. */
  lemma Reaping(s: State, job: Job, h: Pid, uv: Pid)
    requires h in s.helpers && s.helpers[h] == (job, Installing(uv)) && h in s.alive && uv in s.alive && uv !in s.helpers
    ensures !Enabled(s, Reap(h)) && Enabled(s, InstallerEnds(uv)) && Enabled(s, Kill(h))
    ensures Apply(s, Kill(h)) == s.(alive := s.alive - {h})
    ensures var t := Apply(s, InstallerEnds(uv));
      && t == s.(alive := s.alive - {uv})
      && Enabled(t, Reap(h)) && Apply(t, Reap(h)) == t.(helpers := t.helpers[h := (job, Finishing)])
  {
    assert h != uv;
  }

  /** An interrupt stops the installer the helper knows of, and no other; lost output stops none. */
  lemma Stopping(s: State, job: Job, h: Pid, uv: Pid)
    requires h in s.helpers && h in s.alive
    ensures s.helpers[h] == (job, Installing(uv)) ==>
      && Enabled(s, Interrupt(h)) && Apply(s, Interrupt(h)) == s.(helpers := s.helpers[h := (job, Finishing)], alive := s.alive - {uv})
      && Enabled(s, LoseOutput(h)) && Apply(s, LoseOutput(h)) == s.(helpers := s.helpers[h := (job, Finishing)])
    ensures s.helpers[h] in {(job, Waiting), (job, Started(uv))} ==>
      Enabled(s, Interrupt(h)) && Apply(s, Interrupt(h)) == s.(helpers := s.helpers[h := (job, Finishing)])
  {
  }

  /** The helper's last steps: the claim goes, then the server comes back; an installer it drops the claim over is remembered. */
  lemma Returning(s: State, job: Job, h: Pid, uv: Pid, aged: bool)
    requires h in s.helpers && s.helpers[h] == (job, Finishing) && h in s.alive
    requires s.claim == Some(Claim(job, Some(h), Some(uv), aged))
    ensures Enabled(s, DropClaim(h)) && !Enabled(s, Relaunch(h))
    ensures var t := Apply(s, DropClaim(h));
      && t == s.(claim := None, helpers := s.helpers[h := (job, Relaunching)],
                 abandoned := if uv in s.alive then s.abandoned + {uv} else s.abandoned)
      && Enabled(t, Relaunch(h))
      && Apply(t, Relaunch(h)) == t.(helpers := t.helpers[h := (job, Gone)], alive := t.alive - {h})
  {
  }

  /** A claim the helper finds invalid goes with nothing installed; a young claim grows old only once its helper is past its start. */
  lemma Refusing(s: State, job: Job, h: Pid)
    requires h in s.helpers && s.helpers[h] == (job, Spawned) && h in s.alive
    ensures Enabled(s, Refuse(h)) && !Enabled(s, Age)
    ensures Apply(s, Refuse(h)) == s.(claim := None, helpers := s.helpers[h := (job, Gone)], alive := s.alive - {h})
  {
  }

  /** Once no helper is still to enter itself, time makes the claim old, and nothing else. */
  lemma Aging(s: State, c: Claim)
    requires s.claim == Some(c) && forall h | h in s.helpers && h in s.alive :: s.helpers[h].1 != Spawned
    ensures Enabled(s, Age) && Apply(s, Age) == s.(claim := Some(c.(expired := true)))
  {
  }

  /** A helper that was killed does nothing more. */
  lemma DeadHelper(s: State, h: Pid, uv: Pid)
    requires h !in s.alive
    ensures !Enabled(s, Refuse(h)) && !Enabled(s, StampHelper(h)) && !Enabled(s, StartInstaller(h, uv)) && !Enabled(s, StampInstaller(h))
    ensures !Enabled(s, Reap(h)) && !Enabled(s, Interrupt(h)) && !Enabled(s, LoseOutput(h)) && !Enabled(s, DropClaim(h)) && !Enabled(s, Relaunch(h))
  {
  }
}
