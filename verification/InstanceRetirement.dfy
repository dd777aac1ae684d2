/**
 `retire_left_instances`, `InstanceLock` and the lock lifetime in `run_agent`
 (`backend/app/agent/cli.py`), for one instance id: agents that work in the
 id's directory under its lock, and retiring agents that rename it away.
 */
module InstanceRetirement {
  import opened Wrappers
  import L = FileLocks

  type Proc = L.Proc
  type DirId = nat

  datatype State = State(
    locks: L.State,
    dir: Option<DirId>,         // what <instances>/<id> is now
    working: map<Proc, DirId>,  // agents whose runner uses a directory, and which
    trash: set<DirId>,          // directories retired
    nextDir: DirId                // numbers below it have been used
  )

  datatype Step =
    | LockStep(step: L.Step)
    | Begin(p: Proc)    // run_agent: acquire returned True, the runner takes the directory
    | Finish(p: Proc)   // its finally: rmtree, then release
    | Crash(p: Proc)
    | Rename(p: Proc)   // retire_left_instances: lock.held, path.rename(trash)

  function Init(flock: bool): State {
    State(L.Init(flock), None, map[], {}, 0)
  }

  /** `acquire` returned True: the lock is held, or there are no locks here. */
  predicate Acquired(s: State, p: Proc) {
    L.PhaseOf(s.locks, p).Held? || L.PhaseOf(s.locks, p).Passed?
  }

  predicate Enabled(s: State, step: Step) {
    match step
    case LockStep(l) =>
      // an agent at work neither releases nor, as far as this step goes, dies
      L.Enabled(s.locks, l) && !l.Crash? && l.p !in s.working
    case Begin(p) => Acquired(s, p) && p !in s.working
    case Finish(p) => p in s.working
    case Crash(p) => true
    case Rename(p) =>
      // `if not lock.held: return []` comes first
      L.PhaseOf(s.locks, p).Held? && p !in s.working && s.dir.Some?
  }

  function Apply(s: State, step: Step): State
    requires Enabled(s, step)
  {
    match step
    case LockStep(l) => s.(locks := L.Apply(s.locks, l))
    case Begin(p) =>
      var d := if s.dir.Some? then s.dir.value else s.nextDir;
      s.(dir := Some(d), working := s.working[p := d], nextDir := if s.dir.Some? then s.nextDir else s.nextDir + 1)
    case Finish(p) =>
      s.(dir := None, working := s.working - {p})
    case Crash(p) =>
      s.(locks := L.Apply(s.locks, L.Crash(p)), working := s.working - {p})
    case Rename(p) =>
      s.(dir := None, trash := s.trash + {s.dir.value})
  }

  ghost predicate Inv(s: State) {
    && L.Inv(s.locks)
    && (forall p | p in s.working :: Acquired(s, p))
    && (s.locks.flock ==> forall p | p in s.working :: s.dir == Some(s.working[p]))
    && (s.dir.Some? ==> s.dir.value !in s.trash && s.dir.value < s.nextDir)
    && (forall d | d in s.trash :: d < s.nextDir)
    && (!s.locks.flock ==> s.trash == {})
  }

  lemma StepKeeps(s: State, step: Step)
    requires Inv(s) && Enabled(s, step)
    ensures Inv(Apply(s, step))
  {
    match step
    case LockStep(l) =>
      L.StepKeeps(s.locks, l);
      L.OthersUntouched(s.locks, l);
    case Crash(p) =>
      L.StepKeeps(s.locks, L.Crash(p));
      L.OthersUntouched(s.locks, L.Crash(p));
    case Finish(p) =>
    case Begin(p) =>
    case Rename(p) =>
  }

  ghost predicate Possible(s: State, steps: seq<Step>)
    decreases |steps|
  {
    steps == [] || (Enabled(s, steps[0]) && Possible(Apply(s, steps[0]), steps[1..]))
  }

  ghost function Exec(s: State, steps: seq<Step>): State
    requires Possible(s, steps)
    decreases |steps|
  {
    if steps == [] then s else Exec(Apply(s, steps[0]), steps[1..])
  }

  lemma {:induction false} ExecKeeps(s: State, steps: seq<Step>)
    requires Inv(s) && Possible(s, steps)
    ensures Inv(Exec(s, steps)) && Exec(s, steps).locks.flock == s.locks.flock
    decreases |steps|
  {
    if steps != [] {
      StepKeeps(s, steps[0]);
      FlockConstant(s, steps[0]);
      ExecKeeps(Apply(s, steps[0]), steps[1..]);
    }
  }

  lemma FlockConstant(s: State, step: Step)
    requires Enabled(s, step)
    ensures Apply(s, step).locks.flock == s.locks.flock
  {
  }

  /**
   Where the file system has locks, an agent inside its lock lifetime still
   has the directory it took, under the id's name and not in the trash, and
   no other agent of the id is at work.
   */
  lemma WorkingDirectoryStays(steps: seq<Step>, p: Proc)
    requires Possible(Init(true), steps) && p in Exec(Init(true), steps).working
    ensures var s := Exec(Init(true), steps);
      && s.dir == Some(s.working[p])
      && s.working[p] !in s.trash
      && s.working.Keys == {p}
  {
    ExecKeeps(Init(true), steps);
    var s := Exec(Init(true), steps);
    forall q | q in s.working ensures q == p {
      assert Acquired(s, q) && Acquired(s, p);
    }
    assert p in s.working.Keys;
  }

  /** Where it has none, a retiring agent moves nothing: a free lock would prove nothing. */
  lemma NothingRetiredWithoutLocks(steps: seq<Step>)
    requires Possible(Init(false), steps)
    ensures Exec(Init(false), steps).trash == {}
  {
    ExecKeeps(Init(false), steps);
  }

  // ── what the steps do ─────────────────────────────────────────────────

  /** An agent takes the directory that is there, or a fresh one, and leaves none when it is done. */
  lemma Working(s: State, p: Proc)
    requires (L.PhaseOf(s.locks, p).Held? || L.PhaseOf(s.locks, p).Passed?) && p !in s.working
    ensures Enabled(s, Begin(p))
    ensures var t := Apply(s, Begin(p));
      && (s.dir.Some? ==> t == s.(working := s.working[p := s.dir.value]))
      && (s.dir.None? ==> t == s.(dir := Some(s.nextDir), working := s.working[p := s.nextDir], nextDir := s.nextDir + 1))
      && Enabled(t, Finish(p)) && Apply(t, Finish(p)) == t.(dir := None, working := t.working - {p})
  {
  }

  /** A retiring agent moves the directory to the trash; the next agent of the id takes a fresh one. */
  lemma Retiring(s: State, p: Proc, d: DirId)
    requires L.PhaseOf(s.locks, p).Held? && p !in s.working && s.dir == Some(d)
    ensures Enabled(s, Rename(p))
    ensures var t := Apply(s, Rename(p));
      && t == s.(dir := None, trash := s.trash + {d})
      && !Enabled(t, Rename(p))
      && Enabled(t, Begin(p)) && Apply(t, Begin(p)).dir == Some(s.nextDir)
  {
  }

  /** A crash leaves the directory, and drops the lock. */
  lemma Crashing(s: State, p: Proc)
    ensures Apply(s, Crash(p)) == s.(locks := L.Apply(s.locks, L.Crash(p)), working := s.working - {p})
    ensures L.PhaseOf(Apply(s, Crash(p)).locks, p).Idle?
  {
  }

  /** Up to its lock an agent goes by the lock alone, and at work it does not touch it. */
  lemma Locking(s: State, p: Proc, i: L.Inode)
    requires s.locks.flock && L.PhaseOf(s.locks, p).Idle? && s.locks.entry.None? && !L.InUse(s.locks, i) && i !in s.locks.holder
    requires p !in s.working
    ensures Enabled(s, LockStep(L.Open(p, i))) && Enabled(Apply(s, LockStep(L.Open(p, i))), LockStep(L.Flock(p)))
    ensures var t := Apply(Apply(s, LockStep(L.Open(p, i))), LockStep(L.Flock(p)));
      && Enabled(t, LockStep(L.Recheck(p)))
      && var u := Apply(t, LockStep(L.Recheck(p)));
         && u == s.(locks := u.locks) && L.PhaseOf(u.locks, p) == L.Held(i) && Enabled(u, Begin(p))
         && !Enabled(Apply(u, Begin(p)), LockStep(L.Close(p))) && !Enabled(Apply(u, Begin(p)), LockStep(L.Unlink(p)))
  {
    L.Acquiring(s.locks, p, i);
  }
}
