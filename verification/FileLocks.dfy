/**
 `FileLock` of `backend/app/agent/cli.py`: an exclusive `flock` whose file is
 unlinked while it is still held. Any number of lock objects (in any number
 of processes) on one path, one system call per step, a crash possible
 between any two, and an inode number given out again as soon as no directory
 entry and no open file uses it.
 */
module FileLocks {
  import opened Wrappers

  type Proc = nat
  type Inode = nat

  datatype Phase =
    | Idle
    | Opened(ino: Inode)     // open(path), flock not answered yet
    | Locked(ino: Inode)     // flock granted, the path not checked again yet
    | Held(ino: Inode)       // acquire returned, self._file is set
    | Unlinked(ino: Inode)   // release removed the path, the file still open
    | Passed                 // acquire returned True where the file system has no locks

  datatype State = State(
    flock: bool,                // the file system supports flock
    entry: Option<Inode>,       // what the path names
    phases: map<Proc, Phase>,   // Idle when absent
    holder: map<Inode, Proc>    // who has the flock of an open file
  )

  datatype Step =
    | Open(p: Proc, unused: Inode)
    | Flock(p: Proc)
    | WouldBlock(p: Proc)
    | NoLocks(p: Proc)
    | Recheck(p: Proc)
    | Unlink(p: Proc)
    | Close(p: Proc)
    | Crash(p: Proc)

  function Init(flock: bool): State {
    State(flock, None, map[], map[])
  }

  function PhaseOf(s: State, p: Proc): Phase {
    if p in s.phases then s.phases[p] else Idle
  }

  predicate HasOpen(ph: Phase, i: Inode) {
    (ph.Opened? || ph.Locked? || ph.Held? || ph.Unlinked?) && ph.ino == i
  }

  predicate InUse(s: State, i: Inode) {
    s.entry == Some(i) || exists p | p in s.phases :: HasOpen(s.phases[p], i)
  }

  predicate Enabled(s: State, step: Step) {
    match step
    case Open(p, unused) => PhaseOf(s, p).Idle? && (s.entry.None? ==> !InUse(s, unused))
    case Flock(p) => s.flock && PhaseOf(s, p).Opened? && PhaseOf(s, p).ino !in s.holder
    case WouldBlock(p) => s.flock && PhaseOf(s, p).Opened? && PhaseOf(s, p).ino in s.holder
    case NoLocks(p) => !s.flock && PhaseOf(s, p).Opened?
    case Recheck(p) => PhaseOf(s, p).Locked?
    case Unlink(p) => PhaseOf(s, p).Held?
    case Close(p) => PhaseOf(s, p).Held? || PhaseOf(s, p).Unlinked? || PhaseOf(s, p).Passed?
    case Crash(p) => true
  }

  /** Closing a file drops the lock it carries. */
  function Closed(s: State, p: Proc): State {
    var ph := PhaseOf(s, p);
    s.(phases := s.phases[p := Idle],
       holder := if (ph.Locked? || ph.Held? || ph.Unlinked?) then s.holder - {ph.ino} else s.holder)
  }

  function Apply(s: State, step: Step): State
    requires Enabled(s, step)
  {
    match step
    case Open(p, unused) =>
      var i := if s.entry.Some? then s.entry.value else unused;
      s.(entry := Some(i), phases := s.phases[p := Opened(i)])
    case Flock(p) =>
      var i := PhaseOf(s, p).ino;
      s.(phases := s.phases[p := Locked(i)], holder := s.holder[i := p])
    case WouldBlock(p) => Closed(s, p)
    case NoLocks(p) => s.(phases := s.phases[p := Passed])
    case Recheck(p) =>
      var i := PhaseOf(s, p).ino;
      if s.entry == Some(i) then s.(phases := s.phases[p := Held(i)]) else Closed(s, p)
    case Unlink(p) =>
      s.(entry := None, phases := s.phases[p := Unlinked(PhaseOf(s, p).ino)])
    case Close(p) => Closed(s, p)
    case Crash(p) => Closed(s, p)
  }

  predicate HasLock(ph: Phase, i: Inode) {
    (ph.Locked? || ph.Held? || ph.Unlinked?) && ph.ino == i
  }

  ghost predicate Inv(s: State) {
    // the kernel's view of a lock is the process's own
    && (forall p | p in s.phases && (s.phases[p].Locked? || s.phases[p].Held? || s.phases[p].Unlinked?) ::
          s.phases[p].ino in s.holder && s.holder[s.phases[p].ino] == p)
    && (forall i | i in s.holder :: s.holder[i] in s.phases && HasLock(s.phases[s.holder[i]], i))
    // a held lock is on the file the path names, an unlinked one never is
    && (forall p | p in s.phases && s.phases[p].Held? :: s.entry == Some(s.phases[p].ino))
    && (forall p | p in s.phases && s.phases[p].Unlinked? :: s.entry != Some(s.phases[p].ino))
    // where there are no locks nothing is locked
    && (!s.flock ==> s.holder == map[])
    && (s.flock ==> forall p | p in s.phases :: !s.phases[p].Passed?)
  }

  lemma OpenKeeps(s: State, p: Proc, unused: Inode)
    requires Inv(s) && Enabled(s, Open(p, unused))
    ensures Inv(Apply(s, Open(p, unused)))
  {
    if s.entry.None? {
      assert forall q | q in s.phases :: !HasOpen(s.phases[q], unused);
    }
  }

  lemma ClosedKeeps(s: State, p: Proc)
    requires Inv(s)
    ensures Inv(Closed(s, p))
  {
  }

  lemma RecheckKeeps(s: State, p: Proc)
    requires Inv(s) && Enabled(s, Recheck(p))
    ensures Inv(Apply(s, Recheck(p)))
  {
    ClosedKeeps(s, p);
  }

  lemma StepKeeps(s: State, step: Step)
    requires Inv(s) && Enabled(s, step)
    ensures Inv(Apply(s, step))
  {
    match step
    case Open(p, unused) => OpenKeeps(s, p, unused);
    case Recheck(p) => RecheckKeeps(s, p);
    case WouldBlock(p) => ClosedKeeps(s, p);
    case Close(p) => ClosedKeeps(s, p);
    case Crash(p) => ClosedKeeps(s, p);
    case Flock(p) =>
    case NoLocks(p) =>
    case Unlink(p) =>
  }

  /** A step of one lock object changes no other's phase. */
  lemma OthersUntouched(s: State, step: Step)
    requires Enabled(s, step)
    ensures forall p | p != step.p :: PhaseOf(Apply(s, step), p) == PhaseOf(s, p)
    ensures Apply(s, step).flock == s.flock
  {
  }

  ghost predicate Possible(s: State, steps: seq<Step>)
    decreases |steps|
  {
    steps == [] || (Enabled(s, steps[0]) && Possible(Apply(s, steps[0]), steps[1..]))
  }

  ghost function Exec(s: State, steps: seq<Step>): State
    requires Possible(s, steps)
    decreases |steps|
  {
    if steps == [] then s else Exec(Apply(s, steps[0]), steps[1..])
  }

  lemma {:induction false} ExecKeeps(s: State, steps: seq<Step>)
    requires Inv(s) && Possible(s, steps)
    ensures Inv(Exec(s, steps))
    decreases |steps|
  {
    if steps != [] {
      StepKeeps(s, steps[0]);
      ExecKeeps(Apply(s, steps[0]), steps[1..]);
    }
  }

  lemma ReachableInv(s: State)
    requires Reachable(s)
    ensures Inv(s)
  {
    var steps: seq<Step> :| Possible(Init(s.flock), steps) && Exec(Init(s.flock), steps) == s;
    ExecKeeps(Init(s.flock), steps);
  }

  /** Two lock objects are never both between an `acquire` that holds and its `release`. */
  lemma MutualExclusion(s: State, p: Proc, q: Proc)
    requires Reachable(s) && PhaseOf(s, p).Held? && PhaseOf(s, q).Held?
    ensures p == q
  {
    ReachableInv(s);
  }

  /** `release` with unlink only ever removes the file its own lock is on. */
  lemma UnlinksOwnFile(s: State, p: Proc)
    requires Reachable(s) && Enabled(s, Unlink(p))
    ensures s.entry == Some(PhaseOf(s, p).ino) && PhaseOf(s, p).ino in s.holder && s.holder[PhaseOf(s, p).ino] == p
  {
    ReachableInv(s);
  }

  /** One more step at the end of a possible sequence. */
  lemma {:induction false} ExecAppend(s: State, steps: seq<Step>, last: Step)
    requires Possible(s, steps) && Enabled(Exec(s, steps), last)
    ensures Possible(s, steps + [last]) && Exec(s, steps + [last]) == Apply(Exec(s, steps), last)
    decreases |steps|
  {
    if steps == [] {
      assert (steps + [last])[1..] == [];
    } else {
      ExecAppend(Apply(s, steps[0]), steps[1..], last);
      assert (steps + [last])[1..] == steps[1..] + [last];
    }
  }

  ghost predicate Reachable(s: State) {
    exists steps: seq<Step> :: Possible(Init(s.flock), steps) && Exec(Init(s.flock), steps) == s
  }

  lemma InitReachable(flock: bool)
    ensures Reachable(Init(flock))
  {
    assert Possible(Init(flock), []) && Exec(Init(flock), []) == Init(flock);
  }

  lemma Extend(s: State, step: Step)
    requires Reachable(s) && Enabled(s, step)
    ensures Reachable(Apply(s, step)) && Apply(s, step).flock == s.flock
  {
    var steps: seq<Step> :| Possible(Init(s.flock), steps) && Exec(Init(s.flock), steps) == s;
    ExecAppend(Init(s.flock), steps, step);
  }

  /**
   Why `acquire` looks at the path again: a waiter can be granted the lock of
   a file already unlinked while another object holds the lock of the fresh
   one. The re-check sends exactly that waiter back.
   */
  lemma DeadLockGranted()
    ensures exists s :: Reachable(s) && PhaseOf(s, 1) == Locked(0) && PhaseOf(s, 2) == Held(1)
                     && PhaseOf(Apply(s, Recheck(1)), 1).Idle?
  {
    hide Reachable, Exec, Possible;
    InitReachable(true);
    var s := Init(true);
    Extend(s, Open(0, 0)); s := Apply(s, Open(0, 0));
    Extend(s, Open(1, 5)); s := Apply(s, Open(1, 5));
    Extend(s, Flock(0)); s := Apply(s, Flock(0));
    Extend(s, Recheck(0)); s := Apply(s, Recheck(0));
    Extend(s, Unlink(0)); s := Apply(s, Unlink(0));
    assert !InUse(s, 1);
    Extend(s, Open(2, 1)); s := Apply(s, Open(2, 1));
    Extend(s, Close(0)); s := Apply(s, Close(0));
    Extend(s, Flock(1)); s := Apply(s, Flock(1));
    Extend(s, Flock(2)); s := Apply(s, Flock(2));
    Extend(s, Recheck(2)); s := Apply(s, Recheck(2));
    assert Enabled(s, Recheck(1));
  }

  // ── what the steps do ─────────────────────────────────────────────────

  /** On a free path an object makes the file, has its lock and finds it there still. */
  lemma Acquiring(s: State, p: Proc, i: Inode)
    requires s.flock && PhaseOf(s, p).Idle? && s.entry.None? && !InUse(s, i) && i !in s.holder
    ensures Enabled(s, Open(p, i)) && Enabled(Apply(s, Open(p, i)), Flock(p))
    ensures var t := Apply(Apply(s, Open(p, i)), Flock(p));
      && t == s.(entry := Some(i), phases := s.phases[p := Opened(i)][p := Locked(i)], holder := s.holder[i := p])
      && Enabled(t, Recheck(p)) && Apply(t, Recheck(p)) == t.(phases := t.phases[p := Held(i)])
  {
  }

  /** On a path whose file is locked it is told to wait, and has changed nothing. */
  lemma Waiting(s: State, p: Proc, i: Inode, unused: Inode)
    requires s.flock && PhaseOf(s, p).Idle? && s.entry == Some(i) && i in s.holder
    ensures Enabled(s, Open(p, unused))
    ensures var t := Apply(s, Open(p, unused));
      && t == s.(phases := s.phases[p := Opened(i)])
      && !Enabled(t, Flock(p)) && Enabled(t, WouldBlock(p)) && Apply(t, WouldBlock(p)) == s.(phases := t.phases[p := Idle])
  {
  }

  /** A granted lock of a file the path no longer names is dropped, and nobody else's with it. */
  lemma Losing(s: State, p: Proc, i: Inode)
    requires PhaseOf(s, p) == Locked(i) && s.entry != Some(i)
    ensures Apply(s, Recheck(p)) == s.(phases := s.phases[p := Idle], holder := s.holder - {i})
  {
  }

  /** A release without unlink frees the lock and leaves the file where it is; with it, the path names nothing first. */
  lemma Releasing(s: State, p: Proc, i: Inode)
    requires PhaseOf(s, p) == Held(i)
    ensures Enabled(s, Close(p)) && Apply(s, Close(p)) == s.(phases := s.phases[p := Idle], holder := s.holder - {i})
    ensures Enabled(s, Unlink(p))
    ensures var t := Apply(s, Unlink(p));
      && t == s.(entry := None, phases := s.phases[p := Unlinked(i)])
      && Enabled(t, Close(p)) && Apply(t, Close(p)) == t.(phases := t.phases[p := Idle], holder := s.holder - {i})
  {
  }

  /** A process that dies keeps no lock, and the file it had one of stays. */
  lemma Dying(s: State, p: Proc, i: Inode)
    ensures PhaseOf(s, p) in {Locked(i), Held(i), Unlinked(i)} ==>
      Apply(s, Crash(p)) == s.(phases := s.phases[p := Idle], holder := s.holder - {i})
    ensures PhaseOf(s, p) in {Idle, Passed, Opened(i)} ==> Apply(s, Crash(p)) == s.(phases := s.phases[p := Idle])
  {
  }

  /** Where there are no locks an object goes on without one. */
  lemma WithoutLocks(s: State, p: Proc, i: Inode)
    requires !s.flock && PhaseOf(s, p) == Opened(i)
    ensures !Enabled(s, Flock(p)) && !Enabled(s, WouldBlock(p)) && Enabled(s, NoLocks(p))
    ensures var t := Apply(s, NoLocks(p));
      && t == s.(phases := s.phases[p := Passed])
      && Enabled(t, Close(p)) && Apply(t, Close(p)) == s.(phases := t.phases[p := Idle])
  {
  }

  // ── the object ────────────────────────────────────────────────────────

  datatype Answer = Granted | Busy | NoLocksHere

  /** What one turn of the loop in `acquire` meets, whatever others do in between. */
  datatype Turn = Turn(ino: Inode, answer: Answer, named: Option<Inode>)

  /** The lock was granted, but the path names another file by now. */
  predicate Lost(t: Turn) {
    t.answer.Granted? && t.named != Some(t.ino)
  }

  /** The steps of one turn. */
  function StepsOf(p: Proc, t: Turn): seq<Step> {
    match t.answer
    case Granted => [Open(p, t.ino), Flock(p), Recheck(p)]
    case Busy => [Open(p, t.ino), WouldBlock(p)]
    case NoLocksHere => [Open(p, t.ino), NoLocks(p)]
  }

  /** How a turn leaves the object. */
  function PhaseAfter(t: Turn): Phase {
    match t.answer
    case Granted => if Lost(t) then Idle else Held(t.ino)
    case Busy => Idle
    case NoLocksHere => Passed
  }

  /** A step of a turn meets what the turn says it meets. */
  predicate Met(s: State, step: Step, t: Turn) {
    && (step.Open? && s.entry.Some? ==> s.entry.value == t.ino)
    && (step.Recheck? ==> s.entry == t.named)
  }

  /**
   `steps` can be taken from `s`, and those of `p` among them are the rest of
   the first of `turns`, from its `k`-th step on, and then the others whole.
   */
  ghost predicate Plays(s: State, steps: seq<Step>, p: Proc, turns: seq<Turn>, k: nat)
    decreases |steps|
  {
    if steps == [] then turns == []
    else
      && Enabled(s, steps[0])
      && if steps[0].p != p then Plays(Apply(s, steps[0]), steps[1..], p, turns, k)
         else
           && turns != [] && k < |StepsOf(p, turns[0])| && steps[0] == StepsOf(p, turns[0])[k] && Met(s, steps[0], turns[0])
           && if k + 1 == |StepsOf(p, turns[0])| then Plays(Apply(s, steps[0]), steps[1..], p, turns[1..], 0)
              else Plays(Apply(s, steps[0]), steps[1..], p, turns, k + 1)
  }

  /** The phase in the middle of a turn. */
  function PhaseWithin(t: Turn, k: nat): Phase {
    if k == 0 then Idle else if k == 1 then Opened(t.ino) else Locked(t.ino)
  }

  lemma TurnStep(s: State, p: Proc, t: Turn, k: nat)
    requires k < |StepsOf(p, t)| && PhaseOf(s, p) == PhaseWithin(t, k)
    requires Enabled(s, StepsOf(p, t)[k]) && Met(s, StepsOf(p, t)[k], t)
    ensures PhaseOf(Apply(s, StepsOf(p, t)[k]), p) ==
      if k + 1 == |StepsOf(p, t)| then PhaseAfter(t) else PhaseWithin(t, k + 1)
  {
  }

  /**
   Whatever the other objects do between the steps of its turns, an object
   whose turns but the last were lost is left where the last one ends.
   */
  lemma {:induction false} TurnsRun(s: State, steps: seq<Step>, p: Proc, turns: seq<Turn>, k: nat)
    requires Plays(s, steps, p, turns, k) && PhaseOf(s, p) == (if turns == [] then PhaseOf(s, p) else PhaseWithin(turns[0], k))
    requires forall i | 0 <= i < |turns| - 1 :: Lost(turns[i])
    ensures Possible(s, steps)
    ensures PhaseOf(Exec(s, steps), p) == if turns == [] then PhaseOf(s, p) else PhaseAfter(turns[|turns| - 1])
    decreases |steps|
  {
    hide Apply, Enabled, StepsOf, PhaseAfter, PhaseWithin, Lost;
    if steps != [] {
      var next := Apply(s, steps[0]);
      if steps[0].p != p {
        OthersUntouched(s, steps[0]);
        TurnsRun(next, steps[1..], p, turns, k);
      } else {
        TurnStep(s, p, turns[0], k);
        if k + 1 == |StepsOf(p, turns[0])| {
          if |turns| > 1 { LostIsIdle(turns[0], turns[1]); }
          forall i | 0 <= i < |turns[1..]| - 1 ensures Lost(turns[1..][i]) { assert turns[1..][i] == turns[i + 1]; }
          TurnsRun(next, steps[1..], p, turns[1..], 0);
        } else {
          TurnsRun(next, steps[1..], p, turns, k + 1);
        }
      }
    }
  }

  lemma LostIsIdle(t: Turn, next: Turn)
    requires Lost(t)
    ensures PhaseAfter(t) == PhaseWithin(next, 0)
  {
  }

  class FileLock {
    const unlink: bool
    var file: Option<Inode>      // self._file

    constructor (unlink: bool)
      ensures this.unlink == unlink && file.None?
    {
      this.unlink, file := unlink, None;
    }

    /**
     `acquire`: turn after turn until one is not lost. True with the file held,
     True without one where there are no locks, False when another holds it;
     nothing while every turn so far was lost.
     */
    method Acquire(turns: seq<Turn>) returns (ok: Option<bool>, used: nat)
      requires file.None?
      modifies this`file
      ensures used <= |turns|
      ensures ok.None? ==> used == |turns| && file.None? && forall i | 0 <= i < used :: Lost(turns[i])
      ensures ok.Some? ==>
        && used > 0 && !Lost(turns[used - 1]) && (forall i | 0 <= i < used - 1 :: Lost(turns[i]))
        && ok.value == !turns[used - 1].answer.Busy?
        && file == (if turns[used - 1].answer.Granted? then Some(turns[used - 1].ino) else None)
      ensures ok.Some? ==>
        PhaseAfter(turns[used - 1]) == (if file.Some? then Held(file.value) else if ok.value then Passed else Idle)
    {
      used := 0;
      while used < |turns|
        invariant used <= |turns| && file.None?
        invariant forall i | 0 <= i < used :: Lost(turns[i])
      {
        var turn := turns[used];
        used := used + 1;
        match turn.answer {
          case Busy => return Some(false), used;
          case NoLocksHere => return Some(true), used;
          case Granted =>
            if turn.named == Some(turn.ino) {
              file := Some(turn.ino);
              return Some(true), used;
            }
        }
      }
      ok := None;
    }

    /** `release`: the path first, the file after it, and neither when nothing is held. */
    method Release(p: Proc) returns (steps: seq<Step>)
      modifies this`file
      ensures file.None?
      ensures steps == if old(file).None? then [] else if unlink then [Unlink(p), Close(p)] else [Close(p)]
    {
      if file.None? { return []; }
      steps := if unlink then [Unlink(p), Close(p)] else [Close(p)];
      file := None;
    }
  }
}
