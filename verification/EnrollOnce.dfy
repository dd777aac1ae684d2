/**
 The locked region of `cmd_start` (`backend/app/agent/cli.py`) with the
 credential store of `backend/app/agent/enroll.py`: `--instance` agents
 started together on one control URL, each looking for the stored credential
 and enrolling only when there is none, under the enrollment lock.
 */
module EnrollOnce {
  import opened Wrappers
  import L = FileLocks

  type Proc = L.Proc
  /** A worker credential; the control plane issues each number once. */
  type Credential = nat

  datatype Progress =
    | Starting
    | NeedsOne                     // load_credential returned None
    | Granted(cred: Credential)    // enroll() answered, nothing stored yet
    | Using(cred: Credential)      // leaves the locked region with it
    | Plain                        // leaves it with a token that needs no enrollment
    | Failed                       // enrollment refused, no token to dial with, or stored under another name

  datatype State = State(
    locks: L.State,
    stored: Option<Credential>,     // the credential file
    agents: map<Proc, Progress>,    // Starting when absent
    issued: nat,                    // enrollments that succeeded so far
    lost: nat                       // of these, granted to an agent that died before storing it
  )

  datatype Step =
    | LockStep(step: L.Step)
    | Look(p: Proc, other: bool)   // load_credential; `other`: --name asks for another name than is stored
    | Enroll(p: Proc, ok: bool)
    | Dial(p: Proc)                // resolve_token gave no enrollment token
    | Save(p: Proc)
    | Crash(p: Proc)

  function Init(): State {
    State(L.Init(true), None, map[], 0, 0)
  }

  function ProgressOf(s: State, p: Proc): Progress {
    if p in s.agents then s.agents[p] else Starting
  }

  /** Between looking and storing: the part of the `with` block that must not be shared. */
  predicate Inside(pr: Progress) {
    pr.NeedsOne? || pr.Granted?
  }

  predicate Enabled(s: State, step: Step) {
    match step
    case LockStep(l) => L.Enabled(s.locks, l) && !l.Crash? && !Inside(ProgressOf(s, l.p))
    case Look(p, other) => L.PhaseOf(s.locks, p).Held? && ProgressOf(s, p).Starting?
    case Enroll(p, ok) => ProgressOf(s, p).NeedsOne?
    case Dial(p) => ProgressOf(s, p).NeedsOne?
    case Save(p) => ProgressOf(s, p).Granted?
    case Crash(p) => true
  }

  function Apply(s: State, step: Step): State
    requires Enabled(s, step)
  {
    match step
    case LockStep(l) => s.(locks := L.Apply(s.locks, l))
    case Look(p, other) =>
      s.(agents := s.agents[p := if s.stored.None? then NeedsOne else if other then Failed else Using(s.stored.value)])
    case Enroll(p, ok) =>
      if ok then s.(agents := s.agents[p := Granted(s.issued)], issued := s.issued + 1)
      else s.(agents := s.agents[p := Failed])
    case Dial(p) => s.(agents := s.agents[p := Plain])
    case Save(p) =>
      var c := ProgressOf(s, p).cred;
      s.(stored := Some(c), agents := s.agents[p := Using(c)])
    case Crash(p) =>
      s.(locks := L.Apply(s.locks, L.Crash(p)),
         agents := s.agents[p := Failed],
         lost := if ProgressOf(s, p).Granted? then s.lost + 1 else s.lost)
  }

  /** Enrollments that are stored or on their way there. */
  ghost function Kept(s: State): nat {
    if s.stored.Some? || exists p | p in s.agents :: s.agents[p].Granted? then 1 else 0
  }

  ghost predicate Inv(s: State) {
    && L.Inv(s.locks) && s.locks.flock
    && (forall p | p in s.agents && Inside(s.agents[p]) :: L.PhaseOf(s.locks, p).Held? && s.stored.None?)
    && (forall p | p in s.agents && s.agents[p].Using? :: s.stored == Some(s.agents[p].cred))
    && s.issued == s.lost + Kept(s)
  }

  lemma OneInside(s: State, p: Proc, q: Proc)
    requires Inv(s) && Inside(ProgressOf(s, p)) && Inside(ProgressOf(s, q))
    ensures p == q
  {
  }

  lemma LockStepKeeps(s: State, l: L.Step)
    requires Inv(s) && Enabled(s, LockStep(l))
    ensures Inv(Apply(s, LockStep(l)))
  {
    L.StepKeeps(s.locks, l);
    L.OthersUntouched(s.locks, l);
    hide L.Inv, L.Apply, L.Enabled;
  }

  lemma AgentStepKeeps(s: State, step: Step)
    requires Inv(s) && Enabled(s, step) && !step.LockStep? && !step.Crash?
    ensures Inv(Apply(s, step))
  {
    var p := step.p;
    var t := Apply(s, step);
    forall q | q in s.agents && Inside(s.agents[q]) && Inside(ProgressOf(s, p)) ensures q == p {
      OneInside(s, p, q);
    }
    if ProgressOf(t, p).Granted? { assert p in t.agents && t.agents[p].Granted?; }
    if ProgressOf(s, p).Granted? { assert p in s.agents && s.agents[p].Granted?; }
  }

  lemma CrashKeeps(s: State, p: Proc)
    requires Inv(s)
    ensures Inv(Apply(s, Crash(p)))
  {
    var t := Apply(s, Crash(p));
    L.StepKeeps(s.locks, L.Crash(p));
    L.OthersUntouched(s.locks, L.Crash(p));
    if ProgressOf(s, p).Granted? {
      assert p in s.agents && s.agents[p].Granted?;
      forall q | q in t.agents ensures !t.agents[q].Granted? {
        if q != p && t.agents[q].Granted? { OneInside(s, p, q); }
      }
    } else {
      forall q | q in s.agents && s.agents[q].Granted? ensures q in t.agents && t.agents[q].Granted? {}
    }
  }

  lemma StepKeeps(s: State, step: Step)
    requires Inv(s) && Enabled(s, step)
    ensures Inv(Apply(s, step))
  {
    match step
    case LockStep(l) => LockStepKeeps(s, l);
    case Crash(p) => CrashKeeps(s, p);
    case _ => AgentStepKeeps(s, step);
  }

  ghost predicate Possible(s: State, steps: seq<Step>)
    decreases |steps|
  {
    steps == [] || (Enabled(s, steps[0]) && Possible(Apply(s, steps[0]), steps[1..]))
  }

  ghost function Exec(s: State, steps: seq<Step>): State
    requires Possible(s, steps)
    decreases |steps|
  {
    if steps == [] then s else Exec(Apply(s, steps[0]), steps[1..])
  }

  lemma {:induction false} ExecKeeps(s: State, steps: seq<Step>)
    requires Inv(s) && Possible(s, steps)
    ensures Inv(Exec(s, steps))
    decreases |steps|
  {
    if steps != [] {
      StepKeeps(s, steps[0]);
      ExecKeeps(Apply(s, steps[0]), steps[1..]);
    }
  }

  lemma {:induction false} NoCrashNoLoss(s: State, steps: seq<Step>)
    requires Possible(s, steps) && forall i | 0 <= i < |steps| :: !steps[i].Crash?
    ensures Exec(s, steps).lost == s.lost
    decreases |steps|
  {
    if steps != [] { NoCrashNoLoss(Apply(s, steps[0]), steps[1..]); }
  }

  /**
   Every agent that leaves the locked region with a credential leaves with the
   stored one, and at most one enrollment succeeds more than were lost to
   agents that died between the answer and the file.
   */
  lemma EnrollsOnce(steps: seq<Step>, p: Proc)
    requires Possible(Init(), steps)
    ensures var s := Exec(Init(), steps);
      && s.lost <= s.issued <= s.lost + 1
      && (s.stored.Some? ==> s.issued == s.lost + 1)
      && (ProgressOf(s, p).Using? ==> s.stored == Some(ProgressOf(s, p).cred))
  {
    hide Inv, Exec, Possible;
    InitKeeps();
    ExecKeeps(Init(), steps);
    InvSays(Exec(Init(), steps), p);
  }

  lemma InitKeeps()
    ensures Inv(Init())
  {
  }

  lemma InvSays(s: State, p: Proc)
    requires Inv(s)
    ensures s.lost <= s.issued <= s.lost + 1
    ensures s.stored.Some? ==> s.issued == s.lost + 1
    ensures ProgressOf(s, p).Using? ==> s.stored == Some(ProgressOf(s, p).cred)
  {
    hide L.Inv;
  }

  /** With no crash: at most one enrollment, and it is the one everybody uses. */
  lemma EnrollsOnceWithoutCrash(steps: seq<Step>, p: Proc)
    requires Possible(Init(), steps) && forall i | 0 <= i < |steps| :: !steps[i].Crash?
    ensures var s := Exec(Init(), steps);
      && s.issued <= 1
      && (ProgressOf(s, p).Using? ==> s.issued == 1 && s.stored == Some(ProgressOf(s, p).cred))
  {
    hide Inv, Exec, Possible;
    EnrollsOnce(steps, p);
    NoCrashNoLoss(Init(), steps);
  }

  /** Once a credential is stored it stays, and nobody enrolls any more. */
  lemma {:induction false} StoredStays(s: State, steps: seq<Step>)
    requires Inv(s) && s.stored.Some? && Possible(s, steps)
    ensures Exec(s, steps).stored == s.stored && Exec(s, steps).issued == s.issued
    decreases |steps|
  {
    if steps != [] {
      StepKeeps(s, steps[0]);
      StoredStep(s, steps[0]);
      StoredStays(Apply(s, steps[0]), steps[1..]);
    }
  }

  lemma StoredStep(s: State, step: Step)
    requires Inv(s) && s.stored.Some? && Enabled(s, step)
    ensures Apply(s, step).stored == s.stored && Apply(s, step).issued == s.issued
  {
    hide L.Inv, L.Apply, L.Enabled;
  }

  /** Whatever token an agent was given, it uses the credential another one has stored. */
  lemma StoredIsUsed(before: seq<Step>, after: seq<Step>, p: Proc)
    requires Possible(Init(), before) && Possible(Exec(Init(), before), after)
    requires Exec(Init(), before).stored.Some? && ProgressOf(Exec(Init(), before), p).Starting?
    ensures var pr := ProgressOf(Exec(Exec(Init(), before), after), p);
      pr.Starting? || pr.Failed? || pr == Using(Exec(Init(), before).stored.value)
  {
    hide Inv, Exec, Possible;
    InitKeeps();
    ExecKeeps(Init(), before);
    LateComer(Exec(Init(), before), after, p);
  }

  lemma {:induction false} LateComer(s: State, steps: seq<Step>, p: Proc)
    requires Inv(s) && s.stored.Some? && Possible(s, steps)
    requires ProgressOf(s, p).Starting? || ProgressOf(s, p).Failed? || ProgressOf(s, p) == Using(s.stored.value)
    ensures var pr := ProgressOf(Exec(s, steps), p);
      pr.Starting? || pr.Failed? || pr == Using(s.stored.value)
    decreases |steps|
  {
    if steps != [] {
      StepKeeps(s, steps[0]);
      StoredStep(s, steps[0]);
      LateStep(s, steps[0], p);
      LateComer(Apply(s, steps[0]), steps[1..], p);
    }
  }

  lemma LateStep(s: State, step: Step, p: Proc)
    requires Inv(s) && s.stored.Some? && Enabled(s, step)
    requires ProgressOf(s, p).Starting? || ProgressOf(s, p).Failed? || ProgressOf(s, p) == Using(s.stored.value)
    ensures var pr := ProgressOf(Apply(s, step), p);
      pr.Starting? || pr.Failed? || pr == Using(s.stored.value)
  {
    hide L.Inv, L.Apply, L.Enabled;
  }

  // ── one agent, from its first step to its last ────────────────────────

  /** An agent takes the lock before it looks, and lets go of it only outside; nothing else moves meanwhile. */
  lemma Locking(s: State, p: Proc, i: L.Inode)
    requires s.locks.flock && L.PhaseOf(s.locks, p).Idle? && s.locks.entry.None? && !L.InUse(s.locks, i) && i !in s.locks.holder
    requires ProgressOf(s, p).Starting?
    ensures Enabled(s, LockStep(L.Open(p, i))) && Enabled(Apply(s, LockStep(L.Open(p, i))), LockStep(L.Flock(p)))
    ensures var t := Apply(Apply(s, LockStep(L.Open(p, i))), LockStep(L.Flock(p)));
      && Enabled(t, LockStep(L.Recheck(p)))
      && var u := Apply(t, LockStep(L.Recheck(p)));
         && u == s.(locks := u.locks) && L.PhaseOf(u.locks, p) == L.Held(i)
         && Enabled(u, LockStep(L.Close(p)))
         && Enabled(u, Look(p, false)) && (s.stored.None? ==> !Enabled(Apply(u, Look(p, false)), LockStep(L.Close(p))))
  {
    L.Acquiring(s.locks, p, i);
  }

  /** With nothing stored and the lock held, an enrollment token brings a credential and stores it. */
  lemma Enrolling(s: State, p: Proc)
    requires L.PhaseOf(s.locks, p).Held? && ProgressOf(s, p).Starting? && s.stored.None?
    ensures Apply(Apply(Apply(s, Look(p, false)), Enroll(p, true)), Save(p))
         == s.(stored := Some(s.issued), issued := s.issued + 1, agents := s.agents[p := Using(s.issued)])
  {
    var looked := Apply(s, Look(p, false));
    var granted := Apply(looked, Enroll(p, true));
    assert looked.agents[p := Granted(s.issued)] == s.agents[p := Granted(s.issued)];
    assert granted.agents[p := Using(s.issued)] == s.agents[p := Using(s.issued)];
  }

  /** A refused enrollment leaves nothing behind, and so does a token that needs none. */
  lemma NotEnrolling(s: State, p: Proc)
    requires L.PhaseOf(s.locks, p).Held? && ProgressOf(s, p).Starting? && s.stored.None?
    ensures Apply(Apply(s, Look(p, false)), Enroll(p, false)) == s.(agents := s.agents[p := Failed])
    ensures Apply(Apply(s, Look(p, false)), Dial(p)) == s.(agents := s.agents[p := Plain])
  {
    var looked := Apply(s, Look(p, false));
    assert looked.agents[p := Failed] == s.agents[p := Failed] && looked.agents[p := Plain] == s.agents[p := Plain];
  }

  /** A stored credential is used, except by an agent that asks for another name. */
  lemma UsingStored(s: State, p: Proc, other: bool)
    requires L.PhaseOf(s.locks, p).Held? && ProgressOf(s, p).Starting? && s.stored.Some?
    ensures Apply(s, Look(p, other))
         == s.(agents := s.agents[p := if other then Failed else Using(s.stored.value)])
  {
  }

  /** A dead agent keeps its lock from nobody, and an unstored credential goes with it. */
  lemma Dying(s: State, p: Proc)
    ensures var t := Apply(s, Crash(p));
      && ProgressOf(t, p).Failed? && t.locks == L.Apply(s.locks, L.Crash(p))
      && t.stored == s.stored && t.issued == s.issued
      && t.lost == (if ProgressOf(s, p).Granted? then s.lost + 1 else s.lost)
  {
  }
}
