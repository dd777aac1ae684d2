/**
 Ctrl-C around a plugin install: `_cancel_on_sigint` of `scripts/plugins.py`,
 its handler, its poll, and `finish_uninterrupted`, which the `emit` hook of
 `_run_install_flow` calls when the stage step begins.

 A handler runs between any two steps of whatever the main thread is doing,
 an earlier run of the same handler included, so the handler runs form a stack
 on top of the main thread and only the topmost one moves.
 */
module SigintGuard {
  datatype Disposition = Prior | Ours | Default

  /** Where the main thread is. */
  datatype Main =
    | Outside          // before the context, its handler not installed
    | Owning           // signal.signal() returned, owns_sigint not set yet
    | Inside           // in the body of the with statement
    | Polled           // is_set() was true and nothing noted: cancellation_noted is next
    | Telling          // noted: about to look at `announced`
    | FlagSet          // finishing is set, its test not made yet
    | Rearming         // the test said yes
    | Restored         // the previous handler is back, owns_sigint still set
    | Left
    | LateFlagSet      // a finish_uninterrupted() after the context

  /** Where one run of the handler is: the step it takes next. */
  datatype Frame = TestFinishing | SetDefault | TestPressed | Claim | Announce | EnterSet | LeaveSet

  /** Nested handler runs, the one that moves on top. */
  datatype Stack = Idle | Run(top: Frame, below: Stack)

  datatype State = State(
    disposition: Disposition,
    main: Main,
    stack: Stack,
    pressed: bool,
    announced: bool,
    cancelled: bool,            // the Event
    noted: bool,
    finishing: bool,
    owns: bool,
    knownPrior: bool,           // signal.signal() returned a handler, not None
    killed: bool,
    // history
    entered: bool,              // the handler was installed
    safe: bool,                 // finish_uninterrupted() returned inside the context
    attempts: nat,              // announce() calls
    notices: nat,               // those that wrote the line
    warned: nat,                // notices a poll printed
    raced: bool                 // a press landed between a handler's test of `pressed` and its claim
  )

  datatype Step =
    | Enter(installs: bool)
    | Own
    | Poll
    | Note
    | Tell
    | Finish
    | FinishTest
    | Rearm
    | Restore
    | Disown
    | Press
    | Handle(writes: bool)      // the topmost handler run moves; whether announce() gets its line out

  function Init(knownPrior: bool): State {
    State(Prior, Outside, Idle, false, false, false, false, false, false, knownPrior, false, false, false, 0, 0, 0, false)
  }

  function Before(knownPrior: bool): Disposition {
    if knownPrior then Prior else Default
  }

  predicate MainAt(s: State, at: Main) {
    s.stack.Idle? && s.main == at && !s.killed
  }

  predicate Enabled(s: State, step: Step) {
    match step
    case Enter(_) => MainAt(s, Outside)
    case Own => MainAt(s, Owning)
    case Poll => MainAt(s, Inside)
    case Note => MainAt(s, Polled)
    case Tell => MainAt(s, Telling)
    case Finish => MainAt(s, Inside) || MainAt(s, Left)
    case FinishTest => MainAt(s, FlagSet) || MainAt(s, LateFlagSet)
    case Rearm => MainAt(s, Rearming)
    case Restore => MainAt(s, Inside)
    case Disown => MainAt(s, Restored)
    case Press => !s.killed
    case Handle(_) => s.stack.Run? && !s.killed
  }

  /** SIGINT arrives; under the prior disposition it is somebody else's business. */
  function Interrupted(s: State): State {
    s.(stack := if s.disposition.Ours? then Run(TestFinishing, s.stack) else s.stack,
       raced := s.raced || (s.disposition.Ours? && s.stack.Run? && s.stack.top.Claim?),
       killed := s.killed || s.disposition.Default?)
  }

  /** The handler runs after the topmost one moved. */
  function Advanced(s: State): Stack
    requires s.stack.Run?
  {
    match s.stack.top
    case TestFinishing => Run(if s.finishing then TestPressed else SetDefault, s.stack.below)
    case SetDefault => Run(TestPressed, s.stack.below)
    case TestPressed => if s.pressed then s.stack.below else Run(Claim, s.stack.below)
    case Claim => Run(Announce, s.stack.below)
    case Announce => Run(EnterSet, s.stack.below)
    case EnterSet => Run(LeaveSet, s.stack.below)
    case LeaveSet => s.stack.below
  }

  /** One step of `_on_sigint`. */
  function Handled(s: State, writes: bool): State
    requires s.stack.Run?
  {
    var at := s.stack.top;
    s.(stack := Advanced(s),
       disposition := if at.SetDefault? then Default else s.disposition,
       pressed := s.pressed || at.Claim?,
       announced := if at.Announce? then writes else s.announced,
       attempts := if at.Announce? then s.attempts + 1 else s.attempts,
       notices := if at.Announce? && writes then s.notices + 1 else s.notices,
       cancelled := s.cancelled || at.EnterSet?)
  }

  function Entered(s: State, installs: bool): State {
    s.(disposition := if installs then Ours else s.disposition,
       main := if installs then Owning else Inside, entered := installs)
  }

  /** The test in `finish_uninterrupted`. */
  function Tested(s: State): State {
    var arm := s.owns && s.pressed;
    s.(main := if arm then Rearming else if s.main == LateFlagSet then Left else Inside,
       safe := s.safe || (!arm && s.main == FlagSet))
  }

  function Apply(s: State, step: Step): State
    requires Enabled(s, step)
  {
    match step
    case Enter(installs) => Entered(s, installs)
    case Own => s.(owns := true, main := Inside)
    case Poll => s.(main := if s.cancelled && !s.noted then Polled else Inside)
    case Note => s.(noted := true, main := Telling)
    case Tell => s.(warned := if s.announced then s.warned else s.warned + 1, main := Inside)
    case Finish => s.(finishing := true, main := if s.main == Inside then FlagSet else LateFlagSet)
    case FinishTest => Tested(s)
    case Rearm => s.(disposition := Ours, main := Inside, safe := true)
    case Restore =>
      s.(disposition := if s.owns then Before(s.knownPrior) else s.disposition,
         main := if s.owns then Restored else Left)
    case Disown => s.(owns := false, main := Left)
    case Press => Interrupted(s)
    case Handle(writes) => Handled(s, writes)
  }

  predicate AnyAt(k: Stack, f: Frame) {
    k.Run? && (k.top == f || AnyAt(k.below, f))
  }

  predicate AnyClaimed(k: Stack) {
    k.Run? && (Claimed(k.top) || AnyClaimed(k.below))
  }

  /** At most one run is past its claim, and none above it is about to claim. */
  predicate OneClaimed(k: Stack) {
    k.Run? ==> OneClaimed(k.below) && (AnyClaimed(k.below) ==> !Claimed(k.top) && !k.top.Claim?)
  }

  predicate Claimed(f: Frame) {
    f.Announce? || f.EnterSet? || f.LeaveSet?
  }

  /** The context holds SIGINT: entered and not yet restored. */
  predicate Holding(s: State) {
    s.entered && !s.main.Restored? && !s.main.Left? && !s.main.LateFlagSet?
  }

  /** Who has SIGINT, against where the main thread is. */
  ghost predicate OwnerInv(s: State) {
    && (s.main.Outside? ==> !s.entered && !s.finishing && !s.safe)
    && (s.entered && Holding(s) ==> s.owns || s.main.Owning?)
    && (s.main.Restored? ==> s.owns)
    && (s.owns ==> s.entered && !s.main.Left? && !s.main.LateFlagSet? && !s.main.Owning?)
    && (s.main.Owning? ==> s.entered && !s.finishing && !s.safe)
    && (s.main.Rearming? ==> s.owns)
    && (s.main.FlagSet? || s.main.Rearming? || s.safe ==> s.finishing)
    && (!s.entered ==> s.disposition == Prior && s.stack.Idle? && !s.pressed)
    && (Holding(s) ==> s.disposition != Prior)
    && (s.entered && !Holding(s) ==> s.disposition == Before(s.knownPrior) && s.stack.Idle?)
  }

  /** A handler run that has armed the default and not yet claimed. */
  predicate Armed(k: Stack) {
    k.Run? && (k.top.TestPressed? || k.top.Claim?)
  }

  /** When the default is armed. */
  ghost predicate DefaultInv(s: State) {
    && (Holding(s) && s.disposition == Default && !s.pressed ==> Armed(s.stack))
    && (Holding(s) && !s.finishing && (s.pressed || Armed(s.stack)) ==> s.disposition == Default)
    // once finishing, no handler run is on its way to the default
    && (s.finishing && Holding(s) ==> !AnyAt(s.stack, SetDefault))
    && (s.finishing && Holding(s) && s.disposition == Default ==>
          s.pressed && s.stack.Idle? && (s.main.FlagSet? || s.main.Rearming?))
    && (s.main.Rearming? ==> s.pressed)
    && (Holding(s) && s.safe ==> s.disposition == Ours)
  }

  /** At most one handler run is past its claim. */
  ghost predicate ClaimInv(s: State) {
    && (AnyClaimed(s.stack) ==> s.pressed) && OneClaimed(s.stack)
    && (s.cancelled ==> s.pressed)
    && (s.pressed ==> s.cancelled || AnyAt(s.stack, Announce) || AnyAt(s.stack, EnterSet))
  }

  /** What has been said, and how often. */
  ghost predicate NoticeInv(s: State) {
    && (s.announced ==> s.notices >= 1)
    && (s.cancelled ==> s.attempts >= 1)
    && (AnyAt(s.stack, EnterSet) || AnyAt(s.stack, LeaveSet) ==> s.attempts >= 1)
    && ((s.main.Polled? || s.main.Telling? || s.noted) ==> s.cancelled)
    && (s.main.Telling? ==> s.noted)
    && (s.main.Polled? ==> !s.noted)
    && (s.noted && !s.main.Telling? ==> s.notices + s.warned >= 1)
    && (s.warned <= 1)
    && (s.warned == 1 ==> s.noted && !s.main.Telling?)
    && (!s.raced ==>
          && s.attempts <= 1
          && (s.announced <==> s.notices >= 1) && s.notices <= s.attempts
          && (s.attempts == 1 ==> s.pressed && !AnyAt(s.stack, Announce))
          && (s.pressed ==> !AnyAt(s.stack, Claim))
          && (s.stack.Run? ==> !AnyAt(s.stack.below, Claim))
          && s.notices + s.warned <= 1)
  }

  function CountAt(k: Stack, f: Frame): nat {
    if k.Idle? then 0 else (if k.top == f then 1 else 0) + CountAt(k.below, f)
  }

  /** Before its claim. */
  predicate Early(f: Frame) {
    f.TestFinishing? || f.SetDefault? || f.TestPressed?
  }

  /** A run that has not tested or claimed yet stands above one about to claim. */
  predicate EarlyOverClaim(k: Stack) {
    k.Run? && ((Early(k.top) && CountAt(k.below, Claim) > 0) || EarlyOverClaim(k.below))
  }

  /** The announcements made, under way, and sure to come. */
  function Announcements(s: State): nat {
    s.attempts + CountAt(s.stack, Announce) + CountAt(s.stack, Claim)
  }

  /** A press in the gap brings a second announcement. */
  ghost predicate RaceInv(s: State) {
    && (s.pressed ==> s.attempts + CountAt(s.stack, Announce) >= 1)
    && (s.raced ==> Announcements(s) >= 2 || (!s.pressed && EarlyOverClaim(s.stack)))
  }

  ghost predicate Inv(s: State) {
    OwnerInv(s) && DefaultInv(s) && ClaimInv(s) && NoticeInv(s) && RaceInv(s)
  }

  lemma {:induction false} OwnerKeptByExit(s: State, step: Step)
    requires Enabled(s, step) && (step.Finish? || step.FinishTest? || step.Rearm? || step.Restore? || step.Disown?)
    requires OwnerInv(s)
    ensures OwnerInv(Apply(s, step))
  {
  }

  lemma {:induction false} OwnerKeptByMain(s: State, step: Step)
    requires Enabled(s, step) && !step.Press? && !step.Handle? && OwnerInv(s)
    ensures OwnerInv(Apply(s, step))
  {
    if step.Finish? || step.FinishTest? || step.Rearm? || step.Restore? || step.Disown? {
      OwnerKeptByExit(s, step);
    }
  }

  lemma {:induction false} OwnerKeptByPress(s: State)
    requires Enabled(s, Press) && OwnerInv(s)
    ensures OwnerInv(Interrupted(s))
  {
  }

  lemma {:induction false} OwnerKeptByHandler(s: State, writes: bool)
    requires Enabled(s, Handle(writes)) && OwnerInv(s)
    ensures OwnerInv(Handled(s, writes))
  {
  }

  lemma {:induction false} DefaultKeptByExit(s: State, step: Step)
    requires Enabled(s, step) && (step.Finish? || step.FinishTest? || step.Rearm? || step.Restore? || step.Disown?)
    requires OwnerInv(s) && DefaultInv(s) && ClaimInv(s)
    ensures DefaultInv(Apply(s, step))
  {
  }

  lemma {:induction false} DefaultKeptByMain(s: State, step: Step)
    requires Enabled(s, step) && !step.Press? && !step.Handle? && OwnerInv(s) && DefaultInv(s) && ClaimInv(s)
    ensures DefaultInv(Apply(s, step))
  {
    if step.Finish? || step.FinishTest? || step.Rearm? || step.Restore? || step.Disown? {
      DefaultKeptByExit(s, step);
    }
  }

  lemma {:induction false} DefaultKeptByPress(s: State)
    requires Enabled(s, Press) && OwnerInv(s) && DefaultInv(s) && ClaimInv(s)
    ensures DefaultInv(Interrupted(s))
  {
  }

  lemma {:induction false} DefaultKeptByHandler(s: State, writes: bool)
    requires Enabled(s, Handle(writes)) && OwnerInv(s) && DefaultInv(s) && ClaimInv(s)
    ensures DefaultInv(Handled(s, writes))
  {
  }

  lemma {:induction false} ClaimKeptByMain(s: State, step: Step)
    requires Enabled(s, step) && !step.Press? && !step.Handle? && ClaimInv(s)
    ensures ClaimInv(Apply(s, step))
  {
  }

  lemma {:induction false} ClaimKeptByPress(s: State)
    requires Enabled(s, Press) && ClaimInv(s)
    ensures ClaimInv(Interrupted(s))
  {
  }

  lemma {:induction false} ClaimKeptByHandler(s: State, writes: bool)
    requires Enabled(s, Handle(writes)) && ClaimInv(s)
    ensures ClaimInv(Handled(s, writes))
  {
  }

  lemma {:induction false} AnnounceIsClaimed(k: Stack)
    ensures AnyAt(k, Announce) ==> AnyClaimed(k)
  {
    if k.Run? { AnnounceIsClaimed(k.below); }
  }

  lemma {:induction false} NoticeKeptByMain(s: State, step: Step)
    requires Enabled(s, step) && !step.Press? && !step.Handle? && Inv(s)
    ensures NoticeInv(Apply(s, step))
  {
  }

  lemma {:induction false} NoticeKeptByPress(s: State)
    requires Enabled(s, Press) && Inv(s)
    ensures NoticeInv(Interrupted(s))
  {
  }

  lemma {:induction false} NoticeKeptEarly(s: State, writes: bool)
    requires Enabled(s, Handle(writes)) && ClaimInv(s) && NoticeInv(s) && (Early(s.stack.top) || s.stack.top.Claim?)
    ensures NoticeInv(Handled(s, writes))
  {
    AnnounceIsClaimed(s.stack.below);
    assert s.stack.below.Run? && AnyAt(s.stack.below.below, Claim) ==> AnyAt(s.stack.below, Claim);
  }

  lemma {:induction false} NoticeKeptLate(s: State, writes: bool)
    requires Enabled(s, Handle(writes)) && ClaimInv(s) && NoticeInv(s) && Claimed(s.stack.top)
    ensures NoticeInv(Handled(s, writes))
  {
    AnnounceIsClaimed(s.stack.below);
    assert s.stack.below.Run? && AnyAt(s.stack.below.below, Claim) ==> AnyAt(s.stack.below, Claim);
  }

  lemma {:induction false} NoticeKeptByHandler(s: State, writes: bool)
    requires Enabled(s, Handle(writes)) && ClaimInv(s) && NoticeInv(s)
    ensures NoticeInv(Handled(s, writes))
  {
    hide NoticeInv, ClaimInv, Handled;
    if Claimed(s.stack.top) {
      NoticeKeptLate(s, writes);
    } else {
      NoticeKeptEarly(s, writes);
    }
  }

  lemma {:induction false} RaceKeptByMain(s: State, step: Step)
    requires Enabled(s, step) && !step.Press? && !step.Handle? && RaceInv(s)
    ensures RaceInv(Apply(s, step))
  {
  }

  lemma {:induction false} RaceKeptByPress(s: State)
    requires Enabled(s, Press) && RaceInv(s)
    ensures RaceInv(Interrupted(s))
  {
  }

  lemma {:induction false} EarlyIsOverClaim(k: Stack)
    ensures EarlyOverClaim(k) ==> CountAt(k, Claim) > 0
  {
    if k.Run? { EarlyIsOverClaim(k.below); }
  }

  lemma {:induction false} RaceKeptEarly(s: State, writes: bool)
    requires Enabled(s, Handle(writes)) && RaceInv(s) && ClaimInv(s) && Early(s.stack.top)
    ensures RaceInv(Handled(s, writes))
  {
    EarlyIsOverClaim(s.stack.below);
  }

  lemma {:induction false} RaceKeptLate(s: State, writes: bool)
    requires Enabled(s, Handle(writes)) && RaceInv(s) && ClaimInv(s) && !Early(s.stack.top)
    ensures RaceInv(Handled(s, writes))
  {
    EarlyIsOverClaim(s.stack.below);
  }

  lemma {:induction false} RaceKeptByHandler(s: State, writes: bool)
    requires Enabled(s, Handle(writes)) && RaceInv(s) && ClaimInv(s)
    ensures RaceInv(Handled(s, writes))
  {
    hide RaceInv, ClaimInv, Handled;
    if Early(s.stack.top) {
      RaceKeptEarly(s, writes);
    } else {
      RaceKeptLate(s, writes);
    }
  }

  lemma StepKeeps(s: State, step: Step)
    requires Enabled(s, step) && Inv(s)
    ensures Inv(Apply(s, step))
  {
    hide OwnerInv, DefaultInv, ClaimInv, NoticeInv, RaceInv;
    match step
    case Press =>
      OwnerKeptByPress(s); DefaultKeptByPress(s); ClaimKeptByPress(s); NoticeKeptByPress(s); RaceKeptByPress(s);
    case Handle(writes) =>
      OwnerKeptByHandler(s, writes); DefaultKeptByHandler(s, writes);
      ClaimKeptByHandler(s, writes); NoticeKeptByHandler(s, writes); RaceKeptByHandler(s, writes);
    case _ =>
      OwnerKeptByMain(s, step); DefaultKeptByMain(s, step); ClaimKeptByMain(s, step); NoticeKeptByMain(s, step);
      RaceKeptByMain(s, step);
  }

  ghost predicate Possible(s: State, steps: seq<Step>)
    decreases |steps|
  {
    steps == [] || (Enabled(s, steps[0]) && Possible(Apply(s, steps[0]), steps[1..]))
  }

  ghost function Exec(s: State, steps: seq<Step>): State
    requires Possible(s, steps)
    decreases |steps|
  {
    if steps == [] then s else Exec(Apply(s, steps[0]), steps[1..])
  }

  ghost predicate Reachable(s: State) {
    exists steps: seq<Step> :: Possible(Init(s.knownPrior), steps) && Exec(Init(s.knownPrior), steps) == s
  }

  lemma {:induction false} ExecKeeps(s: State, steps: seq<Step>)
    requires Inv(s) && Possible(s, steps)
    ensures Inv(Exec(s, steps))
    decreases |steps|
  {
    hide Inv;
    if steps != [] {
      StepKeeps(s, steps[0]);
      ExecKeeps(Apply(s, steps[0]), steps[1..]);
    }
  }

  lemma ReachableInv(s: State)
    requires Reachable(s)
    ensures Inv(s)
  {
    var steps: seq<Step> :| Possible(Init(s.knownPrior), steps) && Exec(Init(s.knownPrior), steps) == s;
    assert Inv(Init(s.knownPrior));
    ExecKeeps(Init(s.knownPrior), steps);
  }

  /**
   Once `finish_uninterrupted` has returned, every further press is handled by
   the guard, whatever presses and handler runs came before it, until the
   context exits.
   */
  lemma NoDefaultOnceSafe(s: State)
    requires Reachable(s) && s.safe && Holding(s) && !s.killed
    ensures s.disposition == Ours && !Apply(s, Press).killed
  {
    ReachableInv(s);
  }

  predicate NoExit(steps: seq<Step>) {
    forall i | 0 <= i < |steps| :: steps[i] != Restore
  }

  /** So no run of presses, polls and steps ends the process before the context does. */
  lemma {:induction false} SurvivesToTheExit(s: State, steps: seq<Step>)
    requires Inv(s) && s.safe && Holding(s) && !s.killed && Possible(s, steps) && NoExit(steps)
    ensures !Exec(s, steps).killed && Exec(s, steps).disposition == Ours
    decreases |steps|
  {
    if steps != [] {
      var next := Apply(s, steps[0]);
      StepKeeps(s, steps[0]);
      assert steps[0] != Restore;
      StaysSafe(s, steps[0]);
      assert NoExit(steps[1..]);
      SurvivesToTheExit(next, steps[1..]);
    }
  }

  lemma StaysSafe(s: State, step: Step)
    requires Inv(s) && s.safe && Holding(s) && !s.killed && Enabled(s, step) && step != Restore
    ensures Apply(s, step).safe && Holding(Apply(s, step)) && !Apply(s, step).killed
  {
    if step.Press? {
      assert s.disposition == Ours;
    } else if !step.Handle? {
      StaysInside(s, step);
    }
  }

  lemma StaysInside(s: State, step: Step)
    requires s.safe && Holding(s) && !s.killed && Enabled(s, step) && step != Restore
    requires !step.Press? && !step.Handle? && s.main != Outside
    ensures Apply(s, step).safe && Holding(Apply(s, step)) && !Apply(s, step).killed
  {
    match step
    case Own =>
    case Poll =>
    case Note =>
    case Tell =>
    case Finish =>
    case FinishTest => assert Tested(s).entered;
    case Rearm =>
    case Disown =>
    case Enter(_) =>
  }

  /** Before that, a first press that has been claimed leaves the default armed for the second. */
  lemma SecondPressEnds(s: State)
    requires Reachable(s) && Holding(s) && s.pressed && !s.finishing && !s.killed
    ensures Apply(s, Press).killed
  {
    ReachableInv(s);
  }

  /** `Event.set` is never re-entered: a handler run inside it has no other inside it or below. */
  lemma SetIsNotReentered(s: State)
    requires Reachable(s) && s.stack.Run? && (s.stack.top.EnterSet? || s.stack.top.LeaveSet?)
    ensures !AnyClaimed(s.stack.below)
  {
    ReachableInv(s);
  }

  /** What a press brings about is done, or a handler run is on its way to it. */
  predicate Coming(s: State) {
    s.pressed || s.stack.Run?
  }

  lemma StillComing(s: State, step: Step)
    requires Inv(s) && Coming(s) && Enabled(s, step)
    ensures Coming(Apply(s, step))
  {
  }

  lemma {:induction false} AlwaysComing(s: State, steps: seq<Step>)
    requires Inv(s) && Coming(s) && Possible(s, steps)
    ensures Coming(Exec(s, steps)) && Inv(Exec(s, steps))
    decreases |steps|
  {
    hide Inv, Coming;
    if steps != [] {
      StepKeeps(s, steps[0]);
      StillComing(s, steps[0]);
      AlwaysComing(Apply(s, steps[0]), steps[1..]);
    }
  }

  /**
   Ctrl-C cancels: after a press the guard handles, whatever is pressed and
   done on top of it, the Event is set by the time no handler runs any more,
   and the next poll reports it.
   */
  lemma PressCancels(s: State, steps: seq<Step>)
    requires Reachable(s) && Enabled(s, Press) && s.disposition.Ours? && Possible(Apply(s, Press), steps)
    ensures var t := Exec(Apply(s, Press), steps);
      && (t.stack.Idle? ==> t.cancelled)
      && (MainAt(t, Inside) && !t.noted ==> Apply(t, Poll).main.Polled?)
  {
    ReachableInv(s);
    StepKeeps(s, Press);
    AlwaysComing(Apply(s, Press), steps);
  }

  /** And nothing else does. */
  lemma CancelledIff(s: State)
    requires Reachable(s) && s.stack.Idle?
    ensures s.cancelled <==> s.pressed
  {
    ReachableInv(s);
  }

  /**
   When a poll reports the cancel, the user has been told: by a handler or by
   this or an earlier poll; and told once, unless a press hit the gap between
   a handler's test of `pressed` and its claim.
   */
  lemma PollReportsAreAnnounced(s: State)
    requires Reachable(s) && MainAt(s, Inside) && s.cancelled
    ensures var t := if s.noted then s else Apply(Apply(Apply(s, Poll), Note), Tell);
            && t.main.Inside? && t.noted
            && t.notices + t.warned >= 1
            && (!s.raced ==> t.notices + t.warned == 1)
  {
    ReachableInv(s);
    if !s.noted {
      StepKeeps(s, Poll);
      StepKeeps(Apply(s, Poll), Note);
      StepKeeps(Apply(Apply(s, Poll), Note), Tell);
    }
  }

  /** With no handler run under way, more than one has announced exactly when a press hit the gap. */
  lemma AnnouncedAgainIff(s: State)
    requires Reachable(s) && s.stack.Idle?
    ensures s.attempts >= 2 <==> s.raced
  {
    ReachableInv(s);
  }

  /** Whatever happened inside, the previous handler is back once the context has been left, for good. */
  lemma PriorHandlerRestored(s: State)
    requires Reachable(s) && (s.main.Restored? || s.main.Left? || s.main.LateFlagSet?)
    ensures s.disposition == if s.entered then Before(s.knownPrior) else Prior
    ensures s.stack.Idle?
  {
    ReachableInv(s);
  }

  lemma {:induction false} ExecAppend(s: State, steps: seq<Step>, last: Step)
    requires Possible(s, steps) && Enabled(Exec(s, steps), last)
    ensures Possible(s, steps + [last]) && Exec(s, steps + [last]) == Apply(Exec(s, steps), last)
    decreases |steps|
  {
    if steps == [] {
      assert (steps + [last])[1..] == [];
    } else {
      ExecAppend(Apply(s, steps[0]), steps[1..], last);
      assert (steps + [last])[1..] == steps[1..] + [last];
    }
  }

  lemma Taken(s: State, step: Step) returns (t: State)
    requires Reachable(s) && Enabled(s, step)
    ensures Reachable(t) && t == Apply(s, step)
  {
    t := Apply(s, step);
    var steps: seq<Step> :| Possible(Init(s.knownPrior), steps) && Exec(Init(s.knownPrior), steps) == s;
    ExecAppend(Init(s.knownPrior), steps, step);
  }

  /** The context entered and the stage step begun, nothing pressed yet. */
  lemma Staging() returns (s: State)
    ensures Reachable(s) && s == Init(true).(disposition := Ours, main := Inside, entered := true,
                                             owns := true, finishing := true, safe := true)
  {
    s := Init(true);
    assert Possible(s, []) && Exec(s, []) == s;
    s := Taken(s, Enter(true));
    s := Taken(s, Own);
    s := Taken(s, Finish);
    s := Taken(s, FinishTest);
  }

  /** A handler run about to claim is taken to its end. */
  lemma Announced(s: State) returns (t: State)
    requires Reachable(s) && !s.killed && s.stack.Run? && s.stack.top.Claim?
    ensures Reachable(t) && !t.killed && t.stack == s.stack.below && t.notices == s.notices + 1 && t.raced == s.raced
  {
    t := Taken(s, Handle(true));
    t := Taken(t, Handle(true));
    t := Taken(t, Handle(true));
    t := Taken(t, Handle(true));
  }

  /** A press whose handler run gets past its test of `pressed`. */
  lemma UpToClaim(s: State) returns (t: State)
    requires Reachable(s) && s.disposition.Ours? && s.finishing && !s.pressed && !s.killed
    ensures Reachable(t) && t.disposition.Ours? && t.finishing && !t.pressed && !t.killed
    ensures t.stack == Run(Claim, s.stack) && t.notices == s.notices
    ensures t.raced == (s.raced || (s.stack.Run? && s.stack.top.Claim?))
  {
    t := Taken(s, Press);
    t := Taken(t, Handle(true));
    t := Taken(t, Handle(true));
  }

  /** The gap is real once the default is off: two presses, and the notice goes out twice. */
  lemma NoticeTwice()
    ensures exists s :: Reachable(s) && s.notices == 2 && s.raced
  {
    var s := Staging();
    s := UpToClaim(s);
    s := UpToClaim(s);
    s := Announced(s);
    s := Announced(s);
  }

  // ── each part of the context, from its first step to its last ─────────

  /** Entering, in the main thread and in another one, where `signal.signal` raises. */
  lemma Entering(knownPrior: bool)
    ensures var s := Init(knownPrior);
      && Apply(Apply(s, Enter(true)), Own)
         == s.(disposition := Ours, main := Inside, entered := true, owns := true)
      && Apply(s, Enter(false)) == s.(main := Inside)
  {
  }

  /** `finish_uninterrupted`: from here on no second press kills, and one that was claimed hands SIGINT back to the guard. */
  lemma Finishing(s: State)
    requires MainAt(s, Inside)
    ensures var t := Apply(Apply(s, Finish), FinishTest);
      (if s.owns && s.pressed then Apply(t, Rearm) else t)
      == s.(finishing := true, safe := true, disposition := if s.owns && s.pressed then Ours else s.disposition)
  {
  }

  /** Leaving: the earlier handler, or the default where there was none to know, and only by who took SIGINT. */
  lemma Leaving(s: State)
    requires MainAt(s, Inside)
    ensures var t := Apply(s, Restore);
      (if s.owns then Apply(t, Disown) else t)
      == s.(main := Left, owns := false, disposition := if s.owns then (if s.knownPrior then Prior else Default) else s.disposition)
  {
  }

  /** After the context `finish_uninterrupted` touches nothing but its own flag. */
  lemma FinishingLate(s: State)
    requires MainAt(s, Left) && !s.owns
    ensures Apply(Apply(s, Finish), FinishTest) == s.(finishing := true)
  {
  }

  // One press, its handler run left alone: by how the frames change.

  /** What a press and its handler run cannot touch. */
  ghost predicate SameMain(s: State, t: State) {
    && t.main == s.main && t.noted == s.noted && t.finishing == s.finishing && t.owns == s.owns && t.knownPrior == s.knownPrior
    && t.entered == s.entered && t.safe == s.safe && t.warned == s.warned && t.killed == s.killed
  }

  /** The test of `finishing`: the default is armed for the next press unless the context is finishing. */
  lemma PressArms(s: State, writes: bool)
    requires s.stack.Idle? && !s.killed && s.disposition.Ours?
    ensures var first := Handled(Apply(s, Press), writes);
      var t := if s.finishing then first else Handled(first, writes);
      && first.stack == Run(if s.finishing then TestPressed else SetDefault, Idle)
      && t.stack == Run(TestPressed, Idle) && SameMain(s, t)
      && t.disposition == (if s.finishing then Ours else Default)
      && t.pressed == s.pressed && t.cancelled == s.cancelled && t.announced == s.announced
      && t.attempts == s.attempts && t.notices == s.notices && t.raced == s.raced
  {
  }

  /** A press after a claimed one does nothing more. */
  lemma LaterPress(s: State, writes: bool)
    requires s.stack == Run(TestPressed, Idle) && s.pressed
    ensures Handled(s, writes) == s.(stack := Idle)
  {
  }

  /** A first one is claimed, announced once, and sets the Event. */
  lemma FirstPress(s: State, writes: bool)
    requires s.stack == Run(TestPressed, Idle) && !s.pressed
    ensures var claimed := Handled(Handled(s, writes), writes);
      && claimed.stack == Run(Announce, Idle) && claimed.pressed && claimed.cancelled == s.cancelled
      && claimed.attempts == s.attempts && claimed.notices == s.notices && claimed.disposition == s.disposition
      && SameMain(s, claimed)
  {
  }

  lemma FirstPressAnnounced(s: State, writes: bool)
    requires s.stack == Run(Announce, Idle)
    ensures var said := Handled(s, writes);
      && said.stack == Run(EnterSet, Idle) && said.announced == writes
      && said.attempts == s.attempts + 1 && said.notices == (if writes then s.notices + 1 else s.notices)
      && said.pressed == s.pressed && said.disposition == s.disposition && SameMain(s, said)
  {
  }

  lemma FirstPressSets(s: State, writes: bool)
    requires s.stack == Run(EnterSet, Idle)
    ensures Handled(Handled(s, writes), writes) == s.(stack := Idle, cancelled := true)
  {
  }

  /** A process that SIGINT killed does nothing more. */
  lemma DeadProcess(s: State, step: Step)
    requires s.killed
    ensures !Enabled(s, step)
  {
  }
}
