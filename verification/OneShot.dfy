/**
 `cdui agent start --one-shot`: `OneShot` of `backend/app/agent/one_shot.py`,
 and where `backend/app/agent/connection.py` calls it, on top of the
 run-frame protocol.
 */
module OneShot {
  import opened Wrappers
  import P = ReplayProtocol

  type RunId = P.RunId

  const FINISHED_SUCCEEDED := "succeeded"
  const EXIT_SUCCEEDED: int := 0
  const EXIT_RUN_FAILED: int := 1
  const EXIT_REFUSED: int := 2
  const EXIT_NO_RUN: int := 3

  /** What the object holds. */
  datatype Shot = Shot(
    runId: Option<RunId>,       // --run-id
    taken: Option<RunId>,
    status: Option<string>,     // of the taken run's run_finished; `finished` is set with it
    delivered: bool
  )

  datatype Refusal = Accepted | AlreadyTook(other: RunId) | TakesOnly(wanted: RunId)

  function RefusalOf(s: Shot, r: RunId): Refusal {
    if s.taken.Some? && s.taken.value != r then AlreadyTook(s.taken.value)
    else if s.runId.Some? && s.runId.value != r then TakesOnly(s.runId.value)
    else Accepted
  }

  function TakeOf(s: Shot, r: RunId): Shot {
    if s.taken.None? then s.(taken := Some(r)) else s
  }

  function NoteOf(s: Shot, r: RunId, frame: P.Frame): Shot {
    if frame.Finished? && s.taken == Some(r) && s.status.None? then s.(status := Some(frame.status)) else s
  }

  function AckedOf(s: Shot, r: RunId): Shot {
    s.(delivered := s.delivered || (s.taken == Some(r) && s.status.Some?))
  }

  function ExitCodeOf(s: Shot, code: int): int {
    if code != 0 && (code != EXIT_REFUSED || s.taken.None?) then code
    else if s.taken.None? then EXIT_NO_RUN
    else if s.status == Some(FINISHED_SUCCEEDED) && s.delivered then EXIT_SUCCEEDED
    else EXIT_RUN_FAILED
  }

  /** The object itself: every method against the functions above. */
  class OneShot {
    const runId: Option<RunId>
    var taken: Option<RunId>
    var status: Option<string>
    var finished: bool
    var delivered: bool

    ghost predicate Valid()
      reads this
    {
      finished == status.Some?
    }

    function Contents(): Shot
      reads this
    {
      Shot(runId, taken, status, delivered)
    }

    constructor (runId: Option<RunId>)
      ensures Valid() && Contents() == Shot(runId, None, None, false)
    {
      this.runId := runId;
      taken, status, finished, delivered := None, None, false, false;
    }

    method Refuse(r: RunId) returns (refusal: Refusal)
      ensures refusal == RefusalOf(Contents(), r)
      ensures taken.Some? && taken != Some(r) ==> refusal == AlreadyTook(taken.value)
      ensures taken.None? && runId.Some? && runId != Some(r) ==> refusal == TakesOnly(runId.value)
      ensures refusal.Accepted? <==> (taken.Some? ==> taken == Some(r)) && (runId.Some? ==> runId == Some(r))
    {
      if taken.Some? && taken.value != r { return AlreadyTook(taken.value); }
      if runId.Some? && runId.value != r { return TakesOnly(runId.value); }
      refusal := Accepted;
    }

    method Take(r: RunId)
      requires Valid()
      modifies this`taken
      ensures Valid() && Contents() == TakeOf(old(Contents()), r)
      ensures taken == if old(taken).Some? then old(taken) else Some(r)
    {
      if taken.None? { taken := Some(r); }
    }

    method Sent(r: RunId, frame: P.Frame)
      requires Valid()
      modifies this`status, this`finished
      ensures Valid() && Contents() == NoteOf(old(Contents()), r, frame)
      ensures status == if old(status).None? && frame.Finished? && taken == Some(r) then Some(frame.status) else old(status)
    {
      if frame.Finished? && taken == Some(r) && status.None? {
        status, finished := Some(frame.status), true;
      }
    }

    method Acked(r: RunId)
      requires Valid()
      modifies this`delivered
      ensures Valid() && Contents() == AckedOf(old(Contents()), r)
      ensures delivered <==> old(delivered) || (taken == Some(r) && status.Some?)
    {
      if taken == Some(r) && finished { delivered := true; }
    }

    method Exit(code: int) returns (r: int)
      requires Valid()
      ensures r == ExitCodeOf(Contents(), code)
      ensures r == 0 <==> (code == 0 || code == 2) && taken.Some? && delivered && status == Some("succeeded")
      ensures code == 0 && taken.None? ==> r == 3
      ensures (code == 0 || code == 2) && taken.Some? && r != 0 ==> r == 1
      ensures code == 2 && taken.None? ==> r == 2
      ensures code != 0 && code != 2 ==> r == code
    {
      if code != 0 && (code != EXIT_REFUSED || taken.None?) { return code; }
      if taken.None? { return EXIT_NO_RUN; }
      r := if status == Some(FINISHED_SUCCEEDED) && delivered then EXIT_SUCCEEDED else EXIT_RUN_FAILED;
    }
  }

  // ── with the connection ───────────────────────────────────────────────

  datatype State = State(
    shot: Shot,
    p: P.State,
    accepted: set<RunId>,                  // the runs handed to the runner
    refused: set<RunId>,
    handed: map<RunId, seq<P.Frame>>       // what the runner gave send_frame, run by run, `sent` called
  )

  datatype Step =
    | Assign(run: RunId)
    | Hand(run: RunId, frame: P.Frame)     // send_frame up to the send lock
    | Protocol(step: P.Step)
    | Done(run: RunId)                     // an ack that completed the spool, back from its thread

  function Init(runId: Option<RunId>): State {
    State(Shot(runId, None, None, false), P.Init(), {}, {}, map[])
  }

  function HandedOf(s: State, r: RunId): seq<P.Frame> {
    if r in s.handed then s.handed[r] else []
  }

  function ProducedOf(s: State, r: RunId): seq<P.Frame> {
    P.RunOf(s.p, r).produced
  }

  predicate EndsFinished(frames: seq<P.Frame>) {
    frames != [] && frames[|frames| - 1].Finished?
  }

  ghost predicate Enabled(s: State, step: Step) {
    match step
    case Assign(_) => true
    case Hand(r, _) => (r in s.accepted || r in s.refused) && !EndsFinished(HandedOf(s, r))
    case Protocol(step) =>
      && P.Enabled(s.p, step)
      && (step.Produce? ==>
            |ProducedOf(s, step.run)| < |HandedOf(s, step.run)|
            && step.frame == HandedOf(s, step.run)[|ProducedOf(s, step.run)|])
    case Done(r) => r in s.p.runs && !s.p.runs[r].open
  }

  function Apply(s: State, step: Step): State
    requires Enabled(s, step)
  {
    match step
    case Assign(r) =>
      var take := RefusalOf(s.shot, r).Accepted?;
      s.(shot := if take then TakeOf(s.shot, r) else s.shot,
         accepted := if take then s.accepted + {r} else s.accepted,
         refused := if take then s.refused else s.refused + {r})
    case Hand(r, frame) =>
      s.(shot := NoteOf(s.shot, r, frame), handed := s.handed[r := HandedOf(s, r) + [frame]])
    case Protocol(step) => s.(p := P.Apply(s.p, step))
    case Done(r) => s.(shot := AckedOf(s.shot, r))
  }

  /** The object's fields against the frames handed over. */
  ghost predicate ShotInv(s: State) {
    && (forall r | r in s.accepted :: s.shot.taken == Some(r) && (s.shot.runId.Some? ==> s.shot.runId == Some(r)))
    && (s.shot.taken.Some? ==> s.shot.taken.value in s.accepted)
    && (forall r | r in s.refused :: !RefusalOf(s.shot, r).Accepted?)
    && (forall r | r in s.handed :: r in s.accepted || r in s.refused)
    && (s.shot.status.Some? ==>
          s.shot.taken.Some? && EndsFinished(HandedOf(s, s.shot.taken.value))
          && HandedOf(s, s.shot.taken.value)[|HandedOf(s, s.shot.taken.value)| - 1] == P.Finished(s.shot.status.value))
    && (s.shot.taken.Some? && EndsFinished(HandedOf(s, s.shot.taken.value)) ==> s.shot.status.Some?)
    && (forall r, i {:trigger s.handed[r][i]} | r in s.handed && 0 <= i < |s.handed[r]| - 1 :: s.handed[r][i].Event?)
  }

  /** The protocol's frames are those handed over, in order. */
  ghost predicate OrderInv(s: State) {
    && P.Inv(s.p)
    && (forall r | r in s.p.runs :: s.p.runs[r].produced <= HandedOf(s, r))
    && (s.shot.delivered ==>
          s.shot.status.Some? && s.shot.taken.Some? && s.shot.taken.value in s.p.runs
          && !s.p.runs[s.shot.taken.value].open)
  }

  ghost predicate Inv(s: State) {
    ShotInv(s) && OrderInv(s)
  }

  lemma AssignKeeps(s: State, r: RunId)
    requires Inv(s)
    ensures Inv(Apply(s, Assign(r)))
  {
    hide P.Inv;
  }

  lemma HandKeepsShot(s: State, r: RunId, frame: P.Frame)
    requires ShotInv(s) && Enabled(s, Hand(r, frame))
    ensures ShotInv(Apply(s, Hand(r, frame)))
  {
  }

  lemma HandKeeps(s: State, r: RunId, frame: P.Frame)
    requires Inv(s) && Enabled(s, Hand(r, frame))
    ensures Inv(Apply(s, Hand(r, frame)))
  {
    hide P.Inv;
    HandKeepsShot(s, r, frame);
  }

  lemma DoneKeeps(s: State, r: RunId)
    requires Inv(s) && Enabled(s, Done(r))
    ensures Inv(Apply(s, Done(r)))
  {
    hide P.Inv;
  }

  /** A step of the protocol appends at most the frame it produces, and never reopens a spool. */
  lemma FramesKept(p: P.State, step: P.Step, r: RunId)
    requires P.Inv(p) && P.Enabled(p, step) && r in P.Apply(p, step).runs
    ensures var q := P.Apply(p, step);
      && q.runs[r].produced == P.RunOf(p, r).produced + (if step.Produce? && step.run == r then [step.frame] else [])
      && (r in p.runs && !p.runs[r].open ==> !q.runs[r].open)
  {
    hide P.Inv;
  }

  lemma RunsKept(p: P.State, step: P.Step, r: RunId)
    requires P.Enabled(p, step) && r in p.runs
    ensures r in P.Apply(p, step).runs
  {
  }

  lemma ShotIgnoresProtocol(s: State, p: P.State)
    requires ShotInv(s)
    ensures ShotInv(s.(p := p))
  {
    hide P.Inv;
  }

  /** Appending the frame that is next keeps a prefix a prefix. */
  lemma NextInPrefix(produced: seq<P.Frame>, handed: seq<P.Frame>)
    requires produced <= handed && |produced| < |handed|
    ensures produced + [handed[|produced|]] <= handed
  {
  }

  lemma ProtocolKeepsOrder(s: State, step: P.Step, r: RunId)
    requires P.Inv(s.p) && Enabled(s, Protocol(step)) && r in P.Apply(s.p, step).runs
    requires r in s.p.runs ==> s.p.runs[r].produced <= HandedOf(s, r)
    ensures P.Apply(s.p, step).runs[r].produced <= HandedOf(s, r)
  {
    FramesKept(s.p, step, r);
    hide P.Inv, P.Enabled, P.Apply;
    if step.Produce? && step.run == r { NextInPrefix(ProducedOf(s, r), HandedOf(s, r)); }
  }

  lemma ProtocolKeeps(s: State, step: P.Step)
    requires Inv(s) && Enabled(s, Protocol(step))
    ensures Inv(Apply(s, Protocol(step)))
  {
    P.StepKeeps(s.p, step);
    hide P.Inv, P.Enabled, P.Apply, ShotInv, OrderInv;
    ShotIgnoresProtocol(s, P.Apply(s.p, step));
    ProtocolKeepsAll(s, step);
  }

  lemma ProtocolKeepsAll(s: State, step: P.Step)
    requires OrderInv(s) && Enabled(s, Protocol(step)) && P.Inv(P.Apply(s.p, step))
    ensures OrderInv(Apply(s, Protocol(step)))
  {
    hide P.Inv, P.Enabled, P.Apply;
    var t := Apply(s, Protocol(step));
    forall r | r in t.p.runs ensures t.p.runs[r].produced <= HandedOf(s, r) {
      ProtocolKeepsOrder(s, step, r);
    }
    if s.shot.delivered {
      RunsKept(s.p, step, s.shot.taken.value);
      FramesKept(s.p, step, s.shot.taken.value);
    }
  }

  lemma StepKeeps(s: State, step: Step)
    requires Inv(s) && Enabled(s, step)
    ensures Inv(Apply(s, step))
  {
    hide Inv;
    match step
    case Assign(r) => AssignKeeps(s, r);
    case Hand(r, frame) => HandKeeps(s, r, frame);
    case Protocol(inner) => ProtocolKeeps(s, inner);
    case Done(r) => DoneKeeps(s, r);
  }

  ghost predicate Possible(s: State, steps: seq<Step>)
    decreases |steps|
  {
    steps == [] || (Enabled(s, steps[0]) && Possible(Apply(s, steps[0]), steps[1..]))
  }

  ghost function Exec(s: State, steps: seq<Step>): State
    requires Possible(s, steps)
    decreases |steps|
  {
    if steps == [] then s else Exec(Apply(s, steps[0]), steps[1..])
  }

  ghost predicate Reachable(s: State) {
    exists steps: seq<Step> :: Possible(Init(s.shot.runId), steps) && Exec(Init(s.shot.runId), steps) == s
  }

  lemma {:induction false} ExecKeeps(s: State, steps: seq<Step>)
    requires Inv(s) && Possible(s, steps)
    ensures Inv(Exec(s, steps))
    decreases |steps|
  {
    if steps != [] {
      StepKeeps(s, steps[0]);
      hide Inv;
      ExecKeeps(Apply(s, steps[0]), steps[1..]);
    }
  }

  lemma ReachableInv(s: State)
    requires Reachable(s)
    ensures Inv(s)
  {
    var steps: seq<Step> :| Possible(Init(s.shot.runId), steps) && Exec(Init(s.shot.runId), steps) == s;
    assert Inv(Init(s.shot.runId));
    ExecKeeps(Init(s.shot.runId), steps);
  }

  /** At most one run over the agent's whole life, and only the one `--run-id` names. */
  lemma OneRun(s: State, a: RunId, b: RunId)
    requires Reachable(s) && a in s.accepted && b in s.accepted
    ensures a == b && (s.shot.runId.Some? ==> s.shot.runId == Some(a))
  {
    ReachableInv(s);
  }

  /** A completed spool: everything produced is recorded, `run_finished` included. */
  lemma CompleteIsRecorded(p: P.State, r: RunId)
    requires P.Inv(p) && r in p.runs && !p.runs[r].open
    ensures p.runs[r].recorded == p.runs[r].produced && P.HasFinished(p.runs[r])
  {
    assert P.RunOk(p.runs[r]);
  }

  /**
   Exit code 0 means the control plane has recorded the whole of the one run,
   ending with `run_finished` `succeeded`: across any connections, replays,
   refused assignments and lost acks.
   */
  lemma ZeroMeansRecorded(s: State, code: int)
    requires Reachable(s) && ExitCodeOf(s.shot, code) == 0
    ensures s.shot.taken.Some? && s.shot.taken.value in s.p.runs
    ensures var x := s.p.runs[s.shot.taken.value];
      && x.recorded == x.produced == HandedOf(s, s.shot.taken.value)
      && x.recorded != [] && x.recorded[|x.recorded| - 1] == P.Finished("succeeded")
  {
    ReachableInv(s);
    var r := s.shot.taken.value;
    CompleteIsRecorded(s.p, r);
    hide P.Inv;
    FinishedIsLast(s.p.runs[r].produced, HandedOf(s, r));
  }

  /** A prefix that ends the run is the whole of it. */
  lemma FinishedIsLast(produced: seq<P.Frame>, handed: seq<P.Frame>)
    requires produced <= handed && EndsFinished(produced)
    requires forall i | 0 <= i < |handed| - 1 :: handed[i].Event?
    ensures produced == handed
  {
    assert handed[|produced| - 1] == produced[|produced| - 1];
  }

  /** Conversely, the ack that completes the taken run's spool makes its success the exit code. */
  lemma RecordedMeansZero(s: State, r: RunId, code: int)
    requires Reachable(s) && Enabled(s, Done(r)) && s.shot.taken == Some(r)
    requires code == 0 || code == 2
    ensures var x := s.p.runs[r];
      && x.recorded != []
      && ExitCodeOf(Apply(s, Done(r)).shot, code)
         == if x.recorded[|x.recorded| - 1] == P.Finished("succeeded") then 0 else 1
  {
    ReachableInv(s);
    CompleteIsRecorded(s.p, r);
    hide P.Inv;
    FinishedIsLast(s.p.runs[r].produced, HandedOf(s, r));
  }

  /** What is settled stays settled: the run taken, its status, and the delivery. */
  lemma ShotIsMonotone(s: State, step: Step)
    requires Enabled(s, step)
    ensures var t := Apply(s, step).shot;
      && t.runId == s.shot.runId
      && (s.shot.taken.Some? ==> t.taken == s.shot.taken)
      && (s.shot.status.Some? ==> t.status == s.shot.status)
      && (s.shot.delivered ==> t.delivered)
  {
  }

  // ── what the steps do ─────────────────────────────────────────────────

  /** An agent that has taken no run takes the first one it may, and after it refuses every other. */
  lemma Assigning(s: State, r: RunId, other: RunId)
    requires s.shot.taken.None? && (s.shot.runId.Some? ==> s.shot.runId == Some(r)) && other != r
    ensures Apply(Apply(s, Assign(r)), Assign(other)) ==
      s.(shot := s.shot.(taken := Some(r)), accepted := s.accepted + {r}, refused := s.refused + {other})
    ensures s.shot.runId.Some? ==> Apply(s, Assign(other)) == s.(refused := s.refused + {other})
  {
  }

  /** The frames of the run taken are handed over in order, and its end is noted; another run's end is not. */
  lemma Handing(s: State, r: RunId, other: RunId, frame: P.Frame, status: string)
    requires s.shot.taken == Some(r) && s.shot.status.None? && frame.Event? && other != r
    requires r in s.accepted && HandedOf(s, r) == [] && other in s.refused && HandedOf(s, other) == []
    ensures Enabled(s, Hand(r, frame)) && Enabled(Apply(s, Hand(r, frame)), Hand(r, P.Finished(status)))
    ensures Apply(Apply(s, Hand(r, frame)), Hand(r, P.Finished(status))) ==
      s.(shot := s.shot.(status := Some(status)), handed := s.handed[r := [frame, P.Finished(status)]])
    ensures Enabled(s, Hand(other, P.Finished(status)))
    ensures Apply(s, Hand(other, P.Finished(status))) == s.(handed := s.handed[other := [P.Finished(status)]])
  {
    var last := P.Finished(status);
    var t := Apply(s, Hand(r, frame));
    assert HandedOf(s, r) + [frame] == [frame] && HandedOf(s, other) + [last] == [last];
    assert HandedOf(t, r) + [last] == [frame, last];
    assert s.handed[r := [frame]][r := [frame, last]] == s.handed[r := [frame, last]];
  }

  /** The ack of a completed spool is a delivery exactly for the run taken, once its end is noted. */
  lemma Delivering(s: State, r: RunId, other: RunId)
    requires s.shot.taken == Some(r) && other != r
    requires r in s.p.runs && other in s.p.runs && !s.p.runs[r].open && !s.p.runs[other].open
    ensures Enabled(s, Done(r)) && Enabled(s, Done(other))
    ensures Apply(s, Done(r)) == if s.shot.status.Some? then s.(shot := s.shot.(delivered := true)) else s
    ensures Apply(s, Done(other)) == s
  {
  }

  /** The protocol numbers the frames handed over, in that order, and no others. */
  lemma Producing(s: State, r: RunId, frame: P.Frame)
    requires P.Enabled(s.p, P.Produce(r, frame))
    ensures HandedOf(s, r) == ProducedOf(s, r) + [frame] ==>
      Enabled(s, Protocol(P.Produce(r, frame))) && Apply(s, Protocol(P.Produce(r, frame))) == s.(p := P.Apply(s.p, P.Produce(r, frame)))
    ensures HandedOf(s, r) == ProducedOf(s, r) ==> !Enabled(s, Protocol(P.Produce(r, frame)))
  {
    hide P.Enabled, P.Apply;
  }
}
