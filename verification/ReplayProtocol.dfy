/**
 The run-frame protocol of `backend/app/agent/connection.py` over the spools
 of `backend/app/agent/spool.py`, against the frame routing of
 `backend/app/core/workers.py`, as a state machine.

 One step is what happens between two points where the event loop may switch
 tasks: `send_frame` holds the send lock over `Produce` and `Direct`; the
 replay gives it up between frames; acks are applied in a thread, outside it.
 Any number of runs; connections fail at any point and frames in flight on an
 old one may still be read while the next one is up.
 */
module ReplayProtocol {
  import opened Wrappers
  import opened SpoolSpec

  type RunId = string

  /** What a frame says; only `run_finished` matters to the protocol. */
  datatype Frame = Event(text: string) | Finished(status: string)

  const REPLAY_BATCH: nat := 256

  datatype Run = Run(
    produced: seq<Frame>,     // frame number k is produced[k - 1]
    spool: SpoolState<Frame>,
    open: bool,               // still in the store, its file handle open
    cpLast: nat,              // control plane: WorkerRun.last_seq
    recorded: seq<Frame>      // control plane: the run's inbox, in order
  )

  /** What goes out on a socket. */
  datatype Item = Alive(runs: set<RunId>) | Sent(run: RunId, num: nat, line: Frame)

  datatype Wire = Wire(
    known: set<RunId>,        // the runs that had a spool when it was announced
    listed: set<RunId>,       // of these, the ones run_alive names
    items: seq<Item>,
    read: nat                 // how many the control plane has read
  )

  datatype Replay =
    | Idle
    | Asking(todo: seq<RunId>)                            // about to call read_after
    | Reading(todo: seq<RunId>, from: nat)                // read_after(from) under way
    | Sending(todo: seq<RunId>, batch: seq<Entry<Frame>>)
    | Done
    | Died(at: RunId)                                     // read_after or ws.send raised

  datatype State = State(
    runs: map<RunId, Run>,
    wires: seq<Wire>,          // every connection so far; the last is the newest
    live: bool,                // self._ws is the newest connection
    closed: bool,              // its socket is closed: a send raises
    sending: Option<RunId>,    // send_frame holds the lock for this run
    replay: Replay,
    overtaken: set<RunId>      // an ack was ahead of `sent` at the replay's last read
  )

  datatype Outcome = Delivered | LostAfterWrite | Refused

  datatype Step =
    | Produce(run: RunId, frame: Frame)
    | Direct(outcome: Outcome)
    | AckStep(run: RunId, num: nat)
    | Close(run: RunId)
    | Announce(ok: bool)
    | StartReplay(order: seq<RunId>)
    | Ask
    | Read
    | ReplaySend(outcome: Outcome)
    | SocketCloses
    | Disconnect
    | Receive(wire: nat)

  // ── helpers ───────────────────────────────────────────────────────────

  function Init(): State {
    State(map[], [], false, false, None, Idle, {})
  }

  function NewRun(): Run {
    Run([], Empty(), true, 0, [])
  }

  predicate HasFinished(x: Run) {
    x.produced != [] && x.produced[|x.produced| - 1].Finished?
  }

  function RunOf(s: State, r: RunId): Run {
    if r in s.runs then s.runs[r] else NewRun()
  }

  function Put(w: Wire, item: Item): Wire {
    w.(items := w.items + [item])
  }

  function Newest(ws: seq<Wire>): Wire
    requires ws != []
  {
    ws[|ws| - 1]
  }

  function PutLast(ws: seq<Wire>, item: Item): seq<Wire>
    requires ws != []
  {
    ws[|ws| - 1 := Put(ws[|ws| - 1], item)]
  }

  /** `alive_entries`: a run still running, or with frames to deliver. */
  predicate Listed(x: Run) {
    x.open && (x.spool.pending != [] || !HasFinished(x))
  }

  function Rewind(x: Run): Run {
    x.(spool := x.spool.(sent := x.spool.acked))
  }

  function SetSent(s: State, r: RunId, n: nat): map<RunId, Run>
    requires r in s.runs
  {
    s.runs[r := s.runs[r].(spool := s.runs[r].spool.(sent := n))]
  }

  /** `ws.send(line)` of frame `n` of `r`, then `spool.sent = n` when it did not raise. */
  function Transmit(s: State, r: RunId, n: nat, line: Frame, outcome: Outcome): State
    requires r in s.runs && s.wires != []
  {
    match outcome
    case Delivered => s.(wires := PutLast(s.wires, Sent(r, n, line)), runs := SetSent(s, r, n))
    case LostAfterWrite => s.(wires := PutLast(s.wires, Sent(r, n, line)), closed := true)
    case Refused => s.(closed := true)
  }

  /** `WorkerRegistry.route`: a duplicate is dropped, anything above is taken, gap or not. */
  function Route(x: Run, n: nat, line: Frame): Run {
    if n <= x.cpLast then x else x.(cpLast := n, recorded := x.recorded + [line])
  }

  ghost predicate NoDuplicates(a: seq<RunId>) {
    forall i, j | 0 <= i < j < |a| :: a[i] != a[j]
  }

  // ── the steps ─────────────────────────────────────────────────────────

  /** `send_frame` takes the lock and spools the frame, the next one of its run. */
  predicate CanProduce(s: State, r: RunId) {
    s.sending.None? && !HasFinished(RunOf(s, r))
  }

  function ProduceStep(s: State, r: RunId, frame: Frame): State {
    var x := RunOf(s, r);
    s.(runs := s.runs[r := x.(produced := x.produced + [frame],
                              spool := Append(x.spool, |x.produced| + 1, frame, frame.Finished?))],
       sending := Some(r))
  }

  /** The rest of `send_frame`: out now when it is the next frame owed, else left to the replay. */
  predicate CanDirect(s: State, outcome: Outcome) {
    s.sending.Some? && s.sending.value in s.runs && (s.closed ==> outcome.Refused?)
  }

  function DirectStep(s: State, outcome: Outcome): State
    requires CanDirect(s, outcome)
  {
    var r := s.sending.value;
    var x := s.runs[r];
    var n := |x.produced|;
    var released := s.(sending := None);
    if n == 0 || n != x.spool.sent + 1 || !s.live || s.wires == [] then released
    else Transmit(released, r, n, x.produced[n - 1], outcome)
  }

  /** An `ack` the control plane sent at some point, applied in a thread. */
  predicate CanAck(s: State, r: RunId, n: nat) {
    r in s.runs && s.runs[r].open && n <= s.runs[r].cpLast
  }

  function AckStepOn(s: State, r: RunId, n: nat): State
    requires CanAck(s, r, n)
  {
    s.(runs := s.runs[r := s.runs[r].(spool := Ack(s.runs[r].spool, n))])
  }

  /** `SpoolStore.ack` closes and forgets a completed spool. */
  predicate CanClose(s: State, r: RunId) {
    r in s.runs && s.runs[r].open && s.runs[r].spool.Complete()
  }

  function CloseStep(s: State, r: RunId): State
    requires CanClose(s, r)
  {
    s.(runs := s.runs[r := s.runs[r].(open := false)])
  }

  /** `_announce`: rewind every spool, `run_alive` first when there is one to say. */
  predicate CanAnnounce(s: State) {
    s.sending.None? && !s.live && s.replay.Idle?
  }

  function AnnounceStep(s: State, ok: bool): State {
    var listed := set r | r in s.runs && Listed(s.runs[r]);
    var items := if listed == {} || !ok then [] else [Alive(listed)];
    s.(runs := map r | r in s.runs :: Rewind(s.runs[r]),
       wires := s.wires + [Wire(s.runs.Keys, listed, items, 0)],
       live := true, closed := listed != {} && !ok, overtaken := {})
  }

  /** `_replay` starts over the spools the store holds, in some order. */
  ghost predicate CanStartReplay(s: State, order: seq<RunId>) {
    s.live && s.replay.Idle? && NoDuplicates(order)
    && (forall r | r in s.runs && s.runs[r].open :: r in order)
    && (forall r | r in order :: r in s.runs && s.runs[r].open)
  }

  function StartReplayStep(s: State, order: seq<RunId>): State {
    s.(replay := Asking(order))
  }

  /** The argument of the next `read_after`, or the end of the loop. */
  function AskStep(s: State): State
    requires s.replay.Asking?
  {
    var todo := s.replay.todo;
    s.(replay := if todo == [] || todo[0] !in s.runs then Done
                 else Reading(todo, s.runs[todo[0]].spool.sent))
  }

  predicate CanRead(s: State) {
    s.replay.Reading? && s.replay.todo != [] && s.replay.todo[0] in s.runs
  }

  /** `read_after` in its thread: it raises on a closed spool, an empty batch moves on. */
  function ReadStep(s: State): State
    requires CanRead(s)
  {
    var r := s.replay.todo[0];
    var x := s.runs[r];
    if !x.open then s.(replay := Died(r))
    else
      var batch := ReadAfter(x.spool, s.replay.from, REPLAY_BATCH);
      if batch != [] then s.(replay := Sending(s.replay.todo, batch))
      else s.(replay := Asking(s.replay.todo[1..]),
              overtaken := if x.spool.sent < x.spool.acked then s.overtaken + {r} else s.overtaken)
  }

  predicate CanReplaySend(s: State, outcome: Outcome) {
    s.replay.Sending? && s.sending.None? && s.live
    && s.replay.todo != [] && s.replay.todo[0] in s.runs && s.wires != []
    && (s.closed ==> outcome.Refused?)
  }

  /** One turn of the replay's inner loop, under the lock. */
  function ReplaySendStep(s: State, outcome: Outcome): State
    requires CanReplaySend(s, outcome)
  {
    var Sending(todo, batch) := s.replay;
    if batch == [] then s.(replay := Asking(todo))
    else if batch[0].num <= s.runs[todo[0]].spool.sent then s.(replay := Sending(todo, batch[1..]))
    else
      var t := Transmit(s, todo[0], batch[0].num, batch[0].line, outcome);
      t.(replay := if outcome.Delivered? then Sending(todo, batch[1..]) else Died(todo[0]))
  }

  function SocketClosesStep(s: State): State {
    s.(closed := true)
  }

  /** The `finally` of `_serve`. */
  function DisconnectStep(s: State): State {
    s.(live := false, replay := Idle)
  }

  predicate CanReceive(s: State, w: nat) {
    w < |s.wires| && s.wires[w].read < |s.wires[w].items|
  }

  function MarkRead(ws: seq<Wire>, w: nat): seq<Wire>
    requires w < |ws|
  {
    ws[w := ws[w].(read := ws[w].read + 1)]
  }

  /** The control plane reads the next item of a connection, the newest or an old one. */
  function ReceiveStep(s: State, w: nat): State
    requires CanReceive(s, w)
  {
    var item := s.wires[w].items[s.wires[w].read];
    var t := if item.Sent? && item.run in s.runs
             then s.(runs := s.runs[item.run := Route(s.runs[item.run], item.num, item.line)]) else s;
    t.(wires := MarkRead(s.wires, w))
  }

  ghost predicate Enabled(s: State, step: Step) {
    match step
    case Produce(r, _) => CanProduce(s, r)
    case Direct(outcome) => CanDirect(s, outcome)
    case AckStep(r, n) => CanAck(s, r, n)
    case Close(r) => CanClose(s, r)
    case Announce(_) => CanAnnounce(s)
    case StartReplay(order) => CanStartReplay(s, order)
    case Ask => s.replay.Asking?
    case Read => CanRead(s)
    case ReplaySend(outcome) => CanReplaySend(s, outcome)
    case SocketCloses => s.live
    case Disconnect => s.live
    case Receive(w) => CanReceive(s, w)
  }

  function Apply(s: State, step: Step): State
    requires Enabled(s, step)
  {
    match step
    case Produce(r, frame) => ProduceStep(s, r, frame)
    case Direct(outcome) => DirectStep(s, outcome)
    case AckStep(r, n) => AckStepOn(s, r, n)
    case Close(r) => CloseStep(s, r)
    case Announce(ok) => AnnounceStep(s, ok)
    case StartReplay(order) => StartReplayStep(s, order)
    case Ask => AskStep(s)
    case Read => ReadStep(s)
    case ReplaySend(outcome) => ReplaySendStep(s, outcome)
    case SocketCloses => SocketClosesStep(s)
    case Disconnect => DisconnectStep(s)
    case Receive(w) => ReceiveStep(s, w)
  }

  // ── the invariant ─────────────────────────────────────────────────────

  /** One run's spool against what it produced and what was recorded. */
  ghost predicate RunOk(x: Run) {
    && x.spool.acked <= x.cpLast == |x.recorded| <= |x.produced|
    && x.recorded == x.produced[..x.cpLast]
    && x.spool.lastSeq == |x.produced|
    && x.spool.sent <= |x.produced|
    && x.spool.pending == Numbered(x.produced, x.spool.acked, |x.produced|)
    && (forall i | 0 <= i < |x.produced| - 1 :: x.produced[i].Event?)
    && x.spool.finalSeq == (if HasFinished(x) then Some(|x.produced|) else None)
    && (!x.open ==> x.spool.Complete())
  }

  predicate IsFor(item: Item, r: RunId) {
    item.Sent? && item.run == r
  }

  /** Frame `t` of `r` is on the wire before position `i`. */
  ghost predicate SentBefore(items: seq<Item>, i: int, r: RunId, t: nat) {
    exists j :: 0 <= j < i && j < |items| && IsFor(items[j], r) && items[j].num == t
  }

  /** What one wire holds of run `r`. */
  ghost predicate WireOk(w: Wire, r: RunId, x: Run) {
    && w.read <= |w.items|
    && (forall i | 0 <= i < |w.items| && IsFor(w.items[i], r) ::
          1 <= w.items[i].num <= |x.produced| && w.items[i].line == x.produced[w.items[i].num - 1])
    && (forall i | 0 <= i < w.read && IsFor(w.items[i], r) :: w.items[i].num <= x.cpLast)
    && (forall i, t: nat {:trigger SentBefore(w.items, i, r, t)} |
          0 <= i < |w.items| && IsFor(w.items[i], r) && 1 <= t < w.items[i].num ::
          t <= x.spool.acked || SentBefore(w.items, i, r, t))
    && (forall i, j | 0 <= i < j < |w.items| && IsFor(w.items[i], r) && IsFor(w.items[j], r) ::
          w.items[i].num < w.items[j].num)
    && (forall i | 0 <= i < |w.items| && IsFor(w.items[i], r) && r in w.known ::
          r in w.listed && 0 < i && w.items[0] == Alive(w.listed))
  }

  /** The newest wire, its socket open or closed, against `spool.sent`. */
  ghost predicate LiveOk(w: Wire, closed: bool, r: RunId, x: Run) {
    && (forall t: nat {:trigger SentBefore(w.items, |w.items|, r, t)} | 1 <= t <= x.spool.sent ::
          t <= x.spool.acked || SentBefore(w.items, |w.items|, r, t))
    && (!closed ==> forall i | 0 <= i < |w.items| && IsFor(w.items[i], r) :: w.items[i].num <= x.spool.sent)
    && (r in w.known && r !in w.listed ==> HasFinished(x) && x.spool.sent == |x.produced|)
  }

  ghost predicate ReplayOk(s: State) {
    match s.replay
    case Idle => s.live ==> s.overtaken == {}
    case Asking(todo) =>
      s.live && NoDuplicates(todo) && (forall r | r in todo :: r in s.runs) && (forall r | r in todo :: r !in s.overtaken)
    case Reading(todo, from) =>
      s.live && todo != [] && NoDuplicates(todo) && (forall r | r in todo :: r in s.runs)
      && (forall r | r in todo :: r !in s.overtaken)
      && from <= s.runs[todo[0]].spool.sent
    case Sending(todo, batch) =>
      s.live && todo != [] && NoDuplicates(todo) && (forall r | r in todo :: r in s.runs)
      && (forall r | r in todo :: r !in s.overtaken)
      && BatchOk(s.runs[todo[0]], batch)
    case Done => s.live
    case Died(r) => s.live && r in s.runs && (s.closed || !s.runs[r].open)
  }

  /** A batch is a contiguous stretch starting no later than just above `sent` and `acked`. */
  ghost predicate BatchOk(x: Run, batch: seq<Entry<Frame>>) {
    batch != [] ==>
      && 1 <= batch[0].num <= (if x.spool.sent < x.spool.acked then x.spool.acked else x.spool.sent) + 1
      && batch[0].num - 1 + |batch| <= |x.produced|
      && batch == Numbered(x.produced, batch[0].num - 1, batch[0].num - 1 + |batch|)
  }

  /** The runs the replay still has to bring up to date. */
  function Todo(p: Replay): seq<RunId> {
    if p.Asking? || p.Reading? || p.Sending? then p.todo else []
  }

  /** `r` is up to date on this connection, or its newest frame is being sent right now. */
  ghost predicate CaughtUp(s: State, r: RunId, x: Run) {
    x.spool.sent == |x.produced| || (s.sending == Some(r) && x.spool.sent + 1 == |x.produced|)
  }

  /** After the replay's last read of `r`, it is caught up or an ack had overtaken it. */
  ghost predicate ProgressOk(s: State, r: RunId, x: Run) {
    && (r in s.overtaken ==> x.spool.sent < x.spool.acked && (s.sending == Some(r) ==> x.spool.sent + 1 < |x.produced|))
    && (s.live && !s.closed && !s.replay.Idle? && !s.replay.Died? && x.open && r !in Todo(s.replay) ==>
          CaughtUp(s, r, x) || r in s.overtaken)
  }

  ghost predicate AllProgress(s: State) {
    forall r | r in s.runs :: ProgressOk(s, r, s.runs[r])
  }

  ghost predicate RunsOk(runs: map<RunId, Run>) {
    forall r | r in runs :: RunOk(runs[r])
  }

  ghost predicate WiresOk(runs: map<RunId, Run>, wires: seq<Wire>) {
    forall w, r | 0 <= w < |wires| && r in runs :: WireOk(wires[w], r, runs[r])
  }

  ghost predicate NamesOk(runs: map<RunId, Run>, wires: seq<Wire>) {
    && (forall w, i | 0 <= w < |wires| && 0 <= i < |wires[w].items| && wires[w].items[i].Sent? ::
          wires[w].items[i].run in runs)
    && (forall w | 0 <= w < |wires| :: wires[w].read <= |wires[w].items|)
    && (forall w | 0 <= w < |wires| :: wires[w].listed <= wires[w].known <= runs.Keys)
  }

  /** `_announce` put `run_alive` first, or the socket was lost with it. */
  ghost predicate Announced(w: Wire, closed: bool) {
    !closed && w.listed != {} ==> w.items != [] && w.items[0] == Alive(w.listed)
  }

  ghost predicate NewestOk(runs: map<RunId, Run>, wires: seq<Wire>, closed: bool) {
    wires != [] && Announced(Newest(wires), closed) && forall r | r in runs :: LiveOk(Newest(wires), closed, r, runs[r])
  }

  /** The frame `send_frame` holds the lock for has not gone out anywhere. */
  ghost predicate SendingOk(s: State, r: RunId) {
    && r in s.runs
    && s.runs[r].cpLast < |s.runs[r].produced|
    && (forall w, i | 0 <= w < |s.wires| && 0 <= i < |s.wires[w].items| && IsFor(s.wires[w].items[i], r) ::
          s.wires[w].items[i].num < |s.runs[r].produced|)
  }

  /** Runs and wires, leaving the replay aside. */
  ghost predicate Core(s: State) {
    && RunsOk(s.runs)
    && WiresOk(s.runs, s.wires)
    && NamesOk(s.runs, s.wires)
    && (s.live ==> NewestOk(s.runs, s.wires, s.closed))
    && (s.sending.Some? ==> SendingOk(s, s.sending.value))
    && s.overtaken <= s.runs.Keys
  }

  ghost predicate Inv(s: State) {
    && Core(s)
    && ReplayOk(s)
    && AllProgress(s)
  }

  // ── what one wire keeps ───────────────────────────────────────────────

  ghost predicate Grows(x: Run, y: Run) {
    && x.produced <= y.produced
    && x.cpLast <= y.cpLast
    && x.spool.acked <= y.spool.acked
  }

  lemma WireGrows(w: Wire, r: RunId, x: Run, y: Run)
    requires WireOk(w, r, x) && Grows(x, y)
    ensures WireOk(w, r, y)
  {
  }

  lemma SentBeforePut(w: Wire, item: Item, i: int, r: RunId, t: nat)
    requires SentBefore(w.items, i, r, t)
    ensures SentBefore(Put(w, item).items, i, r, t)
  {
    var j :| 0 <= j < i && j < |w.items| && IsFor(w.items[j], r) && w.items[j].num == t;
    assert Put(w, item).items[j] == w.items[j];
  }

  lemma WirePutOther(w: Wire, item: Item, r: RunId, x: Run)
    requires WireOk(w, r, x) && !IsFor(item, r)
    ensures WireOk(Put(w, item), r, x)
  {
    var w' := Put(w, item);
    forall i, t: nat | 0 <= i < |w'.items| && IsFor(w'.items[i], r) && 1 <= t < w'.items[i].num
      ensures t <= x.spool.acked || SentBefore(w'.items, i, r, t)
    {
      assert t <= x.spool.acked || SentBefore(w.items, i, r, t);
      if t > x.spool.acked { SentBeforePut(w, item, i, r, t); }
    }
  }

  /** Sending frame `n` of `r` when everything below it is acknowledged or already on the wire. */
  lemma WirePutOwn(w: Wire, r: RunId, x: Run, n: nat)
    requires WireOk(w, r, x) && 1 <= n <= |x.produced|
    requires forall t: nat | 1 <= t < n :: t <= x.spool.acked || SentBefore(w.items, |w.items|, r, t)
    requires forall i | 0 <= i < |w.items| && IsFor(w.items[i], r) :: w.items[i].num < n
    requires r in w.known ==> r in w.listed && w.items != [] && w.items[0] == Alive(w.listed)
    ensures WireOk(Put(w, Sent(r, n, x.produced[n - 1])), r, x)
  {
    var item := Sent(r, n, x.produced[n - 1]);
    var w' := Put(w, item);
    forall i, t: nat | 0 <= i < |w'.items| && IsFor(w'.items[i], r) && 1 <= t < w'.items[i].num
      ensures t <= x.spool.acked || SentBefore(w'.items, i, r, t)
    {
      if t > x.spool.acked {
        assert SentBefore(w.items, i, r, t);
        SentBeforePut(w, item, i, r, t);
      }
    }
  }

  /** The control plane never sees a gap: the next frame it reads is at most one ahead. */
  lemma NoGap(w: Wire, r: RunId, x: Run)
    requires RunOk(x) && WireOk(w, r, x) && w.read < |w.items| && IsFor(w.items[w.read], r)
    ensures w.items[w.read].num <= x.cpLast + 1
  {
    var t := x.cpLast + 1;
    assert t < w.items[w.read].num ==> SentBefore(w.items, w.read, r, t);
  }

  // ── every step keeps the invariant ────────────────────────────────────

  /** Nothing between `sent` and `n` is owed to the connection. */
  predicate MaySkipTo(x: Run, n: nat) {
    x.spool.sent < n <= |x.produced| && (n - 1 <= x.spool.sent || n - 1 <= x.spool.acked)
  }

  lemma PutKeepsSender(w: Wire, r: RunId, x: Run, n: nat, delivered: bool)
    requires WireOk(w, r, x) && LiveOk(w, false, r, x) && Announced(w, false) && MaySkipTo(x, n)
    ensures var y := if delivered then x.(spool := x.spool.(sent := n)) else x;
      var w' := Put(w, Sent(r, n, x.produced[n - 1]));
      WireOk(w', r, y) && LiveOk(w', !delivered, r, y)
  {
    var item := Sent(r, n, x.produced[n - 1]);
    var w' := Put(w, item);
    var y := if delivered then x.(spool := x.spool.(sent := n)) else x;
    forall t: nat | 1 <= t < n ensures t <= x.spool.acked || SentBefore(w.items, |w.items|, r, t) {
      assert t <= x.spool.sent ==> t <= x.spool.acked || SentBefore(w.items, |w.items|, r, t);
    }
    WirePutOwn(w, r, x, n);
    WireGrows(w', r, x, y);
    forall t: nat | 1 <= t <= y.spool.sent
      ensures t <= y.spool.acked || SentBefore(w'.items, |w'.items|, r, t)
    {
      if t == n {
        assert IsFor(w'.items[|w.items|], r);
      } else if t > y.spool.acked {
        assert SentBefore(w.items, |w.items|, r, t);
        SentBeforeEnd(w, item, r, t);
      }
    }
  }

  lemma SentBeforeEnd(w: Wire, item: Item, r: RunId, t: nat)
    requires SentBefore(w.items, |w.items|, r, t)
    ensures SentBefore(Put(w, item).items, |Put(w, item).items|, r, t)
  {
    var j :| 0 <= j < |w.items| && IsFor(w.items[j], r) && w.items[j].num == t;
    assert Put(w, item).items[j] == w.items[j];
  }

  lemma PutKeepsOther(w: Wire, item: Item, closed: bool, q: RunId, y: Run)
    requires WireOk(w, q, y) && LiveOk(w, false, q, y) && !IsFor(item, q)
    ensures WireOk(Put(w, item), q, y) && LiveOk(Put(w, item), closed, q, y)
  {
    WirePutOther(w, item, q, y);
    var w' := Put(w, item);
    forall t: nat | 1 <= t <= y.spool.sent
      ensures t <= y.spool.acked || SentBefore(w'.items, |w'.items|, q, t)
    {
      assert t <= y.spool.acked || SentBefore(w.items, |w.items|, q, t);
      if t > y.spool.acked { SentBeforeEnd(w, item, q, t); }
    }
  }

  lemma SentKeepsRun(x: Run, n: nat)
    requires RunOk(x) && n <= |x.produced|
    ensures RunOk(x.(spool := x.spool.(sent := n)))
  {
  }

  function WithSent(x: Run, n: nat): Run {
    x.(spool := x.spool.(sent := n))
  }

  lemma PutKeepsNewest(runs: map<RunId, Run>, w: Wire, r: RunId, n: nat, delivered: bool, q: RunId, y: Run)
    requires r in runs && MaySkipTo(runs[r], n) && q in runs
    requires WireOk(w, q, runs[q]) && LiveOk(w, false, q, runs[q]) && Announced(w, false)
    requires y == if q == r && delivered then WithSent(runs[r], n) else runs[q]
    ensures var w' := Put(w, Sent(r, n, runs[r].produced[n - 1]));
      WireOk(w', q, y) && LiveOk(w', !delivered, q, y)
  {
    hide WireOk, LiveOk;
    if q == r {
      PutKeepsSender(w, r, runs[r], n, delivered);
    } else {
      PutKeepsOther(w, Sent(r, n, runs[r].produced[n - 1]), !delivered, q, runs[q]);
    }
  }

  lemma SentKeepsRuns(runs: map<RunId, Run>, r: RunId, n: nat)
    requires RunsOk(runs) && r in runs && n <= |runs[r].produced|
    ensures RunsOk(runs[r := WithSent(runs[r], n)])
  {
    assert RunOk(runs[r]);
    SentKeepsRun(runs[r], n);
    hide RunOk;
  }

  lemma PutKeepsWires(runs: map<RunId, Run>, wires: seq<Wire>, runs': map<RunId, Run>, wires': seq<Wire>,
                      r: RunId, n: nat, delivered: bool)
    requires WiresOk(runs, wires) && NewestOk(runs, wires, false)
    requires r in runs && MaySkipTo(runs[r], n)
    requires runs' == if delivered then runs[r := WithSent(runs[r], n)] else runs
    requires wires' == PutLast(wires, Sent(r, n, runs[r].produced[n - 1]))
    ensures WiresOk(runs', wires') && NewestOk(runs', wires', !delivered)
  {
    hide WireOk, LiveOk;
    forall q | q in runs'
      ensures WireOk(Newest(wires'), q, runs'[q]) && LiveOk(Newest(wires'), !delivered, q, runs'[q])
    {
      assert LiveOk(Newest(wires), false, q, runs[q]) && WireOk(wires[|wires| - 1], q, runs[q]);
      PutKeepsNewest(runs, Newest(wires), r, n, delivered, q, runs'[q]);
    }
    forall v, q | 0 <= v < |wires| - 1 && q in runs' ensures WireOk(wires'[v], q, runs'[q]) {
      assert WireOk(wires[v], q, runs[q]);
      WireGrows(wires[v], q, runs[q], runs'[q]);
    }
  }

  lemma PutKeepsNames(runs: map<RunId, Run>, wires: seq<Wire>, r: RunId, n: nat, line: Frame)
    requires NamesOk(runs, wires) && wires != [] && r in runs
    ensures NamesOk(runs, PutLast(wires, Sent(r, n, line)))
  {
    var wires' := PutLast(wires, Sent(r, n, line));
    forall w, i | 0 <= w < |wires'| && 0 <= i < |wires'[w].items| && wires'[w].items[i].Sent?
      ensures wires'[w].items[i].run in runs
    {
      if i < |wires[w].items| { assert wires'[w].items[i] == wires[w].items[i]; }
    }
  }

  /** `ws.send` of a frame above `sent` whose skipped predecessors are all acknowledged. */
  lemma TransmitKeepsCore(s: State, r: RunId, n: nat, outcome: Outcome)
    requires Core(s) && s.live && r in s.runs && MaySkipTo(s.runs[r], n)
    requires s.closed ==> outcome.Refused?
    requires s.sending.None?
    ensures Core(Transmit(s, r, n, s.runs[r].produced[n - 1], outcome))
  {
    hide RunsOk, WiresOk, NamesOk, NewestOk;
    HasWire(s);
    var line := s.runs[r].produced[n - 1];
    if outcome.Refused? {
      ClosedStaysOk(s.runs, s.wires, s.closed);
    } else {
      var s' := Transmit(s, r, n, line, outcome);
      SentKeepsRuns(s.runs, r, n);
      PutKeepsWires(s.runs, s.wires, s'.runs, s'.wires, r, n, outcome.Delivered?);
      assert s'.runs.Keys == s.runs.Keys;
      PutKeepsNames(s.runs, s.wires, r, n, line);
      NamesByKeys(s.runs, s'.runs, s'.wires);
    }
  }

  lemma HasWire(s: State)
    requires Core(s) && s.live
    ensures s.wires != []
  {
    hide RunsOk, WiresOk, NamesOk, SendingOk;
  }

  lemma NamesByKeys(runs: map<RunId, Run>, runs': map<RunId, Run>, wires: seq<Wire>)
    requires NamesOk(runs, wires) && runs'.Keys == runs.Keys
    ensures NamesOk(runs', wires)
  {
    forall w, i | 0 <= w < |wires| && 0 <= i < |wires[w].items| && wires[w].items[i].Sent?
      ensures wires[w].items[i].run in runs'
    {
      assert wires[w].items[i].run in runs.Keys;
    }
  }

  lemma ClosedStaysOk(runs: map<RunId, Run>, wires: seq<Wire>, closed: bool)
    requires NewestOk(runs, wires, closed)
    ensures NewestOk(runs, wires, true)
  {
    forall q | q in runs ensures LiveOk(Newest(wires), true, q, runs[q]) {
      assert LiveOk(Newest(wires), closed, q, runs[q]);
    }
  }

  lemma RunIsOk(s: State, r: RunId)
    requires Core(s) && r in s.runs
    ensures RunOk(s.runs[r])
  {
    hide WiresOk, NamesOk, NewestOk, SendingOk, RunOk;
  }

  /** A run that only gains frames, records or acks, its `sent` untouched. */
  ghost predicate Advances(x: Run, y: Run) {
    && Grows(x, y)
    && y.spool.sent == x.spool.sent
    && (HasFinished(x) ==> y.produced == x.produced)
  }

  lemma LiveAdvances(w: Wire, closed: bool, r: RunId, x: Run, y: Run)
    requires LiveOk(w, closed, r, x) && Advances(x, y)
    ensures LiveOk(w, closed, r, y)
  {
  }

  lemma AdvanceKeepsCore(s: State, s': State, r: RunId, y: Run)
    requires Core(s) && r in s.runs && RunOk(y) && Advances(s.runs[r], y)
    requires s.sending == Some(r) ==> y.cpLast < |y.produced|
    requires s' == s.(runs := s.runs[r := y])
    ensures Core(s')
  {
    hide WireOk, LiveOk, RunOk, Advances;
    AdvanceGrows(s.runs[r], y);
    forall v, q | 0 <= v < |s.wires| && q in s'.runs ensures WireOk(s.wires[v], q, s'.runs[q]) {
      assert WireOk(s.wires[v], q, s.runs[q]);
      if q == r {
        WireGrows(s.wires[v], q, s.runs[q], y);
      }
    }
    if s.live {
      forall q | q in s'.runs ensures LiveOk(Newest(s.wires), s.closed, q, s'.runs[q]) {
        assert LiveOk(Newest(s.wires), s.closed, q, s.runs[q]);
        if q == r { LiveAdvances(Newest(s.wires), s.closed, q, s.runs[q], y); }
      }
    }
  }

  lemma AdvanceGrows(x: Run, y: Run)
    requires Advances(x, y)
    ensures Grows(x, y)
  {
  }

  lemma AckKeepsRun(x: Run, n: nat)
    requires RunOk(x) && n <= x.cpLast
    ensures var y := x.(spool := Ack(x.spool, n));
      RunOk(y) && Advances(x, y) && x.spool.acked <= y.spool.acked && (n <= y.spool.acked)
  {
    AfterNumbered(x.produced, x.spool.acked, |x.produced|, n);
  }

  lemma ProduceKeepsRun(x: Run, frame: Frame)
    requires RunOk(x) && !HasFinished(x) && x.open
    ensures var y := x.(produced := x.produced + [frame],
                        spool := Append(x.spool, |x.produced| + 1, frame, frame.Finished?));
      RunOk(y) && Advances(x, y)
  {
    var y := x.(produced := x.produced + [frame],
                spool := Append(x.spool, |x.produced| + 1, frame, frame.Finished?));
    assert y.spool.pending == Numbered(y.produced, y.spool.acked, |y.produced|);
    forall i | 0 <= i < |y.produced| - 1 ensures y.produced[i].Event? {
      if i < |x.produced| - 1 { assert x.produced[i].Event?; }
    }
  }

  /** Without a `run_finished` a run's spool is never complete, so it is still open. */
  lemma UnfinishedIsOpen(x: Run)
    requires RunOk(x) && !HasFinished(x)
    ensures x.open
  {
  }

  lemma RouteKeepsRun(x: Run, n: nat)
    requires RunOk(x) && 1 <= n <= x.cpLast + 1 && n <= |x.produced|
    ensures var y := Route(x, n, x.produced[n - 1]);
      RunOk(y) && Advances(x, y) && y.cpLast >= n
  {
    if n > x.cpLast {
      assert x.produced[..n] == x.produced[..x.cpLast] + [x.produced[n - 1]];
    }
  }

  /** The replay's view of its runs survives a run moving on. */
  lemma ReplayAdvances(s: State, s': State, r: RunId, y: Run)
    requires ReplayOk(s) && r in s.runs && Advances(s.runs[r], y)
    requires s' == s.(runs := s.runs[r := y])
    requires s.runs[r].open || !y.open
    ensures ReplayOk(s')
  {
    if s.replay.Sending? {
      BatchAdvances(s.runs[s.replay.todo[0]], s'.runs[s.replay.todo[0]], s.replay.batch);
    }
  }

  lemma BatchAdvances(x: Run, y: Run, batch: seq<Entry<Frame>>)
    requires BatchOk(x, batch) && (x == y || Advances(x, y))
    ensures BatchOk(y, batch)
  {
    if batch != [] {
      var from := batch[0].num - 1;
      assert Numbered(x.produced, from, from + |batch|) == Numbered(y.produced, from, from + |batch|);
    }
  }

  /** An ack, a record or a close: no new frame. */
  lemma AdvanceKeepsInv(s: State, s': State, r: RunId, y: Run)
    requires Inv(s) && r in s.runs && RunOk(y) && Advances(s.runs[r], y)
    requires s' == s.(runs := s.runs[r := y])
    requires y.produced == s.runs[r].produced && (s.runs[r].open || !y.open)
    requires s.sending == Some(r) ==> y.cpLast < |y.produced|
    ensures Inv(s')
  {
    hide Core, ReplayOk, RunOk, Advances, AllProgress;
    AdvanceKeepsCore(s, s', r, y);
    ReplayAdvances(s, s', r, y);
    AdvanceKeepsProgress(s, s', r, y);
  }

  lemma AdvanceKeepsProgress(s: State, s': State, r: RunId, y: Run)
    requires AllProgress(s) && r in s.runs && Advances(s.runs[r], y)
    requires s' == s.(runs := s.runs[r := y])
    requires y.produced == s.runs[r].produced && (s.runs[r].open || !y.open)
    ensures AllProgress(s')
  {
    forall q | q in s'.runs ensures ProgressOk(s', q, s'.runs[q]) {
      assert ProgressOk(s, q, s.runs[q]);
    }
  }

  lemma FreshRunOk()
    ensures RunOk(NewRun())
  {
  }

  lemma FirstFrameKeepsCore(s: State, s': State, r: RunId, y: Run)
    requires Core(s) && r !in s.runs && RunOk(y) && y.spool.sent == 0 && s.sending.None?
    requires s' == s.(runs := s.runs[r := y])
    ensures Core(s')
  {
    hide WireOk, LiveOk, RunOk, NamesOk;
    FirstFrameNames(s.runs, s.wires, r, y);
    forall v | 0 <= v < |s.wires| ensures WireOk(s.wires[v], r, y) {
      FirstFrameWire(s.runs, s.wires, v, r, y);
    }
    if s.live { FirstFrameNewest(s.runs, s.wires, s.closed, r, y); }
  }

  lemma FirstFrameNames(runs: map<RunId, Run>, wires: seq<Wire>, r: RunId, y: Run)
    requires NamesOk(runs, wires)
    ensures NamesOk(runs[r := y], wires)
  {
  }

  lemma FirstFrameWire(runs: map<RunId, Run>, wires: seq<Wire>, v: nat, r: RunId, y: Run)
    requires NamesOk(runs, wires) && v < |wires| && r !in runs
    ensures WireOk(wires[v], r, y)
  {
  }

  lemma FirstFrameNewest(runs: map<RunId, Run>, wires: seq<Wire>, closed: bool, r: RunId, y: Run)
    requires NamesOk(runs, wires) && wires != [] && r !in runs && y.spool.sent == 0
    ensures LiveOk(Newest(wires), closed, r, y)
  {
  }

  lemma ProduceFacts(s: State, r: RunId)
    requires Core(s) && CanProduce(s, r)
    ensures var x := RunOf(s, r);
      RunOk(x) && x.open && x.cpLast <= |x.produced|
    ensures r in s.runs || r !in s.overtaken
    ensures WiresOk(s.runs, s.wires) && NamesOk(s.runs, s.wires)
  {
    hide WiresOk, NamesOk, NewestOk, SendingOk;
    FreshRunOk();
    assert RunOk(RunOf(s, r));
    UnfinishedIsOpen(RunOf(s, r));
  }

  lemma ProduceKeeps(s: State, r: RunId, frame: Frame)
    requires Inv(s) && CanProduce(s, r)
    ensures Inv(ProduceStep(s, r, frame))
  {
    hide Core, ReplayOk, RunOk, Advances, AllProgress, WiresOk, NamesOk, SendingOk;
    var s' := ProduceStep(s, r, frame);
    ProduceFacts(s, r);
    ProduceKeepsRun(RunOf(s, r), frame);
    ProduceProgress(s, s', r, frame);
    ProduceKeepsCore(s, s'.(sending := None), r, s'.runs[r]);
    FreshFrame(s, s', r);
    LockKeeps(s'.(sending := None), s', r);
  }

  /** Taking the send lock for `r`. */
  lemma LockKeeps(t: State, s': State, r: RunId)
    requires Core(t) && ReplayOk(t) && SendingOk(s', r) && AllProgress(s')
    requires s' == t.(sending := Some(r))
    ensures Inv(s')
  {
    hide RunsOk, WiresOk, NamesOk, NewestOk, AllProgress, SendingOk;
  }

  lemma FreshFrame(s: State, s': State, r: RunId)
    requires WiresOk(s.runs, s.wires) && NamesOk(s.runs, s.wires) && s'.wires == s.wires
    requires r in s'.runs && |s'.runs[r].produced| == |RunOf(s, r).produced| + 1
    requires s'.runs[r].cpLast == RunOf(s, r).cpLast <= |RunOf(s, r).produced|
    ensures SendingOk(s', r)
  {
    forall w, i | 0 <= w < |s.wires| && 0 <= i < |s.wires[w].items| && IsFor(s.wires[w].items[i], r)
      ensures s.wires[w].items[i].num < |s'.runs[r].produced|
    {
      assert s.wires[w].items[i].run in s.runs;
      assert WireOk(s.wires[w], r, s.runs[r]);
    }
  }

  lemma ProduceKeepsCore(s: State, t: State, r: RunId, y: Run)
    requires Core(s) && ReplayOk(s) && RunOk(y) && y.open && s.sending.None?
    requires Advances(RunOf(s, r), y) && RunOf(s, r).open && t == s.(runs := s.runs[r := y])
    ensures Core(t) && ReplayOk(t)
  {
    hide Core, ReplayOk, RunOk;
    if r in s.runs {
      AdvanceKeepsCore(s, t, r, y);
      ReplayAdvances(s, t, r, y);
    } else {
      FirstFrameKeepsCore(s, t, r, y);
      ReplayIgnoresNewRun(s, t, r, y);
    }
  }

  lemma ReplayIgnoresNewRun(s: State, t: State, r: RunId, y: Run)
    requires ReplayOk(s) && r !in s.runs && t == s.(runs := s.runs[r := y])
    ensures ReplayOk(t)
  {
  }

  lemma ProduceProgress(s: State, s': State, r: RunId, frame: Frame)
    requires CanProduce(s, r) && s' == ProduceStep(s, r, frame)
    requires AllProgress(s) && RunOk(RunOf(s, r))
    requires r in s.runs || r !in s.overtaken
    ensures AllProgress(s')
  {
    forall q | q in s'.runs ensures ProgressOk(s', q, s'.runs[q]) {
      if q in s.runs { assert ProgressOk(s, q, s.runs[q]); }
    }
  }

  lemma AckKeeps(s: State, r: RunId, n: nat)
    requires Inv(s) && CanAck(s, r, n)
    ensures Inv(AckStepOn(s, r, n))
  {
    hide Core, RunOk, ReplayOk, AllProgress, Advances;
    RunIsOk(s, r);
    AckKeepsRun(s.runs[r], n);
    StillSending(s, r);
    var s' := AckStepOn(s, r, n);
    AdvanceKeepsInv(s, s', r, s'.runs[r]);
  }

  lemma StillSending(s: State, r: RunId)
    requires Core(s) && r in s.runs
    ensures s.sending == Some(r) ==> s.runs[r].cpLast < |s.runs[r].produced|
  {
    hide RunsOk, WiresOk, NamesOk, NewestOk;
  }

  lemma CloseKeeps(s: State, r: RunId)
    requires Inv(s) && CanClose(s, r)
    ensures Inv(CloseStep(s, r))
  {
    hide Core, ReplayOk, AllProgress;
    RunIsOk(s, r);
    StillSending(s, r);
    var s' := CloseStep(s, r);
    AdvanceKeepsInv(s, s', r, s'.runs[r]);
  }

  lemma DirectKeeps(s: State, outcome: Outcome)
    requires Inv(s) && CanDirect(s, outcome)
    ensures Inv(DirectStep(s, outcome))
  {
    hide Core, ReplayOk, AllProgress, RunOk, DirectStep;
    Release(s);
    DirectProgress(s, outcome);
    DirectKeepsCore(s, s.(sending := None), s.sending.value, outcome, DirectStep(s, outcome));
  }

  lemma DirectKeepsCore(s: State, released: State, r: RunId, outcome: Outcome, t: State)
    requires CanDirect(s, outcome) && t == DirectStep(s, outcome)
    requires s.sending == Some(r) && released == s.(sending := None)
    requires Core(released) && ReplayOk(released)
    ensures Core(t) && ReplayOk(t)
  {
    hide Core, ReplayOk, Transmit;
    var n := |s.runs[r].produced|;
    if n != 0 && n == s.runs[r].spool.sent + 1 && s.live {
      HasWire(released);
      TransmitKeepsCore(released, r, n, outcome);
      TransmitKeepsReplay(released, r, n, outcome);
    }
  }

  lemma Release(s: State)
    requires Core(s) && ReplayOk(s) && s.sending.Some? && s.sending.value in s.runs
    ensures Core(s.(sending := None)) && ReplayOk(s.(sending := None))
    ensures RunOk(s.runs[s.sending.value]) && (s.live ==> s.wires != [])
  {
    hide WiresOk, NamesOk, SendingOk, RunOk;
  }

  lemma DirectProgress(s: State, outcome: Outcome)
    requires CanDirect(s, outcome) && AllProgress(s) && RunOk(s.runs[s.sending.value])
    requires s.live ==> s.wires != []
    ensures AllProgress(DirectStep(s, outcome))
  {
    var s' := DirectStep(s, outcome);
    forall q | q in s'.runs ensures ProgressOk(s', q, s'.runs[q]) {
      assert ProgressOk(s, q, s.runs[q]);
    }
  }

  /** A send only moves `sent` up, and only a failed one closes the socket. */
  lemma TransmitKeepsReplay(s: State, r: RunId, n: nat, outcome: Outcome)
    requires ReplayOk(s) && r in s.runs && s.wires != [] && s.runs[r].spool.sent < n <= |s.runs[r].produced|
    ensures ReplayOk(Transmit(s, r, n, s.runs[r].produced[n - 1], outcome))
  {
  }

  lemma ReplaySendKeeps(s: State, outcome: Outcome)
    requires Inv(s) && CanReplaySend(s, outcome)
    ensures Inv(ReplaySendStep(s, outcome))
  {
    hide Core, RunOk, AllProgress, BatchOk, ReplayOk, Transmit;
    var Sending(todo, batch) := s.replay;
    SendingRun(s);
    ReplaySendProgress(s, outcome);
    if batch != [] && batch[0].num > s.runs[todo[0]].spool.sent {
      BatchHead(s.runs[todo[0]], batch);
      TransmitKeepsCore(s, todo[0], batch[0].num, outcome);
      ReplaySendsNext(s, outcome);
      SentOvertaken(s, todo[0], batch[0].num, batch[0].line, outcome);
      CoreIgnoresReplay(Transmit(s, todo[0], batch[0].num, batch[0].line, outcome), ReplaySendStep(s, outcome));
    } else {
      ReplaySkips(s, outcome);
      CoreIgnoresReplay(s, ReplaySendStep(s, outcome));
    }
  }

  lemma SentOvertaken(s: State, r: RunId, n: nat, line: Frame, outcome: Outcome)
    requires r in s.runs && s.wires != []
    ensures var t := Transmit(s, r, n, line, outcome);
      t.overtaken == s.overtaken && t.runs.Keys == s.runs.Keys
  {
  }

  /** Nothing to send: the batch is used up, or a direct send was faster. */
  lemma ReplaySkips(s: State, outcome: Outcome)
    requires ReplayOk(s) && CanReplaySend(s, outcome)
    requires s.replay.batch == [] || s.replay.batch[0].num <= s.runs[s.replay.todo[0]].spool.sent
    ensures ReplayOk(ReplaySendStep(s, outcome))
  {
    if s.replay.batch != [] { BatchShrinks(s.runs[s.replay.todo[0]], s.replay.batch); }
  }

  lemma SendingRun(s: State)
    requires Core(s) && ReplayOk(s) && s.replay.Sending?
    ensures s.replay.todo != [] && s.replay.todo[0] in s.runs && s.replay.todo[0] !in s.overtaken
    ensures RunOk(s.runs[s.replay.todo[0]]) && BatchOk(s.runs[s.replay.todo[0]], s.replay.batch)
    ensures s.overtaken <= s.runs.Keys
  {
    hide WiresOk, NamesOk, NewestOk, RunOk, BatchOk;
  }

  lemma BatchHead(x: Run, batch: seq<Entry<Frame>>)
    requires RunOk(x) && BatchOk(x, batch) && batch != [] && batch[0].num > x.spool.sent
    ensures MaySkipTo(x, batch[0].num) && batch[0].line == x.produced[batch[0].num - 1]
  {
  }

  lemma CoreIgnoresReplay(s: State, t: State)
    requires Core(s) && t == s.(replay := t.replay, overtaken := t.overtaken) && t.overtaken <= s.runs.Keys
    ensures Core(t)
  {
    hide RunsOk, WiresOk, NamesOk, NewestOk;
  }

  lemma ReplaySendsNext(s: State, outcome: Outcome)
    requires ReplayOk(s) && CanReplaySend(s, outcome) && s.replay.batch != []
    requires s.replay.batch[0].num > s.runs[s.replay.todo[0]].spool.sent
    ensures ReplayOk(ReplaySendStep(s, outcome))
  {
    if outcome.Delivered? { BatchSent(s.runs[s.replay.todo[0]], s.replay.batch); }
  }

  lemma ReplaySendProgress(s: State, outcome: Outcome)
    requires CanReplaySend(s, outcome) && AllProgress(s)
    requires s.replay.todo[0] !in s.overtaken
    ensures AllProgress(ReplaySendStep(s, outcome))
  {
    var s' := ReplaySendStep(s, outcome);
    forall q | q in s'.runs ensures ProgressOk(s', q, s'.runs[q]) {
      assert ProgressOk(s, q, s.runs[q]);
    }
  }

  lemma BatchShrinks(x: Run, batch: seq<Entry<Frame>>)
    requires BatchOk(x, batch) && batch != [] && batch[0].num <= x.spool.sent
    ensures BatchOk(x, batch[1..])
  {
    var from := batch[0].num - 1;
    assert batch[1..] == Numbered(x.produced, from + 1, from + |batch|);
  }

  lemma BatchSent(x: Run, batch: seq<Entry<Frame>>)
    requires BatchOk(x, batch) && batch != []
    ensures BatchOk(WithSent(x, batch[0].num), batch[1..])
  {
    var from := batch[0].num - 1;
    assert batch[1..] == Numbered(x.produced, from + 1, from + |batch|);
  }

  lemma ReadKeeps(s: State)
    requires Inv(s) && CanRead(s)
    ensures Inv(ReadStep(s))
  {
    hide Core, RunOk, AllProgress, ReplayOk;
    ReadSeesNewFrame(s);
    ReadKeepsReplay(s);
    ReadProgress(s);
    CoreIgnoresReplay(s, ReadStep(s));
  }

  lemma ReadKeepsReplay(s: State)
    requires ReplayOk(s) && CanRead(s) && RunOk(s.runs[s.replay.todo[0]])
    ensures ReplayOk(ReadStep(s))
    ensures ReadAfter(s.runs[s.replay.todo[0]].spool, s.replay.from, REPLAY_BATCH) == [] ==>
      |s.runs[s.replay.todo[0]].produced| <= s.runs[s.replay.todo[0]].spool.sent
      || |s.runs[s.replay.todo[0]].produced| == s.runs[s.replay.todo[0]].spool.acked
  {
    hide RunOk, BatchOk;
    BatchRead(s.runs[s.replay.todo[0]], s.replay.from);
  }

  lemma ReadSeesNewFrame(s: State)
    requires Core(s) && CanRead(s)
    ensures var x := s.runs[s.replay.todo[0]];
      && RunOk(x) && x.spool.acked <= |x.produced| && x.spool.sent <= |x.produced|
      && (s.sending == Some(s.replay.todo[0]) ==> x.spool.acked < |x.produced|)
    ensures s.overtaken <= s.runs.Keys
  {
    hide WiresOk, NamesOk, NewestOk;
    assert RunOk(s.runs[s.replay.todo[0]]);
  }

  lemma ReadProgress(s: State)
    requires CanRead(s) && AllProgress(s) && ReplayOk(s)
    requires var x := s.runs[s.replay.todo[0]];
      && x.spool.acked <= |x.produced| && x.spool.sent <= |x.produced|
      && (ReadAfter(x.spool, s.replay.from, REPLAY_BATCH) == [] ==>
            |x.produced| <= x.spool.sent || |x.produced| == x.spool.acked)
      && (s.sending == Some(s.replay.todo[0]) ==> x.spool.acked < |x.produced|)
    ensures AllProgress(ReadStep(s))
  {
    var s' := ReadStep(s);
    forall q | q in s'.runs ensures ProgressOk(s', q, s'.runs[q]) {
      assert ProgressOk(s, q, s.runs[q]);
    }
  }

  /** What `read_after` returns: a batch to send, or the news that nothing above `sent` and `acked` is left. */
  lemma BatchRead(x: Run, from: nat)
    requires RunOk(x) && from <= x.spool.sent
    ensures var batch := ReadAfter(x.spool, from, REPLAY_BATCH);
      BatchOk(x, batch) && (batch == [] ==> |x.produced| <= x.spool.sent || |x.produced| == x.spool.acked)
  {
    var n := |x.produced|;
    AfterNumbered(x.produced, x.spool.acked, n, from);
    var start := if from <= x.spool.acked then x.spool.acked else from;
    var rest := Numbered(x.produced, start, n);
    assert After(x.spool.pending, from) == rest;
    if |rest| > REPLAY_BATCH {
      assert rest[..REPLAY_BATCH] == Numbered(x.produced, start, start + REPLAY_BATCH);
    }
  }

  /** Steps that touch the replay's position only. */
  lemma PositionKeeps(s: State, t: State)
    requires Inv(s) && t == s.(replay := t.replay) && ReplayOk(t)
    requires !s.replay.Died? && (s.replay.Idle? || Todo(t.replay) == Todo(s.replay))
    requires t.replay.Asking? || t.replay.Reading? || (s.replay == Asking([]) && t.replay == Done)
    requires s.replay.Idle? ==> forall r | r in s.runs && s.runs[r].open :: r in Todo(t.replay)
    ensures Inv(t)
  {
    CoreIgnoresReplay(s, t);
    hide Core, ReplayOk;
    forall q | q in t.runs ensures ProgressOk(t, q, t.runs[q]) {
      assert ProgressOk(s, q, s.runs[q]);
    }
  }

  lemma AskKeeps(s: State)
    requires Inv(s) && s.replay.Asking?
    ensures Inv(AskStep(s))
  {
    hide Core, AllProgress;
    PositionKeeps(s, AskStep(s));
  }

  lemma StartReplayKeeps(s: State, order: seq<RunId>)
    requires Inv(s) && CanStartReplay(s, order)
    ensures Inv(StartReplayStep(s, order))
  {
    hide Core, AllProgress;
    PositionKeeps(s, StartReplayStep(s, order));
  }

  lemma SocketClosesKeeps(s: State)
    requires Inv(s) && s.live
    ensures Inv(SocketClosesStep(s))
  {
    var t := SocketClosesStep(s);
    assert Core(t) by {
      forall q | q in s.runs ensures LiveOk(Newest(s.wires), true, q, s.runs[q]) {
        assert LiveOk(Newest(s.wires), s.closed, q, s.runs[q]);
      }
      hide LiveOk, WireOk, RunOk;
    }
    hide Core;
    forall q | q in t.runs ensures ProgressOk(t, q, t.runs[q]) {
      assert ProgressOk(s, q, s.runs[q]);
    }
  }

  lemma DisconnectKeeps(s: State)
    requires Inv(s) && s.live
    ensures Inv(DisconnectStep(s))
  {
    var t := DisconnectStep(s);
    assert Core(t) by {
      hide LiveOk, WireOk, RunOk;
    }
    hide Core;
    forall q | q in t.runs ensures ProgressOk(t, q, t.runs[q]) {
      assert ProgressOk(s, q, s.runs[q]);
    }
  }

  lemma AnnounceKeeps(s: State, ok: bool)
    requires Inv(s) && CanAnnounce(s)
    ensures Inv(AnnounceStep(s, ok))
  {
    var s' := AnnounceStep(s, ok);
    forall q | q in s'.runs ensures Advances0(s.runs[q], s'.runs[q]) {
      assert RunOk(s.runs[q]);
    }
    RewindKeepsRuns(s, s', ok);
    AnnounceKeepsWires(s, s', ok);
    AnnounceKeepsNames(s, s', ok);
    hide RunsOk, WiresOk, NamesOk, NewestOk, Advances0;
    assert AllProgress(s');
  }

  lemma AnnounceKeepsNames(s: State, s': State, ok: bool)
    requires NamesOk(s.runs, s.wires) && CanAnnounce(s) && s' == AnnounceStep(s, ok)
    ensures NamesOk(s'.runs, s'.wires)
  {
    forall w, i | 0 <= w < |s'.wires| && 0 <= i < |s'.wires[w].items| && s'.wires[w].items[i].Sent?
      ensures s'.wires[w].items[i].run in s'.runs
    {
      if w < |s.wires| { assert s.wires[w].items[i].run in s.runs; }
    }
  }

  lemma RewindKeepsRuns(s: State, s': State, ok: bool)
    requires RunsOk(s.runs) && s' == AnnounceStep(s, ok)
    ensures RunsOk(s'.runs)
  {
    forall q | q in s'.runs ensures RunOk(s'.runs[q]) {
      assert RunOk(s.runs[q]);
      SentKeepsRun(s.runs[q], s.runs[q].spool.acked);
    }
  }

  ghost predicate Advances0(x: Run, y: Run) {
    Grows(x, y) && y.spool.sent == y.spool.acked == x.spool.acked && y.produced == x.produced
  }

  lemma AnnounceKeepsWires(s: State, s': State, ok: bool)
    requires CanAnnounce(s) && s' == AnnounceStep(s, ok) && WiresOk(s.runs, s.wires)
    requires forall q | q in s'.runs :: Advances0(s.runs[q], s'.runs[q])
    requires RunsOk(s'.runs)
    ensures WiresOk(s'.runs, s'.wires) && NewestOk(s'.runs, s'.wires, s'.closed)
  {
    hide WireOk, LiveOk, Advances0, RunOk;
    forall q | q in s'.runs ensures WireOk(Newest(s'.wires), q, s'.runs[q]) && LiveOk(Newest(s'.wires), s'.closed, q, s'.runs[q]) {
      assert Advances0(s.runs[q], s'.runs[q]) && RunOk(s'.runs[q]);
      EmptyWire(s, s', ok, q);
    }
    forall v, q | 0 <= v < |s.wires| && q in s'.runs ensures WireOk(s'.wires[v], q, s'.runs[q]) {
      assert WireOk(s.wires[v], q, s.runs[q]);
      assert Advances0(s.runs[q], s'.runs[q]);
      WireRewinds(s.wires[v], q, s.runs[q], s'.runs[q]);
    }
  }

  lemma WireRewinds(w: Wire, r: RunId, x: Run, y: Run)
    requires WireOk(w, r, x) && Advances0(x, y)
    ensures WireOk(w, r, y)
  {
  }

  lemma EmptyWire(s: State, s': State, ok: bool, q: RunId)
    requires CanAnnounce(s) && s' == AnnounceStep(s, ok) && q in s'.runs
    requires Advances0(s.runs[q], s'.runs[q]) && RunOk(s'.runs[q])
    ensures WireOk(Newest(s'.wires), q, s'.runs[q]) && LiveOk(Newest(s'.wires), s'.closed, q, s'.runs[q])
  {
  }

  /** What the control plane is about to read of a run. */
  lemma ReceiveFacts(s: State, v: nat)
    requires Core(s) && CanReceive(s, v) && s.wires[v].items[s.wires[v].read].Sent?
    ensures var Sent(r, n, line) := s.wires[v].items[s.wires[v].read];
      && r in s.runs && RunOk(s.runs[r])
      && 1 <= n <= s.runs[r].cpLast + 1 && n <= |s.runs[r].produced|
      && line == s.runs[r].produced[n - 1]
      && (s.sending == Some(r) ==> n < |s.runs[r].produced| && s.runs[r].cpLast < |s.runs[r].produced|)
  {
    var w := s.wires[v];
    var r := w.items[w.read].run;
    ItemOfRun(s, v);
    NotTheLast(s, v);
    hide Core, RunOk, WireOk;
    FrameFacts(w, r, s.runs[r]);
  }

  /** What is read next is one of the run's frames, and not ahead by more than one. */
  lemma FrameFacts(w: Wire, r: RunId, x: Run)
    requires RunOk(x) && WireOk(w, r, x) && w.read < |w.items| && IsFor(w.items[w.read], r)
    ensures var Sent(_, n, line) := w.items[w.read];
      1 <= n <= x.cpLast + 1 && n <= |x.produced| && line == x.produced[n - 1]
  {
    NoGap(w, r, x);
  }

  lemma ItemOfRun(s: State, v: nat)
    requires Core(s) && CanReceive(s, v) && s.wires[v].items[s.wires[v].read].Sent?
    ensures var r := s.wires[v].items[s.wires[v].read].run;
      r in s.runs && RunOk(s.runs[r]) && WireOk(s.wires[v], r, s.runs[r])
  {
    hide NewestOk, SendingOk, RunOk, WireOk;
  }

  /** The frame that is being sent is not on a wire yet. */
  lemma NotTheLast(s: State, v: nat)
    requires Core(s) && CanReceive(s, v) && s.wires[v].items[s.wires[v].read].Sent?
    ensures var Sent(r, n, line) := s.wires[v].items[s.wires[v].read];
      s.sending == Some(r) ==> r in s.runs && n < |s.runs[r].produced| && s.runs[r].cpLast < |s.runs[r].produced|
  {
    hide NewestOk, RunsOk, WiresOk, NamesOk;
  }

  lemma ReceiveKeeps(s: State, v: nat)
    requires Inv(s) && CanReceive(s, v)
    ensures Inv(ReceiveStep(s, v))
  {
    hide Core, RunOk, ReplayOk, AllProgress, Advances;
    var item := s.wires[v].items[s.wires[v].read];
    if item.Sent? {
      ReceiveFacts(s, v);
      var r := item.run;
      RouteKeepsRun(s.runs[r], item.num);
      var t := s.(runs := s.runs[r := Route(s.runs[r], item.num, item.line)]);
      AdvanceKeepsInv(s, t, r, Route(s.runs[r], item.num, item.line));
      ReadMoves(t, v);
    } else {
      ReadMoves(s, v);
    }
  }

  lemma ReadMoves(s: State, v: nat)
    requires Inv(s) && v < |s.wires| && s.wires[v].read < |s.wires[v].items|
    requires var item := s.wires[v].items[s.wires[v].read];
      item.Sent? ==> item.run in s.runs && item.num <= s.runs[item.run].cpLast
    ensures Inv(s.(wires := MarkRead(s.wires, v)))
  {
    hide RunsOk, WiresOk, NewestOk, NamesOk, SendingOk, AllProgress;
    var s' := s.(wires := MarkRead(s.wires, v));
    ReadMovesWires(s.runs, s.wires, v);
    ReadMovesNames(s.runs, s.wires, v);
    if s.live { ReadMovesNewest(s.runs, s.wires, v, s.closed); }
    if s.sending.Some? { ReadMovesSending(s, v, s.sending.value); }
    ReadMovesProgress(s, s');
  }

  lemma ReadMovesNames(runs: map<RunId, Run>, wires: seq<Wire>, v: nat)
    requires NamesOk(runs, wires) && v < |wires| && wires[v].read < |wires[v].items|
    ensures NamesOk(runs, MarkRead(wires, v))
  {
    var wires' := MarkRead(wires, v);
    forall w, i | 0 <= w < |wires'| && 0 <= i < |wires'[w].items| && wires'[w].items[i].Sent?
      ensures wires'[w].items[i].run in runs
    {
      assert wires'[w].items == wires[w].items;
    }
  }

  lemma ReadMovesSending(s: State, v: nat, r: RunId)
    requires SendingOk(s, r) && v < |s.wires|
    ensures SendingOk(s.(wires := MarkRead(s.wires, v)), r)
  {
    var wires' := MarkRead(s.wires, v);
    forall w, i | 0 <= w < |wires'| && 0 <= i < |wires'[w].items| && IsFor(wires'[w].items[i], r)
      ensures wires'[w].items[i].num < |s.runs[r].produced|
    {
      assert wires'[w].items == s.wires[w].items;
    }
  }

  lemma ReadMovesProgress(s: State, s': State)
    requires AllProgress(s) && s' == s.(wires := s'.wires)
    ensures AllProgress(s')
  {
    forall q | q in s'.runs ensures ProgressOk(s', q, s'.runs[q]) {
      assert ProgressOk(s, q, s.runs[q]);
    }
  }

  lemma ReadMovesNewest(runs: map<RunId, Run>, wires: seq<Wire>, v: nat, closed: bool)
    requires NewestOk(runs, wires, closed) && v < |wires|
    ensures NewestOk(runs, MarkRead(wires, v), closed)
  {
    forall q | q in runs ensures LiveOk(Newest(MarkRead(wires, v)), closed, q, runs[q]) {
      assert LiveOk(Newest(wires), closed, q, runs[q]);
    }
    hide LiveOk;
  }

  lemma ReadMovesWires(runs: map<RunId, Run>, wires: seq<Wire>, v: nat)
    requires WiresOk(runs, wires) && v < |wires| && wires[v].read < |wires[v].items|
    requires var item := wires[v].items[wires[v].read];
      item.Sent? ==> item.run in runs && item.num <= runs[item.run].cpLast
    ensures WiresOk(runs, MarkRead(wires, v))
  {
    hide WireOk;
    var wires' := MarkRead(wires, v);
    forall u, q | 0 <= u < |wires'| && q in runs ensures WireOk(wires'[u], q, runs[q]) {
      assert WireOk(wires[u], q, runs[q]);
      if u == v { ReadMovesWire(wires[v], q, runs[q]); }
    }
  }

  lemma ReadMovesWire(w: Wire, r: RunId, x: Run)
    requires WireOk(w, r, x) && w.read < |w.items|
    requires IsFor(w.items[w.read], r) ==> w.items[w.read].num <= x.cpLast
    ensures WireOk(w.(read := w.read + 1), r, x)
  {
  }

  // ── whole runs ────────────────────────────────────────────────────────

  lemma StepKeeps(s: State, step: Step)
    requires Inv(s) && Enabled(s, step)
    ensures Inv(Apply(s, step))
  {
    hide Inv;
    match step
    case Produce(r, frame) => ProduceKeeps(s, r, frame);
    case Direct(outcome) => DirectKeeps(s, outcome);
    case AckStep(r, n) => AckKeeps(s, r, n);
    case Close(r) => CloseKeeps(s, r);
    case Announce(ok) => AnnounceKeeps(s, ok);
    case StartReplay(order) => StartReplayKeeps(s, order);
    case Ask => AskKeeps(s);
    case Read => ReadKeeps(s);
    case ReplaySend(outcome) => ReplaySendKeeps(s, outcome);
    case SocketCloses => SocketClosesKeeps(s);
    case Disconnect => DisconnectKeeps(s);
    case Receive(w) => ReceiveKeeps(s, w);
  }

  /** `steps` can be taken one after the other from `s`. */
  ghost predicate Possible(s: State, steps: seq<Step>)
    decreases |steps|
  {
    steps == [] || (Enabled(s, steps[0]) && Possible(Apply(s, steps[0]), steps[1..]))
  }

  ghost function Exec(s: State, steps: seq<Step>): State
    requires Possible(s, steps)
    decreases |steps|
  {
    if steps == [] then s else Exec(Apply(s, steps[0]), steps[1..])
  }

  lemma {:induction false} ExecKeeps(s: State, steps: seq<Step>)
    requires Inv(s) && Possible(s, steps)
    ensures Inv(Exec(s, steps))
    decreases |steps|
  {
    if steps != [] {
      StepKeeps(s, steps[0]);
      hide Inv;
      ExecKeeps(Apply(s, steps[0]), steps[1..]);
    }
  }

  /** `s` is where some sequence of steps leads from a fresh agent. */
  ghost predicate Reachable(s: State) {
    exists steps: seq<Step> :: Possible(Init(), steps) && Exec(Init(), steps) == s
  }

  lemma {:induction false} ExecAppend(s: State, steps: seq<Step>, last: Step)
    requires Possible(s, steps) && Enabled(Exec(s, steps), last)
    ensures Possible(s, steps + [last]) && Exec(s, steps + [last]) == Apply(Exec(s, steps), last)
    decreases |steps|
  {
    if steps == [] {
      assert (steps + [last])[1..] == [];
    } else {
      ExecAppend(Apply(s, steps[0]), steps[1..], last);
      assert (steps + [last])[1..] == steps[1..] + [last];
    }
  }

  lemma Extend(s: State, step: Step)
    requires Reachable(s) && Enabled(s, step)
    ensures Reachable(Apply(s, step))
  {
    var steps: seq<Step> :| Possible(Init(), steps) && Exec(Init(), steps) == s;
    ExecAppend(Init(), steps, step);
  }

  lemma ReachableInv(s: State)
    requires Reachable(s)
    ensures Inv(s)
  {
    var steps: seq<Step> :| Possible(Init(), steps) && Exec(Init(), steps) == s;
    assert Inv(Init());
    ExecKeeps(Init(), steps);
  }

  /** Frame `k` is recorded, or still spooled under its number. */
  ghost predicate Accounted(x: Run, k: nat)
    requires 1 <= k <= |x.produced|
  {
    k <= |x.recorded| || Entry(k, x.produced[k - 1]) in x.spool.pending
  }

  /**
   The control plane's log of a run is, at every moment of every run of the
   system, a prefix of the frames produced; and every produced frame is
   recorded or still spooled under its number.
   */
  lemma NothingLost(s: State, r: RunId)
    requires Reachable(s) && r in s.runs
    ensures var x := s.runs[r];
      && x.recorded <= x.produced
      && x.cpLast == |x.recorded|
      && forall k: nat | 1 <= k <= |x.produced| :: Accounted(x, k)
  {
    ReachableInv(s);
    var x := s.runs[r];
    assert RunOk(x);
    forall k: nat | 1 <= k <= |x.produced| ensures Accounted(x, k) {
      if k > x.spool.acked {
        assert x.spool.pending[k - 1 - x.spool.acked] == Entry(k, x.produced[k - 1]);
      }
    }
  }

  /**
   On one connection the frames of a run go out in strictly increasing order,
   a number skipped is already acknowledged, and `run_alive` went out before
   the first frame of any run that had a spool when it was announced.
   */
  lemma WireOrder(s: State, v: nat, i: nat)
    requires Reachable(s) && v < |s.wires| && i < |s.wires[v].items| && s.wires[v].items[i].Sent?
    ensures var w := s.wires[v];
      var Sent(r, n, line) := w.items[i];
      && r in s.runs
      && 1 <= n <= |s.runs[r].produced| && line == s.runs[r].produced[n - 1]
      && (forall j | 0 <= j < i && IsFor(w.items[j], r) :: w.items[j].num < n)
      && (forall t: nat | 1 <= t < n :: t <= s.runs[r].spool.acked || SentBefore(w.items, i, r, t))
      && (r in w.known ==> r in w.listed && 0 < i && w.items[0] == Alive(w.listed))
  {
    hide Inv, Reachable;
    ReachableInv(s);
    WireOfItem(s, v, i);
  }

  lemma WireOfItem(s: State, v: nat, i: nat)
    requires Inv(s) && v < |s.wires| && i < |s.wires[v].items| && s.wires[v].items[i].Sent?
    ensures var r := s.wires[v].items[i].run; r in s.runs && WireOk(s.wires[v], r, s.runs[r])
  {
    hide RunsOk, NewestOk, SendingOk, ReplayOk, AllProgress, WireOk;
  }

  /**
   `run_alive` names exactly the runs that have not finished or still owe the
   control plane a frame it has not acknowledged.
   */
  lemma AnnouncedExactly(s: State, ok: bool, r: RunId)
    requires Reachable(s) && CanAnnounce(s)
    ensures var w := Newest(Apply(s, Announce(ok)).wires);
      && (r in w.listed <==>
            r in s.runs && (!HasFinished(s.runs[r]) || s.runs[r].spool.acked < |s.runs[r].produced|))
      && w.items == if ok && w.listed != {} then [Alive(w.listed)] else []
  {
    ReachableInv(s);
    if r in s.runs { assert RunOk(s.runs[r]); }
  }

  /** The control plane's gap branch is dead code: what it reads next is at most one ahead. */
  lemma ControlPlaneSeesNoGap(s: State, v: nat)
    requires Reachable(s) && CanReceive(s, v) && s.wires[v].items[s.wires[v].read].Sent?
    ensures var Sent(r, n, _) := s.wires[v].items[s.wires[v].read];
      r in s.runs && n <= s.runs[r].cpLast + 1
  {
    ReachableInv(s);
    var r := s.wires[v].items[s.wires[v].read].run;
    assert RunOk(s.runs[r]) && WireOk(s.wires[v], r, s.runs[r]);
    NoGap(s.wires[v], r, s.runs[r]);
  }

  /**
   Once the replay is done on a live socket, with no frame in the middle of
   being sent, a run's frames are all out exactly when no ack had overtaken
   `sent` at the replay's last read of it.
   */
  lemma StrandedIff(s: State, r: RunId)
    requires Reachable(s) && s.live && !s.closed && s.replay.Done? && s.sending.None?
    requires r in s.runs && s.runs[r].open
    ensures s.runs[r].spool.sent == s.runs[r].spool.lastSeq <==> r !in s.overtaken
  {
    ReachableInv(s);
    assert RunOk(s.runs[r]) && ProgressOk(s, r, s.runs[r]);
  }

  /** A replay that died on an open socket died on a spool whose `run_finished` was acknowledged. */
  lemma DiesOnlyOnCompletedSpool(s: State)
    requires Reachable(s) && s.replay.Died? && !s.closed
    ensures var r := s.replay.at;
      r in s.runs && !s.runs[r].open && HasFinished(s.runs[r]) && s.runs[r].recorded == s.runs[r].produced
  {
    ReachableInv(s);
    assert RunOk(s.runs[s.replay.at]);
  }

  /** Along `steps`, whenever the replay is reading a spool, its ack is not ahead of its `sent`. */
  ghost predicate NeverAhead(s: State, steps: seq<Step>)
    requires Possible(s, steps)
    decreases |steps|
  {
    && (CanRead(s) ==> s.runs[s.replay.todo[0]].spool.acked <= s.runs[s.replay.todo[0]].spool.sent)
    && (steps == [] || NeverAhead(Apply(s, steps[0]), steps[1..]))
  }

  lemma {:induction false} NothingOvertaken(s: State, steps: seq<Step>)
    requires Possible(s, steps) && NeverAhead(s, steps) && s.overtaken == {}
    ensures Exec(s, steps).overtaken == {}
    decreases |steps|
  {
    if steps != [] {
      NothingOvertaken(Apply(s, steps[0]), steps[1..]);
    }
  }

  /** Were `sent` never behind an ack at a read, a finished replay would strand no run. */
  lemma NoStall(steps: seq<Step>, r: RunId)
    requires Possible(Init(), steps) && NeverAhead(Init(), steps)
    requires var s := Exec(Init(), steps);
      s.live && !s.closed && s.replay.Done? && s.sending.None? && r in s.runs && s.runs[r].open
    ensures Exec(Init(), steps).runs[r].spool.sent == Exec(Init(), steps).runs[r].spool.lastSeq
  {
    NothingOvertaken(Init(), steps);
    StrandedIff(Exec(Init(), steps), r);
  }

  /** And the next frame of a run that is not stranded goes out at once, as the next on the wire. */
  lemma NextFrameGoesOut(s: State, r: RunId, frame: Frame)
    requires Reachable(s) && s.live && !s.closed && s.replay.Done? && s.sending.None?
    requires r in s.runs && r !in s.overtaken && CanProduce(s, r) && s.runs[r].open
    ensures CanDirect(ProduceStep(s, r, frame), Delivered)
    ensures var t := DirectStep(ProduceStep(s, r, frame), Delivered);
      && s.wires != [] && t.wires != []
      && Newest(s.wires).items + [Sent(r, |s.runs[r].produced| + 1, frame)] == Newest(t.wires).items
      && t.runs[r].spool.sent == t.runs[r].spool.lastSeq == |s.runs[r].produced| + 1
  {
    hide Inv, Reachable, RunOk;
    StrandedIff(s, r);
    ReachableInv(s);
    SpoolIsWhole(s, r);
  }

  lemma SpoolIsWhole(s: State, r: RunId)
    requires Inv(s) && r in s.runs && s.live
    ensures s.runs[r].spool.lastSeq == |s.runs[r].produced| && s.wires != []
  {
    HasWire(s);
    RunIsOk(s, r);
    hide Core, ReplayOk, AllProgress;
  }

  /** What a connection carried since, with no frame of `r` in it. */
  ghost predicate NoneOf(before: seq<Item>, now: seq<Item>, r: RunId) {
    before <= now && forall k | |before| <= k < |now| :: !(now[k].Sent? && now[k].run == r)
  }

  lemma NoneOfBoth(a: seq<Item>, b: seq<Item>, c: seq<Item>, r: RunId)
    requires NoneOf(a, b, r) && NoneOf(b, c, r)
    ensures NoneOf(a, c, r)
  {
    assert forall k | 0 <= k < |b| :: c[k] == b[k];
  }

  /** The situation of an overtaken run once the replay is done. */
  ghost predicate Stranded(s: State, r: RunId) {
    && s.live && s.wires != [] && s.replay.Done? && r in s.runs && r in s.overtaken
    && s.runs[r].spool.sent < s.runs[r].spool.acked <= |s.runs[r].produced|
    && (s.sending == Some(r) ==> s.runs[r].spool.sent + 1 < |s.runs[r].produced|)
  }

  /**
   A connection whose replay is done never sends another frame of an
   overtaken run, however many the run produces, until it is replaced.
   */
  lemma {:induction false} StrandedUntilReconnect(s: State, steps: seq<Step>, r: RunId)
    requires Reachable(s) && Stranded(s, r) && Possible(s, steps)
    requires forall i | 0 <= i < |steps| :: !steps[i].Disconnect?
    ensures var t := Exec(s, steps);
      && Stranded(t, r) && |t.wires| == |s.wires|
      && t.runs[r].spool.sent == s.runs[r].spool.sent
      && NoneOf(Newest(s.wires).items, Newest(t.wires).items, r)
    decreases |steps|
  {
    hide Inv, Reachable, Stranded, Apply, Enabled, NoneOf;
    if steps != [] {
      ReachableInv(s);
      StrandedStep(s, steps[0], r);
      Extend(s, steps[0]);
      var next := Apply(s, steps[0]);
      StrandedUntilReconnect(next, steps[1..], r);
      NoneOfBoth(Newest(s.wires).items, Newest(next.wires).items, Newest(Exec(s, steps).wires).items, r);
    } else {
      NoneSince(s, r);
    }
  }

  lemma NoneSince(s: State, r: RunId)
    requires Stranded(s, r)
    ensures NoneOf(Newest(s.wires).items, Newest(s.wires).items, r)
  {
  }

  lemma StrandedStep(s: State, step: Step, r: RunId)
    requires Inv(s) && Stranded(s, r) && Enabled(s, step) && !step.Disconnect?
    ensures StillStranded(s, Apply(s, step), r)
  {
    hide Inv, Stranded, StillStranded;
    match step
    case Direct(outcome) => StrandedDirect(s, outcome, r);
    case Receive(v) => StrandedReceive(s, v, r);
    case _ => StrandedRunStep(s, step, r);
  }

  /** No other step of a connected agent whose replay is done touches a wire. */
  lemma StrandedRunStep(s: State, step: Step, r: RunId)
    requires Inv(s) && Stranded(s, r) && Enabled(s, step)
    requires !step.Disconnect? && !step.Direct? && !step.Receive?
    ensures StillStranded(s, Apply(s, step), r)
  {
    hide Inv;
    if step.AckStep? {
      AckInProduced(s, step.run);
      AckStays(s.runs[step.run].spool, step.num);
    }
    assert Apply(s, step).wires == s.wires;
  }

  lemma AckInProduced(s: State, r: RunId)
    requires Inv(s) && r in s.runs
    ensures s.runs[r].cpLast <= |s.runs[r].produced|
  {
    assert RunOk(s.runs[r]);
  }

  ghost predicate StillStranded(s: State, t: State, r: RunId) {
    && Stranded(t, r) && |t.wires| == |s.wires| != 0
    && r in s.runs && t.runs[r].spool.sent == s.runs[r].spool.sent
    && NoneOf(Newest(s.wires).items, Newest(t.wires).items, r)
  }

  lemma StrandedDirect(s: State, outcome: Outcome, r: RunId)
    requires Stranded(s, r) && CanDirect(s, outcome)
    ensures StillStranded(s, DirectStep(s, outcome), r)
  {
    var q := s.sending.value;
    assert q == r ==> DirectStep(s, outcome).wires == s.wires;
  }

  lemma StrandedReceive(s: State, v: nat, r: RunId)
    requires Stranded(s, r) && CanReceive(s, v)
    ensures StillStranded(s, ReceiveStep(s, v), r)
  {
    var items := Newest(s.wires).items;
    assert Newest(ReceiveStep(s, v).wires).items == items;
  }

  lemma AckStays<L>(s: SpoolState<L>, n: nat)
    ensures Ack(s, n).acked == (if n > s.acked then n else s.acked) && Ack(s, n).sent == s.sent
  {
  }
}
