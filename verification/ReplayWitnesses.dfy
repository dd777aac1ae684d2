/**
 Two concrete runs of `ReplayProtocol` in which the promise that a finished
 replay leaves nothing behind fails, one for each way it can.
 */
module ReplayWitnesses {
  import opened Wrappers
  import opened SpoolSpec
  import opened ReplayProtocol

  lemma OneEntry(e: Frame)
    ensures After([Entry(1, e)], 0) == [Entry(1, e)]
    ensures After([Entry(1, e)], 1) == []
  {
    assert [Entry(1, e)][1..] == [];
  }

  lemma InitReachable()
    ensures Reachable(Init())
  {
    assert Possible(Init(), []) && Exec(Init(), []) == Init();
  }

  /** A run's first frame, spooled while there is no connection. */
  lemma Spooled(s: State, r: RunId, frame: Frame) returns (t: State)
    requires Reachable(s) && r !in s.runs && !s.live && s.sending.None?
    ensures Reachable(t)
    ensures t == s.(runs := s.runs[r :=
      Run([frame], SpoolState(0, 1, 0, if frame.Finished? then Some(1) else None, [Entry(1, frame)]), true, 0, [])])
  {
    hide Reachable, Exec, Possible;
    Extend(s, Produce(r, frame));
    t := ProduceStep(s, r, frame);
    Extend(t, Direct(Refused));
    assert [] + [frame] == [frame];
    t := DirectStep(t, Refused);
    assert t.runs[r].spool.pending == [Entry(1, frame)];
  }

  /** A run's first frame, spooled before the first connection, is on its wire. */
  lemma SentOnce(e: Frame) returns (s: State)
    requires e.Event?
    ensures Reachable(s) && s.live && !s.closed && s.sending.None? && s.runs.Keys == {"a"}
    ensures s.runs["a"] == Run([e], SpoolState(0, 1, 1, None, [Entry(1, e)]), true, 0, [])
    ensures |s.wires| == 1 && s.wires[0].read == 0 && |s.wires[0].items| == 2
    ensures s.wires[0].items[0].Alive? && s.wires[0].items[1] == Sent("a", 1, e)
  {
    InitReachable();
    hide Reachable, Exec, Possible;
    s := Init();
    s := Spooled(s, "a", e);
    Extend(s, Announce(true)); s := AnnounceStep(s, true);
    assert "a" in Newest(s.wires).listed;
    Extend(s, StartReplay(["a"])); s := StartReplayStep(s, ["a"]);
    Extend(s, Ask); s := AskStep(s);
    OneEntry(e);
    Extend(s, Read); s := ReadStep(s);
    Extend(s, ReplaySend(Delivered)); s := ReplaySendStep(s, Delivered);
  }

  /** It is recorded, and the connection breaks before an ack comes back. */
  lemma RecordedWithoutAck(e: Frame) returns (s: State)
    requires e.Event?
    ensures Reachable(s) && CanAnnounce(s) && s.runs.Keys == {"a"}
    ensures var x := s.runs["a"];
      x.produced == [e] && x.open && x.cpLast == 1 && x.spool == SpoolState(0, 1, 1, None, [Entry(1, e)])
  {
    hide Reachable, Exec, Possible;
    s := SentOnce(e);
    Extend(s, Receive(0)); s := ReceiveStep(s, 0);
    Extend(s, Receive(0)); s := ReceiveStep(s, 0);
    Extend(s, Disconnect); s := DisconnectStep(s);
  }

  /** The replay is done, the socket is open, and the newest frame of `r` went nowhere. */
  ghost predicate StuckAt(s: State, r: RunId) {
    && s.live && !s.closed && s.replay.Done? && s.sending.None?
    && r in s.runs && s.runs[r].open
    && s.runs[r].spool.sent < s.runs[r].spool.acked < s.runs[r].spool.lastSeq
  }

  /** The ack repeated after the reconnect lands before the replay begins. */
  lemma AckedFirst(e: Frame) returns (s: State)
    requires e.Event?
    ensures Reachable(s) && s.live && !s.closed && s.sending.None? && s.runs.Keys == {"a"}
    ensures Enabled(s, StartReplay(["a"]))
    ensures s.runs["a"].produced == [e] && s.runs["a"].open && s.runs["a"].spool == SpoolState(1, 1, 0, None, [])
  {
    s := RecordedWithoutAck(e);
    hide Reachable, Exec, Possible;
    Extend(s, Announce(true)); s := AnnounceStep(s, true);
    OneEntry(e);
    Extend(s, AckStep("a", 1)); s := AckStepOn(s, "a", 1);
  }

  /** The replay has nothing to send, and so has not seen that it is behind. */
  lemma AckOvertakesReplay()
    ensures exists s :: Reachable(s) && StuckAt(s, "a")
  {
    var e := Event("x");
    var s := AckedFirst(e);
    hide Reachable, Exec, Possible;
    Extend(s, StartReplay(["a"])); s := StartReplayStep(s, ["a"]);
    Extend(s, Ask); s := AskStep(s);
    Extend(s, Read); s := ReadStep(s);
    Extend(s, Ask); s := AskStep(s);
    Extend(s, Produce("a", e)); s := ProduceStep(s, "a", e);
    Extend(s, Direct(Delivered)); s := DirectStep(s, Delivered);
    assert StuckAt(s, "a");
  }

  /** Two runs spooled offline; the replay of a new connection has read the first one's end. */
  lemma FirstOfTwoRead(f: Frame) returns (s: State)
    requires f.Finished?
    ensures Reachable(s) && s.live && !s.closed && s.sending.None? && s.runs.Keys == {"a", "b"}
    ensures s.replay == Sending(["b", "a"], [Entry(1, f)])
    ensures |s.wires| == 1 && s.wires[0].read == 0 && |s.wires[0].items| == 1 && s.wires[0].items[0].Alive?
    ensures s.runs["b"] == Run([f], SpoolState(0, 1, 0, Some(1), [Entry(1, f)]), true, 0, [])
    ensures s.runs["a"].open && s.runs["a"].spool.sent == 0 && s.runs["a"].spool.lastSeq == 1
  {
    InitReachable();
    hide Reachable, Exec, Possible;
    s := Init();
    s := Spooled(s, "b", f);
    s := Spooled(s, "a", Event("x"));
    Extend(s, Announce(true)); s := AnnounceStep(s, true);
    assert "a" in Newest(s.wires).listed;
    Extend(s, StartReplay(["b", "a"])); s := StartReplayStep(s, ["b", "a"]);
    Extend(s, Ask); s := AskStep(s);
    OneEntry(f);
    Extend(s, Read); s := ReadStep(s);
  }

  /** The replay is gone with the socket open, and a frame of the untouched run `r` with it. */
  ghost predicate KilledAt(s: State, r: RunId, at: RunId) {
    && s.live && !s.closed && s.replay == Died(at)
    && r in s.runs && s.runs[r].open
    && s.runs[r].spool.sent < s.runs[r].spool.lastSeq
  }

  /** The first run's end is sent and recorded, the replay still on its batch. */
  lemma EndRecorded(f: Frame) returns (s: State)
    requires f.Finished?
    ensures Reachable(s) && s.live && !s.closed && s.sending.None? && s.runs.Keys == {"a", "b"}
    ensures s.replay == Sending(["b", "a"], []) && s.wires != []
    ensures s.runs["b"] == Run([f], SpoolState(0, 1, 1, Some(1), [Entry(1, f)]), true, 1, [f])
    ensures s.runs["a"].open && s.runs["a"].spool.sent == 0 && s.runs["a"].spool.lastSeq == 1
  {
    s := FirstOfTwoRead(f);
    hide Reachable, Exec, Possible;
    Extend(s, ReplaySend(Delivered)); s := ReplaySendStep(s, Delivered);
    assert s.wires[0].items[1] == Sent("b", 1, f);
    Extend(s, Receive(0)); s := ReceiveStep(s, 0);
    Extend(s, Receive(0)); s := ReceiveStep(s, 0);
    assert [] + [f] == [f];
  }

  /** It is acknowledged before the replay asks whether more of it is left. */
  lemma CompletedSpoolKillsReplay()
    ensures exists s :: Reachable(s) && KilledAt(s, "a", "b")
  {
    var f := Finished("succeeded");
    var s := EndRecorded(f);
    hide Reachable, Exec, Possible;
    OneEntry(f);
    Extend(s, AckStep("b", 1)); s := AckStepOn(s, "b", 1);
    Extend(s, Close("b")); s := CloseStep(s, "b");
    Extend(s, ReplaySend(Delivered)); s := ReplaySendStep(s, Delivered);
    Extend(s, Ask); s := AskStep(s);
    Extend(s, Read); s := ReadStep(s);
    assert KilledAt(s, "a", "b");
  }
}
