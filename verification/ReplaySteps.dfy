/**
 What the steps of `ReplayProtocol` come to: each operation of
 `backend/app/agent/connection.py` from its first step to its last, left alone.
 */
module ReplaySteps {
  import opened Wrappers
  import opened SpoolSpec
  import opened ReplayProtocol

  /** Before the first connection there is nothing: no run, no wire, nothing to replay. */
  lemma AtStart(r: RunId, frame: Frame)
    ensures Enabled(Init(), Produce(r, frame)) && Enabled(Init(), Announce(true))
    ensures !Enabled(Init(), Disconnect) && !Enabled(Init(), SocketCloses) && !Enabled(Init(), StartReplay([]))
    ensures !Init().closed
  {
  }

  /** A new connection: every spool is sent again from what was acknowledged, whatever an earlier one did. */
  lemma Connecting(s: State, r: RunId)
    requires s.sending.None? && !s.live && s.replay.Idle?
    ensures Enabled(s, Announce(true))
    ensures var t := Apply(s, Announce(true));
      && t.live && !t.closed && t.overtaken == {} && t.sending.None? && t.replay.Idle?
      && |t.wires| == |s.wires| + 1 && t.wires[..|s.wires|] == s.wires && t.runs.Keys == s.runs.Keys
      && (r in s.runs ==> t.runs[r] == s.runs[r].(spool := s.runs[r].spool.(sent := s.runs[r].spool.acked)))
      && !Enabled(t, Announce(true)) && Enabled(t, Disconnect)
  {
  }

  /** The replay goes over the runs whose spool the store still holds, in whatever order it gives them. */
  lemma Replaying(s: State, order: seq<RunId>)
    requires s.live && s.replay.Idle?
    requires (forall r :: r in order <==> r in s.runs && s.runs[r].open) && forall i, j | 0 <= i < j < |order| :: order[i] != order[j]
    ensures Enabled(s, StartReplay(order)) && Apply(s, StartReplay(order)) == s.(replay := Asking(order))
  {
  }

  /** It reads up to 256 frames from where the spool was sent to, and goes on to the next run at an empty batch. */
  lemma Reading(s: State, r: RunId, rest: seq<RunId>)
    requires s.replay == Asking([r] + rest) && r in s.runs && s.runs[r].open
    ensures var x := s.runs[r];
      var owed := After(x.spool.pending, x.spool.sent);
      var t := Apply(s, Ask);
      && Enabled(s, Ask) && t == s.(replay := Replay.Reading([r] + rest, x.spool.sent)) && Enabled(t, Read)
      && (owed != [] ==> Apply(t, Read) == s.(replay := Sending([r] + rest, if |owed| <= 256 then owed else owed[..256])))
      && (owed == [] ==> Apply(t, Read).replay == Asking(rest) && Apply(t, Read).runs == s.runs && Apply(t, Read).wires == s.wires)
  {
    assert ([r] + rest)[1..] == rest;
  }

  /** A frame of the batch that nobody has sent yet goes out, and the next one is in turn. */
  lemma Sends(s: State, r: RunId, rest: seq<RunId>, e: Entry<Frame>, more: seq<Entry<Frame>>)
    requires s.replay == Sending([r] + rest, [e] + more) && s.sending.None? && s.live && !s.closed && s.wires != []
    requires r in s.runs && e.num > s.runs[r].spool.sent
    ensures Enabled(s, ReplaySend(Delivered))
    ensures var t := Apply(s, ReplaySend(Delivered));
      && t == s.(runs := s.runs[r := s.runs[r].(spool := s.runs[r].spool.(sent := e.num))],
                 wires := s.wires[|s.wires| - 1 := t.wires[|s.wires| - 1]], replay := Sending([r] + rest, more))
      && t.wires[|s.wires| - 1] == s.wires[|s.wires| - 1].(items := s.wires[|s.wires| - 1].items + [Sent(r, e.num, e.line)])
  {
    assert ([e] + more)[1..] == more;
  }

  /** A send that raises ends the replay there, and the frame counts as not sent, whether or not it got out. */
  lemma SendRaises(s: State, r: RunId, rest: seq<RunId>, e: Entry<Frame>, more: seq<Entry<Frame>>)
    requires s.replay == Sending([r] + rest, [e] + more) && s.sending.None? && s.live && s.wires != []
    requires r in s.runs && e.num > s.runs[r].spool.sent
    ensures Enabled(s, ReplaySend(Refused)) && Apply(s, ReplaySend(Refused)) == s.(closed := true, replay := Died(r))
    ensures !s.closed ==>
      && Enabled(s, ReplaySend(LostAfterWrite))
      && var t := Apply(s, ReplaySend(LostAfterWrite));
         t.closed && t.replay == Died(r) && t.runs == s.runs
         && Newest(t.wires).items == Newest(s.wires).items + [Sent(r, e.num, e.line)]
  {
  }

  /** A frame sent meanwhile is passed over, and after the batch the spool is asked again. */
  lemma Skips(s: State, r: RunId, rest: seq<RunId>, e: Entry<Frame>, more: seq<Entry<Frame>>, outcome: Outcome)
    requires r in s.runs && s.sending.None? && s.live && !s.closed && s.wires != []
    ensures s.replay == Sending([r] + rest, [e] + more) && e.num <= s.runs[r].spool.sent ==>
      Enabled(s, ReplaySend(outcome)) && Apply(s, ReplaySend(outcome)) == s.(replay := Sending([r] + rest, more))
    ensures s.replay == Sending([r] + rest, []) ==>
      Enabled(s, ReplaySend(outcome)) && Apply(s, ReplaySend(outcome)) == s.(replay := Asking([r] + rest))
  {
    assert ([e] + more)[1..] == more;
  }

  /** A socket may close at any moment of a connection; then every send raises, until it is taken down. */
  lemma Closing(s: State, outcome: Outcome)
    requires s.live
    ensures Enabled(s, SocketCloses) && Apply(s, SocketCloses) == s.(closed := true)
    ensures Enabled(s.(closed := true), Direct(outcome)) ==> outcome.Refused?
    ensures Enabled(s.(closed := true), ReplaySend(outcome)) ==> outcome.Refused?
    ensures Enabled(s, Disconnect) && Apply(s, Disconnect) == s.(live := false, replay := Idle)
  {
  }

  /** An ack the control plane gave drops what it covers; the one that covers the end lets go of the spool, once. */
  lemma Acking(s: State, r: RunId, n: nat)
    requires r in s.runs && s.runs[r].open && s.runs[r].spool.acked < n <= s.runs[r].cpLast
    ensures Enabled(s, AckStep(r, n))
    ensures var x, t := s.runs[r], Apply(s, AckStep(r, n));
      && t == s.(runs := s.runs[r := x.(spool := x.spool.(acked := n, pending := After(x.spool.pending, n)))])
      && (Enabled(t, Close(r)) <==> x.spool.finalSeq.Some? && x.spool.finalSeq.value <= n)
      && (Enabled(t, Close(r)) ==>
            Apply(t, Close(r)).runs[r] == t.runs[r].(open := false)
            && !Enabled(Apply(t, Close(r)), Close(r)) && !Enabled(Apply(t, Close(r)), AckStep(r, n)))
  {
  }

  /** A run's next frame is spooled under the lock, and goes out at once where it is the next one owed on a connection. */
  lemma Producing(s: State, r: RunId, frame: Frame)
    requires s.sending.None? && r in s.runs && !HasFinished(s.runs[r])
    ensures Enabled(s, Produce(r, frame))
    ensures var x, t := s.runs[r], Apply(s, Produce(r, frame));
      var n := |x.produced| + 1;
      && t.sending == Some(r) && t.wires == s.wires && t.replay == s.replay
      && t.runs[r].produced == x.produced + [frame] && t.runs[r].spool.pending == x.spool.pending + [Entry(n, frame)]
      && !Enabled(t, Produce(r, frame)) && Enabled(t, Direct(Refused)) && (Enabled(t, Direct(Delivered)) <==> !s.closed)
  {
  }

  lemma GoesOut(s: State, r: RunId)
    requires s.sending == Some(r) && r in s.runs && s.live && !s.closed && s.wires != []
    requires s.runs[r].produced != [] && s.runs[r].spool.sent + 1 == |s.runs[r].produced|
    ensures var x, n, t := s.runs[r], |s.runs[r].produced|, Apply(s, Direct(Delivered));
      && t.sending.None? && t.runs == s.runs[r := x.(spool := x.spool.(sent := n))] && t.replay == s.replay && !t.closed
      && Newest(t.wires).items == Newest(s.wires).items + [Sent(r, n, x.produced[n - 1])]
    ensures Apply(s, Direct(Refused)) == s.(sending := None, closed := true)
  {
  }

  /** A frame that is not the next one owed, or that no connection is up for, is left to the replay. */
  lemma LeftToReplay(s: State, r: RunId)
    requires s.sending == Some(r) && r in s.runs && s.runs[r].spool.sent <= |s.runs[r].produced|
    requires !s.live || s.runs[r].spool.sent + 1 != |s.runs[r].produced|
    ensures Apply(s, Direct(Refused)) == s.(sending := None)
  {
  }

  /** The control plane takes a frame it has not got, drops one it has, and reads on. */
  lemma Receiving(s: State, v: nat, r: RunId, n: nat, line: Frame)
    requires v < |s.wires| && s.wires[v].read < |s.wires[v].items| && s.wires[v].items[s.wires[v].read] == Sent(r, n, line)
    requires r in s.runs
    ensures Enabled(s, Receive(v))
    ensures var x, t := s.runs[r], Apply(s, Receive(v));
      && t.wires == s.wires[v := s.wires[v].(read := s.wires[v].read + 1)]
      && t.runs == s.runs[r := if n <= x.cpLast then x else x.(cpLast := n, recorded := x.recorded + [line])]
      && t.replay == s.replay && t.live == s.live && t.sending == s.sending
  {
  }
}
