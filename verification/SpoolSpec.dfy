/**
 What a run's spool means (`backend/app/agent/spool.py`), without the file:
 the frames not acknowledged yet, in order, and four counters.
 `SpoolFile.Spool` implements it over bytes; `ReplayProtocol` runs it under
 the connection.
 */
module SpoolSpec {
  import opened Wrappers

  /** One encoded frame of a run, with its sequence number. */
  datatype Entry<+L> = Entry(num: nat, line: L)

  datatype SpoolState<+L> = SpoolState(
    acked: nat,             // highest seq the control plane acknowledged
    lastSeq: nat,           // highest seq appended
    sent: nat,              // highest seq sent on the current connection
    finalSeq: Option<nat>,  // the run_finished frame's seq, once spooled
    pending: seq<Entry<L>>  // not acknowledged, in file order
  )
  {
    predicate Complete() {
      finalSeq.Some? && acked >= finalSeq.value
    }
  }

  function Empty<L>(): SpoolState<L> {
    SpoolState(0, 0, 0, None, [])
  }

  /** The entries from the first one numbered above `n` on. */
  function After<L>(p: seq<Entry<L>>, n: nat): seq<Entry<L>> {
    if p == [] then [] else if p[0].num <= n then After(p[1..], n) else p
  }

  function Append<L>(s: SpoolState<L>, num: nat, line: L, final: bool): SpoolState<L> {
    s.(pending := s.pending + [Entry(num, line)],
       lastSeq := if s.lastSeq < num then num else s.lastSeq,
       finalSeq := if final then Some(num) else s.finalSeq)
  }

  function Ack<L>(s: SpoolState<L>, n: nat): SpoolState<L> {
    if n > s.acked then s.(acked := n, pending := After(s.pending, n)) else s
  }

  function ReadAfter<L>(s: SpoolState<L>, n: nat, limit: nat): seq<Entry<L>> {
    var rest := After(s.pending, n);
    if |rest| <= limit then rest else rest[..limit]
  }

  /** The entries numbered `from + 1 .. to` of a run that produced `produced`. */
  function Numbered<L>(produced: seq<L>, from: nat, to: nat): (r: seq<Entry<L>>)
    requires from <= to <= |produced|
    ensures |r| == to - from
  {
    seq(to - from, i requires 0 <= i < to - from => Entry(from + 1 + i, produced[from + i]))
  }

  /** On entries below and then above `n`, `After` is a suffix. */
  lemma {:induction false} AfterIsDrop<L>(p: seq<Entry<L>>, n: nat, k: nat)
    requires k <= |p|
    requires forall i | 0 <= i < k :: p[i].num <= n
    requires k < |p| ==> p[k].num > n
    ensures After(p, n) == p[k..]
    decreases k
  {
    if k > 0 {
      AfterIsDrop(p[1..], n, k - 1);
      assert p[1..][k - 1..] == p[k..];
    }
  }

  /** Dropping the acknowledged prefix of a contiguous spool leaves a contiguous spool. */
  lemma AfterNumbered<L>(produced: seq<L>, from: nat, to: nat, n: nat)
    requires from <= to <= |produced|
    ensures After(Numbered(produced, from, to), n)
         == Numbered(produced, if n <= from then from else if n <= to then n else to, to)
  {
    var start := if n <= from then from else if n <= to then n else to;
    var p := Numbered(produced, from, to);
    AfterIsDrop(p, n, start - from);
    assert p[start - from..] == Numbered(produced, start, to);
  }
}
