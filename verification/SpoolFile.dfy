/**
 `Spool` of `backend/app/agent/spool.py`: one file of lines, the seq and end
 offset of each, and the index of the first unacknowledged one. Every method
 is proved to do what `SpoolSpec` says, so compaction, offsets and the byte
 file are invisible to the connection.
 */
module SpoolFile {
  import opened Wrappers
  import opened SpoolSpec

  type Byte = x: int | 0 <= x < 256
  type Bytes = seq<Byte>

  const NEWLINE: Byte := 10
  const COMPACT_BYTES: nat := 4 * 1024 * 1024

  /** `data.rstrip(b"\n")` */
  function Strip(data: Bytes): Bytes {
    if data == [] || data[|data| - 1] != NEWLINE then data else Strip(data[..|data| - 1])
  }

  lemma StripNewline(line: Bytes)
    ensures Strip(line + [NEWLINE]) == Strip(line)
  {
    assert (line + [NEWLINE])[..|line + [NEWLINE]| - 1] == line;
  }

  /** An encoded frame ends in no newline. */
  predicate OneLine(line: Bytes) {
    line == [] || line[|line| - 1] != 10
  }

  predicate Ascending(a: seq<nat>) {
    forall i, j | 0 <= i < j < |a| :: a[i] < a[j]
  }

  /** `bisect.bisect_right(a, x, lo=lo)`, which finds the place where `a` is in order. */
  function BisectRight(a: seq<nat>, x: nat, lo: nat): (r: nat)
    requires lo <= |a|
    ensures lo <= r <= |a|
    ensures Ascending(a) ==> (forall i | lo <= i < r :: a[i] <= x) && (forall i | r <= i < |a| :: a[i] > x)
  {
    Bisect(a, x, lo, |a|)
  }

  function Bisect(a: seq<nat>, x: nat, lo: nat, hi: nat): (r: nat)
    requires lo <= hi <= |a|
    ensures lo <= r <= hi
    ensures Ascending(a) ==> (forall i | lo <= i < r :: a[i] <= x) && (forall i | r <= i < hi :: a[i] > x)
    decreases hi - lo
  {
    if lo == hi then lo
    else
      var mid := (lo + hi) / 2;
      if x < a[mid] then Bisect(a, x, lo, mid) else Bisect(a, x, mid + 1, hi)
  }

  // ── the file and its index, as values ─────────────────────────────────

  /** Where line `i` starts. */
  function Start(ends: seq<nat>, i: nat): nat
    requires i <= |ends|
  {
    if i == 0 then 0 else ends[i - 1]
  }

  /** Line `i` is a non-empty stretch of the file. */
  ghost predicate LineIn(ends: seq<nat>, file: Bytes, i: nat) {
    i < |ends| && Start(ends, i) < ends[i] <= |file|
  }

  /** One end offset per seq, strictly growing, the last one the file's size. */
  ghost predicate Layout(seqs: seq<nat>, ends: seq<nat>, first: nat, file: Bytes) {
    && |seqs| == |ends|
    && first <= |seqs|
    && |file| == Start(ends, |ends|)
    && (forall i: nat | i < |ends| :: LineIn(ends, file, i))
  }

  ghost function LineAt(ends: seq<nat>, file: Bytes, i: nat): Bytes
    requires LineIn(ends, file, i)
  {
    Strip(file[Start(ends, i)..ends[i]])
  }

  /** The unacknowledged frames this file and index hold. */
  ghost function PendingOf(seqs: seq<nat>, ends: seq<nat>, first: nat, file: Bytes): (p: seq<Entry<Bytes>>)
    requires Layout(seqs, ends, first, file)
    ensures |p| == |seqs| - first
  {
    seq(|seqs| - first, k requires 0 <= k < |seqs| - first =>
      Entry(seqs[first + k], LineAt(ends, file, first + k)))
  }

  /** One more line after the file leaves the others where they are. */
  lemma AppendKeepsLines(seqs: seq<nat>, ends: seq<nat>, first: nat, file: Bytes, num: nat, line: Bytes)
    requires Layout(seqs, ends, first, file)
    ensures var grown := file + line + [NEWLINE];
      && Layout(seqs + [num], ends + [|grown|], first, grown)
      && (forall i: nat | i < |ends| :: LineAt(ends + [|grown|], grown, i) == LineAt(ends, file, i))
      && LineAt(ends + [|grown|], grown, |ends|) == Strip(line)
  {
    var grown := file + line + [NEWLINE];
    var ends' := ends + [|grown|];
    forall i: nat | i < |ends|
      ensures LineIn(ends', grown, i) && LineAt(ends', grown, i) == LineAt(ends, file, i)
    {
      assert LineIn(ends, file, i);
      assert grown[Start(ends, i)..ends[i]] == file[Start(ends, i)..ends[i]];
    }
    assert grown[Start(ends', |ends|)..|grown|] == line + [NEWLINE];
    StripNewline(line);
    assert LineIn(ends', grown, |ends|);
  }

  lemma AppendKeepsLayout(seqs: seq<nat>, ends: seq<nat>, first: nat, file: Bytes, num: nat, line: Bytes)
    requires Layout(seqs, ends, first, file)
    ensures var grown := file + line + [NEWLINE];
      && Layout(seqs + [num], ends + [|grown|], first, grown)
      && PendingOf(seqs + [num], ends + [|grown|], first, grown)
         == PendingOf(seqs, ends, first, file) + [Entry(num, Strip(line))]
  {
    AppendKeepsLines(seqs, ends, first, file, num, line);
    var grown := file + line + [NEWLINE];
    var before, after := PendingOf(seqs, ends, first, file), PendingOf(seqs + [num], ends + [|grown|], first, grown);
    assert |after| == |before| + 1;
    forall k | 0 <= k < |before| ensures after[k] == before[k] {
      assert LineAt(ends + [|grown|], grown, first + k) == LineAt(ends, file, first + k);
    }
  }

  lemma PendingFrom(seqs: seq<nat>, ends: seq<nat>, first: nat, k: nat, file: Bytes)
    requires Layout(seqs, ends, first, file) && first <= k <= |seqs|
    ensures Layout(seqs, ends, k, file)
    ensures PendingOf(seqs, ends, k, file) == PendingOf(seqs, ends, first, file)[k - first..]
  {
  }

  lemma PendingNumbers(seqs: seq<nat>, ends: seq<nat>, first: nat, file: Bytes)
    requires Layout(seqs, ends, first, file)
    ensures forall i | 0 <= i < |seqs| - first :: PendingOf(seqs, ends, first, file)[i].num == seqs[first + i]
  {
  }

  lemma AckDropsPrefix(seqs: seq<nat>, ends: seq<nat>, first: nat, file: Bytes, num: nat)
    requires Layout(seqs, ends, first, file)
    ensures var k := BisectRight(seqs, num, first);
      && Layout(seqs, ends, k, file)
      && PendingOf(seqs, ends, k, file) == PendingOf(seqs, ends, first, file)[k - first..]
      && (Ascending(seqs) ==> PendingOf(seqs, ends, k, file) == After(PendingOf(seqs, ends, first, file), num))
  {
    var k := BisectRight(seqs, num, first);
    PendingFrom(seqs, ends, first, k, file);
    PendingNumbers(seqs, ends, first, file);
    hide Layout, PendingOf, Bisect;
    if Ascending(seqs) { AfterIsDrop(PendingOf(seqs, ends, first, file), num, k - first); }
  }

  /** `[end - cut for end in ends[first:]]` */
  function Rebased(ends: seq<nat>, first: nat, cut: nat): (r: seq<nat>)
    requires first <= |ends| && forall i | first <= i < |ends| :: ends[i] >= cut
    ensures |r| == |ends| - first
  {
    seq(|ends| - first, i requires 0 <= i < |ends| - first => ends[first + i] - cut)
  }

  lemma {:induction false} EndsGrow(seqs: seq<nat>, ends: seq<nat>, first: nat, file: Bytes, i: nat, j: nat)
    requires Layout(seqs, ends, first, file) && i <= j <= |ends|
    ensures Start(ends, i) <= Start(ends, j)
    decreases j - i
  {
    if i < j {
      assert LineIn(ends, file, i);
      EndsGrow(seqs, ends, first, file, i + 1, j);
    }
  }

  /** Every line from `first` on starts at or after the cut. */
  lemma AfterCut(seqs: seq<nat>, ends: seq<nat>, first: nat, file: Bytes, i: nat)
    requires Layout(seqs, ends, first, file) && first <= i <= |ends|
    ensures Start(ends, first) <= Start(ends, i) <= |file|
    ensures i < |ends| ==> Start(ends, i) < ends[i] <= |file|
  {
    EndsGrow(seqs, ends, first, file, first, i);
    EndsGrow(seqs, ends, first, file, i, |ends|);
    if i < |ends| { assert LineIn(ends, file, i); }
  }

  lemma RebasedLine(seqs: seq<nat>, ends: seq<nat>, first: nat, file: Bytes, i: nat)
    requires Layout(seqs, ends, first, file) && i < |ends| - first
    requires Start(ends, first) <= |file| && forall k | first <= k < |ends| :: ends[k] >= Start(ends, first)
    ensures var cut := Start(ends, first);
      && LineIn(ends, file, first + i)
      && LineIn(Rebased(ends, first, cut), file[cut..], i)
      && LineAt(Rebased(ends, first, cut), file[cut..], i) == LineAt(ends, file, first + i)
  {
    AfterCut(seqs, ends, first, file, first + i);
    var cut := Start(ends, first);
    var ends' := Rebased(ends, first, cut);
    assert Start(ends', i) == Start(ends, first + i) - cut && ends'[i] == ends[first + i] - cut;
    assert file[cut..][Start(ends', i)..ends'[i]] == file[Start(ends, first + i)..ends[first + i]];
  }

  lemma CompactKeepsPending(seqs: seq<nat>, ends: seq<nat>, first: nat, file: Bytes)
    requires Layout(seqs, ends, first, file)
    ensures var cut := Start(ends, first);
      && cut <= |file|
      && (forall i | first <= i < |ends| :: ends[i] >= cut)
      && Layout(seqs[first..], Rebased(ends, first, cut), 0, file[cut..])
      && PendingOf(seqs[first..], Rebased(ends, first, cut), 0, file[cut..])
         == PendingOf(seqs, ends, first, file)
  {
    var cut := Start(ends, first);
    AfterCut(seqs, ends, first, file, first);
    AfterCut(seqs, ends, first, file, |ends|);
    forall i: nat | first <= i < |ends| ensures ends[i] >= cut {
      AfterCut(seqs, ends, first, file, i);
    }
    var ends' := Rebased(ends, first, cut);
    var rest := file[cut..];
    hide LineIn, LineAt;
    forall i: nat | i < |ends'|
      ensures LineIn(ends', rest, i) && LineIn(ends, file, first + i)
           && LineAt(ends', rest, i) == LineAt(ends, file, first + i)
    {
      RebasedLine(seqs, ends, first, file, i);
    }
    assert Layout(seqs[first..], ends', 0, rest);
    assert PendingOf(seqs[first..], ends', 0, rest) == PendingOf(seqs, ends, first, file);
  }

  /** Inside one batch read from the file, line `index` is where its offsets say. */
  lemma BatchLine(seqs: seq<nat>, ends: seq<nat>, first: nat, file: Bytes, lo: nat, hi: nat, index: nat)
    requires Layout(seqs, ends, first, file) && first <= lo <= index < hi <= |seqs|
    ensures Start(ends, lo) <= Start(ends, index) < ends[index] <= ends[hi - 1] <= |file|
    ensures var s := Start(ends, lo);
      PendingOf(seqs, ends, first, file)[index - first]
      == Entry(seqs[index], Strip(file[s..ends[hi - 1]][Start(ends, index) - s..ends[index] - s]))
  {
    EndsGrow(seqs, ends, first, file, lo, index);
    EndsGrow(seqs, ends, first, file, index + 1, hi);
    assert LineIn(ends, file, index) && LineIn(ends, file, hi - 1);
    var s := Start(ends, lo);
    SliceOfSlice(file, s, ends[hi - 1], Start(ends, index), ends[index]);
    assert PendingOf(seqs, ends, first, file)[index - first] == Entry(seqs[index], LineAt(ends, file, index));
  }

  lemma SliceOfSlice<T>(a: seq<T>, from: nat, to: nat, i: nat, j: nat)
    requires from <= i <= j <= to <= |a|
    ensures a[from..to][i - from..j - from] == a[i..j]
  {
    var b := a[from..to];
    forall k | 0 <= k < j - i ensures b[i - from..j - from][k] == a[i..j][k] {
      assert b[i - from + k] == a[from + (i - from + k)];
    }
  }

  /** The loop of `read_after`: one read of the file, cut at the offsets of lines `lo .. hi`. */
  method ReadBatch(seqs: seq<nat>, ends: seq<nat>, ghost first: nat, file: Bytes, lo: nat, hi: nat)
    returns (entries: seq<Entry<Bytes>>)
    requires Layout(seqs, ends, first, file) && first <= lo < hi <= |seqs|
    ensures entries == PendingOf(seqs, ends, first, file)[lo - first..hi - first]
  {
    ghost var pending := PendingOf(seqs, ends, first, file);
    var start := Start(ends, lo);
    BatchLine(seqs, ends, first, file, lo, hi, lo);
    var data := file[start..ends[hi - 1]];
    entries := [];
    var previous := 0;
    for index := lo to hi
      invariant previous == Start(ends, index) - start
      invariant entries == pending[lo - first..index - first]
    {
      BatchLine(seqs, ends, first, file, lo, hi, index);
      var end := ends[index] - start;
      entries := entries + [Entry(seqs[index], Strip(data[previous..end]))];
      previous := end;
    }
  }

  class Spool {
    var acked: nat
    var lastSeq: nat
    var sent: nat
    var finalSeq: Option<nat>
    var seqs: seq<nat>
    var ends: seq<nat>
    var first: nat
    var size: nat
    var file: Bytes
    var handleOpen: bool
    var onDisk: bool

    ghost predicate Valid()
      reads this
    {
      && Layout(seqs, ends, first, file) && size == |file|
      && (handleOpen ==> onDisk)
    }

    /** The frames came in the order of their numbers, as the connection hands them over. */
    ghost predicate Ordered()
      reads this
    {
      Ascending(seqs) && forall i | 0 <= i < |seqs| :: seqs[i] <= lastSeq
    }

    /** The abstract spool this object stands for. */
    ghost function Abs(): SpoolState<Bytes>
      requires Valid()
      reads this
    {
      SpoolState(acked, lastSeq, sent, finalSeq, PendingOf(seqs, ends, first, file))
    }

    constructor ()
      ensures Valid() && Ordered() && Abs() == Empty() && handleOpen
    {
      acked, lastSeq, sent, finalSeq := 0, 0, 0, None;
      seqs, ends, first, size, file, handleOpen, onDisk := [], [], 0, 0, [], true, true;
    }

    method Append(num: nat, line: Bytes, final: bool)
      requires Valid() && handleOpen
      modifies this
      ensures Valid() && handleOpen
      ensures old(Ordered()) && num > old(lastSeq) ==> Ordered()
      ensures Abs() == SpoolSpec.Append(old(Abs()), num, Strip(line), final) && (OneLine(line) ==> Strip(line) == line)
      ensures file == old(file) + line + [10]
    {
      AppendKeepsLayout(seqs, ends, first, file, num, line);
      var data := line + [NEWLINE];
      assert file + data == file + line + [NEWLINE];
      file := file + data;
      size := size + |data|;
      seqs := seqs + [num];
      ends := ends + [size];
      if lastSeq < num { lastSeq := num; }
      if final { finalSeq := Some(num); }
    }

    /** What of the file is acknowledged and still there. */
    function Acknowledged(): nat
      requires first <= |ends|
      reads this
    {
      Start(ends, first)
    }

    /** It is little, and less than half of the file, or nothing. */
    predicate Small(cut: nat, size: nat) {
      cut == 0 || (cut < 4194304 && 2 * cut < size)
    }

    /** `ack`: cumulative; True once the run's `run_finished` is covered. */
    method Ack(num: nat) returns (complete: bool)
      requires Valid() && onDisk
      modifies this
      ensures Valid() && onDisk && (old(handleOpen) ==> handleOpen)
      ensures old(Ordered()) ==> Ordered() && Abs() == SpoolSpec.Ack(old(Abs()), num)
      ensures Abs().acked == (if num > old(acked) then num else old(acked)) && complete == Abs().Complete()
      ensures num > old(acked) ==> Small(Acknowledged(), size)
    {
      hide Layout, PendingOf, Ascending, BisectRight, After;
      if num > acked {
        AckDropsPrefix(seqs, ends, first, file, num);
        acked := num;
        first := BisectRight(seqs, num, first);
        MaybeCompact();
      }
      complete := finalSeq.Some? && acked >= finalSeq.value;
    }

    /** Cutting the acknowledged prefix off the file changes nothing that can be read. */
    method MaybeCompact()
      requires Valid() && onDisk
      modifies this
      ensures Valid() && onDisk && (old(handleOpen) ==> handleOpen)
      ensures Abs() == old(Abs()) && (old(Ordered()) ==> Ordered())
      ensures var cut := old(Acknowledged());
        if Small(cut, old(size)) then file == old(file) && handleOpen == old(handleOpen)
        else cut <= |old(file)| && file == old(file)[cut..] && first == 0 && handleOpen
      ensures Small(Acknowledged(), size)
    {
      var cut := Start(ends, first);
      if cut == 0 || (cut < COMPACT_BYTES && cut * 2 < size) {
        return;
      }
      CompactKeepsPending(seqs, ends, first, file);
      file := file[cut..];
      assert forall i | 0 <= i < |seqs| - first :: seqs[first..][i] == seqs[first + i];
      seqs, ends := seqs[first..], Rebased(ends, first, cut);
      first := 0;
      size := size - cut;
      handleOpen := true;
    }

    /** The handle must be open: `read_after` flushes it first, and a closed one raises. */
    method ReadAfter(num: nat, limit: nat) returns (out: Option<seq<Entry<Bytes>>>)
      requires Valid()
      ensures out.Some? <==> handleOpen
      ensures out.Some? && Ordered() ==> out.value == SpoolSpec.ReadAfter(Abs(), num, limit)
      ensures out.Some? ==> |out.value| <= limit && forall e | e in out.value :: e in Abs().pending
    {
      hide Layout, Ascending, After, BisectRight, PendingOf;
      if !handleOpen {
        return None;
      }
      ghost var pending := PendingOf(seqs, ends, first, file);
      AckDropsPrefix(seqs, ends, first, file, num);
      var startIndex := BisectRight(seqs, num, first);
      var stopIndex := if startIndex + limit < |seqs| then startIndex + limit else |seqs|;
      ghost var rest := pending[startIndex - first..];
      if startIndex >= stopIndex {
        assert rest[..stopIndex - startIndex] == [];
        return Some([]);
      }
      var entries := ReadBatch(seqs, ends, first, file, startIndex, stopIndex);
      assert entries == rest[..stopIndex - startIndex];
      assert entries == pending[startIndex - first..startIndex - first + |entries|];
      assert rest[..|rest|] == rest;
      out := Some(entries);
    }

    /** `close`: the handle goes, with it every later `ReadAfter`, and the file too where asked. */
    method Close(delete: bool)
      requires Valid()
      modifies this`handleOpen, this`onDisk
      ensures Valid() && !handleOpen && Abs() == old(Abs())
      ensures onDisk == (old(onDisk) && !delete)
    {
      handleOpen := false;
      if delete { onDisk := false; }
    }
  }
}
