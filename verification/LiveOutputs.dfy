/**
 Recorded outputs on their way from the live store to copies to files:
 `LiveOutputs` of `backend/app/agent/child.py`, whose fields three threads
 change: the run's loop (`prepare`), the main thread (`save`) and the listener
 (`drop`), while reads run on a pool.

 A read changes none of these fields, so one read, begun at any moment and as
 often as one likes, stands for every read in every interleaving.
 */
module LiveOutputs {
  datatype Held = Nothing | Copies | Files

  /** What a read was answered from; `Blank` are copies of nothing, `Miss` is the 404. */
  datatype Answer = Live | FromCopies | FromFiles | Blank | Miss

  /** The answer holds captures of the run. */
  predicate Served(a: Answer) {
    a.Live? || a.FromCopies? || a.FromFiles?
  }

  /** The run's loop: the run, then `prepare`, then `closing`. */
  datatype Prepare =
    | Running
    | Counted(drops: nat)     // has_run was true; `drops` is what the counter said
    | Copied(drops: nat)      // the snapshot taken; capture_slots runs in a thread
    | Keeping                 // the counter still says the same
    | Stored                  // _entries set
    | Published               // disk set to the copies; the store about to be emptied
    | Discarding              // the counter moved: the store about to be emptied
    | Prepared
    | Ended                   // closing set; the loop shuts down

  /** The listener inside `drop`; `late` when it began with `prepare` past its publication. */
  datatype Drop =
    | NoDrop
    | Counting(late: bool)    // _drops incremented
    | Found(late: bool)       // disk was not None
    | Marked(late: bool)      // dropped set
    | Released(late: bool)    // disk cleared

  /** The main thread inside `save`. */
  datatype Save = NotSaving | Writing | Wrote(whole: bool) | Cleared(whole: bool) | Publishing | Saved

  /** What held when a read began. */
  datatype Facts = Facts(
    after: bool,     // a drop had completed, and nothing was captured since it looked or since this read began
    settled: bool,   // a late drop had completed
    ready: bool,     // the copies had been published
    held: bool       // there were captures, in the live store or published
  )

  /** A read; `looked` when the copies had been published by the time it chose its reader. */
  datatype Read =
    | NoRead
    | Begun(f: Facts)
    | Undropped(f: Facts)                              // `dropped` was False: `disk` is next
    | Reading(f: Facts, looked: bool, from: Held)      // the reader chosen; Nothing is the live store
    | Answered(f: Facts, looked: bool, gone: bool, answer: Answer)

  datatype State = State(
    prepare: Prepare,
    drop: Drop,
    save: Save,
    read: Read,
    disk: Held,
    store: bool,          // the live store holds captures of the run
    deleting: bool,       // a delete_run handed to the loop, not run yet
    entries: bool,        // _entries is not None
    dropped: bool,
    drops: nat,
    full: bool,           // the snapshot held captures
    emptied: bool,        // history: a drop has completed, and nothing was captured since
    settled: bool,        // history: a late drop has completed
    published: bool,      // history: the copies have been published
    overtaken: bool,      // history: the snapshot was taken with the delete_run of a counted drop waiting for the loop
    slipped: bool         // history: a drop counted before the count or after the compare found no `disk` after the snapshot
  )

  datatype Step =
    | Capture
    | PrepareNothing      // no captures, no directory, or a failure
    | PrepareCount
    | PrepareCopy
    | PrepareCompare
    | PrepareStore
    | PreparePublish
    | PrepareEmpty
    | PrepareEnd
    | DeleteRun           // the loop runs a delete_run handed to it
    | DropBegin
    | DropTest
    | DropMark
    | DropRelease
    | DropEntries
    | SaveBegin
    | SaveWrite(whole: bool)  // not whole: abandoned, or failed
    | SaveClear
    | SaveTest
    | SavePublish
    | ReadBegin
    | ReadFlag
    | ReadDisk
    | ReadAnswer

  function Init(): State {
    State(Running, NoDrop, NotSaving, NoRead, Nothing, false, false, false, false, 0, false, false, false, false, false, false)
  }

  /** The loop's thread is between two awaits of `prepare`, not at one. */
  predicate LoopBusy(s: State) {
    s.prepare.Keeping? || s.prepare.Stored? || s.prepare.Published? || s.prepare.Discarding?
  }

  predicate Enabled(s: State, step: Step) {
    match step
    case Capture => s.prepare.Running?
    case PrepareNothing => s.prepare.Running? || s.prepare.Counted? || s.prepare.Copied?
    case PrepareCount => s.prepare.Running? && s.store
    case PrepareCopy => s.prepare.Counted?
    case PrepareCompare => s.prepare.Copied?
    case PrepareStore => s.prepare.Keeping?
    case PreparePublish => s.prepare.Stored?
    case PrepareEmpty => s.prepare.Published? || s.prepare.Discarding?
    case PrepareEnd => s.prepare.Prepared?
    case DeleteRun => s.deleting && !LoopBusy(s) && !s.prepare.Ended?
    case DropBegin => s.drop.NoDrop?
    case DropTest => s.drop.Counting?
    case DropMark => s.drop.Found?
    case DropRelease => s.drop.Marked?
    case DropEntries => s.drop.Released?
    case SaveBegin => s.prepare.Ended? && s.save.NotSaving? && s.entries && !s.dropped
    case SaveWrite(_) => s.save.Writing?
    case SaveClear => s.save.Wrote?
    case SaveTest => s.save.Cleared?
    case SavePublish => s.save.Publishing?
    case ReadBegin => s.read.NoRead? || s.read.Answered?
    case ReadFlag => s.read.Begun?
    case ReadDisk => s.read.Undropped?
    case ReadAnswer =>
      // a lookup in the live store is one more thing the loop runs, in its turn
      s.read.Reading? && (s.read.from.Nothing? ==> s.prepare.Ended? || (!LoopBusy(s) && !s.deleting))
  }

  function AnswerOf(s: State): Answer
    requires s.read.Reading?
  {
    match s.read.from
    case Copies => if s.full then FromCopies else Blank
    case Files => if s.full then FromFiles else Blank
    case Nothing => if !s.prepare.Ended? && s.store then Live else Miss
  }

  /** Past the point where `prepare` publishes, or decides not to. */
  predicate PastPublish(p: Prepare) {
    p.Published? || p.Discarding? || p.Prepared? || p.Ended?
  }

  /** `prepare` has emptied the store after publishing, or the loop no longer answers. */
  predicate StoreGone(s: State) {
    s.prepare.Ended? || (s.prepare.Prepared? && s.published)
  }

  /** A new capture: what was dropped before it says nothing of it. */
  function Captured(s: State): State {
    s.(store := true, emptied := false, read := match s.read
       case NoRead => NoRead
       case Begun(f) => Begun(f.(after := false))
       case Undropped(f) => Undropped(f.(after := false))
       case Reading(f, looked, from) => Reading(f.(after := false), looked, from)
       case Answered(f, looked, gone, answer) => Answered(f, looked, gone, answer))
  }

  /** The counter no longer says what `prepare` has counted. */
  predicate Moved(s: State) {
    (s.prepare.Counted? || s.prepare.Copied?) && s.drops != s.prepare.drops
  }

  /** `self.disk is not None`, and what `drop` does when it is None. */
  function Tested(s: State): State
    requires s.drop.Counting?
  {
    var found := s.disk != Nothing;
    s.(drop := if found then Found(s.drop.late) else NoDrop,
       deleting := s.deleting || (!found && !s.prepare.Ended?),
       emptied := s.emptied || !found,
       settled := s.settled || (!found && s.drop.late),
       slipped := s.slipped || (!found && s.full && Copying(s.prepare) && !Moved(s)))
  }

  /** Between the snapshot and the publication. */
  predicate Copying(p: Prepare) {
    p.Copied? || p.Keeping? || p.Stored?
  }

  function Apply(s: State, step: Step): State
    requires Enabled(s, step)
  {
    match step
    case Capture => Captured(s)
    case PrepareNothing => s.(prepare := Prepared)
    case PrepareCount => s.(prepare := Counted(s.drops))
    case PrepareCopy =>
      s.(prepare := Copied(s.prepare.drops), full := s.store, overtaken := s.store && s.deleting && !Moved(s))
    case PrepareCompare => s.(prepare := if s.drops == s.prepare.drops then Keeping else Discarding)
    case PrepareStore => s.(prepare := Stored, entries := true)
    case PreparePublish => s.(prepare := Published, disk := Copies, published := true)
    case PrepareEmpty => s.(prepare := Prepared, store := false)
    case PrepareEnd => s.(prepare := Ended)
    case DeleteRun => s.(deleting := false, store := false)
    case DropBegin => s.(drop := Counting(PastPublish(s.prepare)), drops := s.drops + 1)
    case DropTest => Tested(s)
    case DropMark => s.(drop := Marked(s.drop.late), dropped := true)
    case DropRelease => s.(drop := Released(s.drop.late), disk := Nothing)
    case DropEntries => s.(drop := NoDrop, entries := false, emptied := true, settled := s.settled || s.drop.late)
    case SaveBegin => s.(save := Writing)
    case SaveWrite(whole) => s.(save := Wrote(whole))
    case SaveClear => s.(save := Cleared(s.save.whole), entries := false)
    case SaveTest => s.(save := if s.save.whole && !s.dropped then Publishing else Saved)
    case SavePublish => s.(save := Saved, disk := Files)
    case ReadBegin => s.(read := Begun(Facts(s.emptied, s.settled, s.published, s.store || s.published)))
    case ReadFlag => s.(read := if s.dropped then Reading(s.read.f, s.published, Nothing) else Undropped(s.read.f))
    case ReadDisk => s.(read := Reading(s.read.f, s.published, s.disk))
    case ReadAnswer => s.(read := Answered(s.read.f, s.read.looked, StoreGone(s), AnswerOf(s)))
  }

  /** What holds of the fields whatever the order. */
  ghost predicate FieldsInv(s: State) {
    && (!PastPublish(s.prepare) ==> !s.published)
    && (s.prepare.Published? ==> s.published)
    && (!s.published ==> s.disk == Nothing && !s.dropped && s.save.NotSaving?)
    && (!s.published && s.entries ==> s.prepare.Stored?)
    && (s.drop.Found? || s.drop.Marked? || s.drop.Released? ==> s.published)
    && (s.prepare.Discarding? ==> !s.published)
    && (s.published && s.store ==> s.prepare.Published?)
    && (s.drop.Marked? || s.drop.Released? ==> s.dropped)
    && (!s.save.NotSaving? ==> s.prepare.Ended?)
    && (s.save.Cleared? || s.save.Publishing? || s.save.Saved? ==> !s.entries)
    && (s.prepare.Running? || s.prepare.Counted? ==> !s.full)
    && (s.prepare.Counted? || s.prepare.Copied? ==> s.prepare.drops <= s.drops)
    // while nobody drops, the copies or the files are there to read
    && (s.published && !s.dropped ==> s.disk != Nothing)
    && (s.dropped && s.disk == Copies ==> s.drop.Marked?)
    && (s.dropped && s.entries ==> s.drop.Marked? || s.drop.Released?)
  }

  /** With no drop, what was captured is held somewhere. */
  ghost predicate UndroppedInv(s: State) {
    s.drops == 0 ==>
      && !s.dropped && s.drop.NoDrop? && !s.emptied && !s.settled && !s.deleting && !s.prepare.Discarding?
      && (s.prepare.Counted? ==> s.store)
      && (Copying(s.prepare) || s.prepare.Published? ==> s.store && s.full)
      && (s.published ==> s.full)
      && (s.prepare.Counted? || s.prepare.Copied? ==> s.prepare.drops == 0)
  }

  /** What a completed drop has left behind. */
  ghost predicate EmptiedInv(s: State) {
    && (s.drop != NoDrop && s.drop.late ==> PastPublish(s.prepare))
    && (s.settled ==> s.emptied && PastPublish(s.prepare) && (s.published ==> s.dropped))
    && (s.overtaken || s.slipped ==> s.full)
    && (s.emptied && s.store ==> s.deleting || s.prepare.Published? || s.prepare.Ended?)
    && (s.emptied && !s.dropped && s.full && ((Copying(s.prepare) && !Moved(s)) || s.published) ==> s.overtaken || s.slipped)
    && (s.emptied && s.dropped && s.drop.NoDrop? ==> !s.entries && s.disk != Copies)
  }

  /** What a read under way may still be answered from. */
  ghost predicate ReadInv(s: State) {
    && (!s.read.NoRead? && !s.read.Answered? && s.read.f.after ==> s.emptied)
    && (!s.read.NoRead? && s.read.f.settled ==> s.settled)
    && (s.read.Undropped? && s.read.f.settled ==> !s.published)
    && (s.read.Undropped? && s.read.f.after && s.published && s.full ==> s.overtaken || s.slipped)
    && (s.read.Reading? && s.read.f.settled ==> s.read.from == Nothing)
    && (s.read.Reading? && s.read.from != Nothing ==> s.published)
    && (s.read.Reading? && s.read.f.after && s.read.from != Nothing && s.full ==> s.overtaken || s.slipped)
    && (s.read.Answered? && s.read.f.settled ==> !Served(s.read.answer))
    && (s.read.Answered? && s.read.f.after && Served(s.read.answer) ==> s.overtaken || s.slipped)
  }

  /** What a read is answered from when nobody drops. */
  ghost predicate QuietInv(s: State) {
    s.drops == 0 ==>
      && (!s.read.NoRead? && s.read.f.ready ==> s.published)
      && (!s.read.NoRead? && s.read.f.held ==> s.store || s.published)
      && (s.read.Reading? && s.read.f.ready ==> s.read.looked)
      && (s.read.Reading? ==> (s.read.from == Nothing <==> !s.read.looked))
      && (s.read.Reading? && s.read.looked ==> s.published)
      && (s.read.Answered? && s.read.f.ready ==> s.read.looked)
      && (s.read.Answered? && s.read.looked ==> s.read.answer.FromCopies? || s.read.answer.FromFiles?)
      && (s.read.Answered? && s.read.f.held ==> (s.read.answer == Miss <==> !s.read.looked && s.read.gone))
  }

  ghost predicate Inv(s: State) {
    FieldsInv(s) && UndroppedInv(s) && EmptiedInv(s) && ReadInv(s) && QuietInv(s)
  }

  predicate ByReader(step: Step) {
    step.ReadBegin? || step.ReadFlag? || step.ReadDisk? || step.ReadAnswer?
  }

  predicate ByDrop(step: Step) {
    step.DropBegin? || step.DropTest? || step.DropMark? || step.DropRelease? || step.DropEntries?
  }

  predicate BySave(step: Step) {
    step.SaveBegin? || step.SaveWrite? || step.SaveClear? || step.SaveTest? || step.SavePublish?
  }

  predicate ByCopying(step: Step) {
    step.Capture? || step.PrepareNothing? || step.PrepareCount? || step.PrepareCopy? || step.PrepareCompare?
  }

  predicate ByPublishing(step: Step) {
    step.PrepareStore? || step.PreparePublish? || step.PrepareEmpty? || step.PrepareEnd? || step.DeleteRun?
  }

  lemma FieldsKeptByReader(s: State, step: Step)
    requires Enabled(s, step) && ByReader(step) && FieldsInv(s)
    ensures FieldsInv(Apply(s, step))
  {
  }

  lemma FieldsKeptByDrop(s: State, step: Step)
    requires Enabled(s, step) && ByDrop(step) && FieldsInv(s)
    ensures FieldsInv(Apply(s, step))
  {
  }

  lemma FieldsKeptBySave(s: State, step: Step)
    requires Enabled(s, step) && BySave(step) && FieldsInv(s)
    ensures FieldsInv(Apply(s, step))
  {
  }

  lemma FieldsKeptByCopying(s: State, step: Step)
    requires Enabled(s, step) && ByCopying(step) && FieldsInv(s)
    ensures FieldsInv(Apply(s, step))
  {
  }

  lemma FieldsKeptByPublishing(s: State, step: Step)
    requires Enabled(s, step) && ByPublishing(step) && FieldsInv(s)
    ensures FieldsInv(Apply(s, step))
  {
  }

  lemma UndroppedKeptByReader(s: State, step: Step)
    requires Enabled(s, step) && ByReader(step) && FieldsInv(s) && UndroppedInv(s)
    ensures UndroppedInv(Apply(s, step))
  {
  }

  lemma UndroppedKeptByDrop(s: State, step: Step)
    requires Enabled(s, step) && ByDrop(step) && FieldsInv(s) && UndroppedInv(s)
    ensures UndroppedInv(Apply(s, step))
  {
  }

  lemma UndroppedKeptBySave(s: State, step: Step)
    requires Enabled(s, step) && BySave(step) && FieldsInv(s) && UndroppedInv(s)
    ensures UndroppedInv(Apply(s, step))
  {
  }

  lemma UndroppedKeptByCopying(s: State, step: Step)
    requires Enabled(s, step) && ByCopying(step) && FieldsInv(s) && UndroppedInv(s)
    ensures UndroppedInv(Apply(s, step))
  {
  }

  lemma UndroppedKeptByPublishing(s: State, step: Step)
    requires Enabled(s, step) && ByPublishing(step) && FieldsInv(s) && UndroppedInv(s)
    ensures UndroppedInv(Apply(s, step))
  {
  }

  lemma EmptiedKeptByReader(s: State, step: Step)
    requires Enabled(s, step) && ByReader(step) && FieldsInv(s) && EmptiedInv(s)
    ensures EmptiedInv(Apply(s, step))
  {
  }

  lemma EmptiedKeptByDrop(s: State, step: Step)
    requires Enabled(s, step) && ByDrop(step) && FieldsInv(s) && EmptiedInv(s)
    ensures EmptiedInv(Apply(s, step))
  {
  }

  lemma EmptiedKeptBySave(s: State, step: Step)
    requires Enabled(s, step) && BySave(step) && FieldsInv(s) && EmptiedInv(s)
    ensures EmptiedInv(Apply(s, step))
  {
  }

  lemma EmptiedKeptByCopying(s: State, step: Step)
    requires Enabled(s, step) && ByCopying(step) && FieldsInv(s) && EmptiedInv(s)
    ensures EmptiedInv(Apply(s, step))
  {
  }

  lemma EmptiedKeptByPublishing(s: State, step: Step)
    requires Enabled(s, step) && ByPublishing(step) && FieldsInv(s) && EmptiedInv(s)
    ensures EmptiedInv(Apply(s, step))
  {
  }

  lemma ReadKeptByReader(s: State, step: Step)
    requires Enabled(s, step) && ByReader(step) && FieldsInv(s) && EmptiedInv(s) && ReadInv(s)
    ensures ReadInv(Apply(s, step))
  {
  }

  lemma ReadKeptByDrop(s: State, step: Step)
    requires Enabled(s, step) && ByDrop(step) && FieldsInv(s) && EmptiedInv(s) && ReadInv(s)
    ensures ReadInv(Apply(s, step))
  {
  }

  lemma ReadKeptBySave(s: State, step: Step)
    requires Enabled(s, step) && BySave(step) && FieldsInv(s) && EmptiedInv(s) && ReadInv(s)
    ensures ReadInv(Apply(s, step))
  {
  }

  lemma ReadKeptByCopying(s: State, step: Step)
    requires Enabled(s, step) && ByCopying(step) && FieldsInv(s) && EmptiedInv(s) && ReadInv(s)
    ensures ReadInv(Apply(s, step))
  {
  }

  lemma ReadKeptByPublishing(s: State, step: Step)
    requires Enabled(s, step) && ByPublishing(step) && FieldsInv(s) && EmptiedInv(s) && ReadInv(s)
    ensures ReadInv(Apply(s, step))
  {
  }

  lemma QuietKeptByReader(s: State, step: Step)
    requires Enabled(s, step) && ByReader(step) && FieldsInv(s) && UndroppedInv(s) && QuietInv(s)
    ensures QuietInv(Apply(s, step))
  {
  }

  lemma QuietKeptByDrop(s: State, step: Step)
    requires Enabled(s, step) && ByDrop(step) && FieldsInv(s) && UndroppedInv(s) && QuietInv(s)
    ensures QuietInv(Apply(s, step))
  {
  }

  lemma QuietKeptBySave(s: State, step: Step)
    requires Enabled(s, step) && BySave(step) && FieldsInv(s) && UndroppedInv(s) && QuietInv(s)
    ensures QuietInv(Apply(s, step))
  {
  }

  lemma QuietKeptByCopying(s: State, step: Step)
    requires Enabled(s, step) && ByCopying(step) && FieldsInv(s) && UndroppedInv(s) && QuietInv(s)
    ensures QuietInv(Apply(s, step))
  {
  }

  lemma QuietKeptByPublishing(s: State, step: Step)
    requires Enabled(s, step) && ByPublishing(step) && FieldsInv(s) && UndroppedInv(s) && QuietInv(s)
    ensures QuietInv(Apply(s, step))
  {
  }

  lemma StepKeeps(s: State, step: Step)
    requires Enabled(s, step) && Inv(s)
    ensures Inv(Apply(s, step))
  {
    hide FieldsInv, UndroppedInv, EmptiedInv, ReadInv, QuietInv, Apply;
    if ByReader(step) {
      FieldsKeptByReader(s, step);
      UndroppedKeptByReader(s, step);
      EmptiedKeptByReader(s, step);
      ReadKeptByReader(s, step);
      QuietKeptByReader(s, step);
    } else if ByDrop(step) {
      FieldsKeptByDrop(s, step);
      UndroppedKeptByDrop(s, step);
      EmptiedKeptByDrop(s, step);
      ReadKeptByDrop(s, step);
      QuietKeptByDrop(s, step);
    } else if BySave(step) {
      FieldsKeptBySave(s, step);
      UndroppedKeptBySave(s, step);
      EmptiedKeptBySave(s, step);
      ReadKeptBySave(s, step);
      QuietKeptBySave(s, step);
    } else if ByCopying(step) {
      FieldsKeptByCopying(s, step);
      UndroppedKeptByCopying(s, step);
      EmptiedKeptByCopying(s, step);
      ReadKeptByCopying(s, step);
      QuietKeptByCopying(s, step);
    } else {
      FieldsKeptByPublishing(s, step);
      UndroppedKeptByPublishing(s, step);
      EmptiedKeptByPublishing(s, step);
      ReadKeptByPublishing(s, step);
      QuietKeptByPublishing(s, step);
    }
  }

  ghost predicate Possible(s: State, steps: seq<Step>)
    decreases |steps|
  {
    steps == [] || (Enabled(s, steps[0]) && Possible(Apply(s, steps[0]), steps[1..]))
  }

  ghost function Exec(s: State, steps: seq<Step>): State
    requires Possible(s, steps)
    decreases |steps|
  {
    if steps == [] then s else Exec(Apply(s, steps[0]), steps[1..])
  }

  ghost predicate Reachable(s: State) {
    exists steps: seq<Step> :: Possible(Init(), steps) && Exec(Init(), steps) == s
  }

  lemma {:induction false} ExecKeeps(s: State, steps: seq<Step>)
    requires Inv(s) && Possible(s, steps)
    ensures Inv(Exec(s, steps))
    decreases |steps|
  {
    hide Inv;
    if steps != [] {
      StepKeeps(s, steps[0]);
      ExecKeeps(Apply(s, steps[0]), steps[1..]);
    }
  }

  lemma ReachableInv(s: State)
    requires Reachable(s)
    ensures Inv(s)
  {
    var steps: seq<Step> :| Possible(Init(), steps) && Exec(Init(), steps) == s;
    assert Inv(Init());
    ExecKeeps(Init(), steps);
  }

  /**
   A read begun after a completed drop, nothing captured since, holds none of
   the run's captures, in every order of reads, drops, `prepare` and `save`,
   unless that drop was lost: its delete_run overtaken by the snapshot, or
   `disk` not there yet when it looked after the snapshot.
   */
  lemma NoReadAfterDrop(s: State)
    requires Reachable(s) && s.read.Answered? && s.read.f.after && !s.overtaken && !s.slipped
    ensures !Served(s.read.answer)
  {
    ReachableInv(s);
  }

  /**
   And none at all after a drop begun once `prepare` has published, whatever
   was lost before it, even if `save` publishes its files after the drop.
   */
  lemma NoReadAfterLateDrop(s: State)
    requires Reachable(s) && s.read.Answered? && s.read.f.settled
    ensures !Served(s.read.answer)
  {
    ReachableInv(s);
  }

  /** Nor is anything still in memory once the last drop is done, unless that one was lost. */
  lemma NothingHeldAfterDrop(s: State)
    requires Reachable(s) && s.emptied && s.prepare.Ended? && s.drop.NoDrop?
    ensures (s.entries || s.disk == Copies) && s.full ==> !s.dropped && (s.overtaken || s.slipped)
  {
    ReachableInv(s);
  }

  /** `prepare` has discarded the copies, or will. */
  predicate Discards(s: State) {
    !s.published && (Moved(s) || s.prepare.Discarding? || s.prepare.Prepared? || s.prepare.Ended?)
  }

  lemma DiscardsOn(s: State, step: Step)
    requires Inv(s) && Discards(s) && Enabled(s, step)
    ensures Discards(Apply(s, step))
    ensures step == ReadAnswer && s.prepare.Ended? ==> Apply(s, step).read.answer == Miss
  {
  }

  /**
   A drop that `prepare` counts on neither side, between its count and its
   compare, is never lost: the copies are not published, and no read is
   answered with captures once the run has ended.
   */
  lemma {:induction false} CaughtDropDiscards(s: State, steps: seq<Step>)
    requires Reachable(s) && Moved(s) && Possible(s, steps)
    ensures var t := Exec(s, steps);
      !t.published && (t.prepare.Ended? && Enabled(t, ReadAnswer) ==> Apply(t, ReadAnswer).read.answer == Miss)
  {
    ReachableInv(s);
    StaysDiscarded(s, steps);
    ExecKeeps(s, steps);
    if Enabled(Exec(s, steps), ReadAnswer) { DiscardsOn(Exec(s, steps), ReadAnswer); }
  }

  lemma {:induction false} StaysDiscarded(s: State, steps: seq<Step>)
    requires Inv(s) && Discards(s) && Possible(s, steps)
    ensures Discards(Exec(s, steps))
    decreases |steps|
  {
    hide Inv, Discards;
    if steps != [] {
      StepKeeps(s, steps[0]);
      DiscardsOn(s, steps[0]);
      StaysDiscarded(Apply(s, steps[0]), steps[1..]);
    }
  }

  /** While nobody drops, a read begun once the copies are published is always answered, from them or the files. */
  lemma ReadIsAnswered(s: State)
    requires Reachable(s) && s.read.Answered? && s.read.f.ready && s.drops == 0
    ensures s.read.answer == FromCopies || s.read.answer == FromFiles
  {
    ReachableInv(s);
  }

  /**
   While nobody drops, a read that begins with captures held misses them
   exactly when it looked for the copies before they were published and asked
   the live store after that had been emptied or its loop had ended.
   */
  lemma MissIff(s: State)
    requires Reachable(s) && s.read.Answered? && s.read.f.held && s.drops == 0
    ensures s.read.answer == Miss <==> !s.read.looked && s.read.gone
  {
    ReachableInv(s);
  }

  lemma {:induction false} ExecAppend(s: State, steps: seq<Step>, last: Step)
    requires Possible(s, steps) && Enabled(Exec(s, steps), last)
    ensures Possible(s, steps + [last]) && Exec(s, steps + [last]) == Apply(Exec(s, steps), last)
    decreases |steps|
  {
    if steps == [] {
      assert (steps + [last])[1..] == [];
    } else {
      ExecAppend(Apply(s, steps[0]), steps[1..], last);
      assert (steps + [last])[1..] == steps[1..] + [last];
    }
  }

  lemma Taken(s: State, step: Step) returns (t: State)
    requires Reachable(s) && Enabled(s, step)
    ensures Reachable(t) && t == Apply(s, step)
  {
    t := Apply(s, step);
    var steps: seq<Step> :| Possible(Init(), steps) && Exec(Init(), steps) == s;
    ExecAppend(Init(), steps, step);
  }

  /** A whole read of the ended run, without interruption. */
  lemma WholeRead(s: State) returns (t: State)
    requires Reachable(s) && (s.read.NoRead? || s.read.Answered?) && s.prepare.Ended?
    ensures Reachable(t) && t == s.(read := t.read) && t.read.Answered? && t.read.f.after == s.emptied
    ensures t.read.answer ==
      if s.dropped || s.disk == Nothing then Miss
      else if !s.full then Blank
      else if s.disk == Copies then FromCopies else FromFiles
  {
    hide Reachable, Enabled, Apply;
    var begun := BeginRead(s);
    t := FinishRead(begun);
  }

  lemma BeginRead(s: State) returns (t: State)
    requires Reachable(s) && (s.read.NoRead? || s.read.Answered?)
    ensures Reachable(t) && t == s.(read := t.read) && t.read.Begun? && t.read.f.after == s.emptied
  {
    hide Reachable;
    t := Taken(s, ReadBegin);
    assert t.read == Begun(Facts(s.emptied, s.settled, s.published, s.store || s.published));
  }

  lemma FinishRead(s: State) returns (t: State)
    requires Reachable(s) && s.read.Begun? && s.prepare.Ended?
    ensures Reachable(t) && t == s.(read := t.read) && t.read.Answered? && t.read.f == s.read.f
    ensures t.read.answer ==
      if s.dropped || s.disk == Nothing then Miss
      else if !s.full then Blank
      else if s.disk == Copies then FromCopies else FromFiles
  {
    hide Reachable;
    t := ChooseReader(s);
    t := Taken(t, ReadAnswer);
  }

  /** Both looks a read takes at the fields, one after the other. */
  lemma ChooseReader(s: State) returns (t: State)
    requires Reachable(s) && s.read.Begun?
    ensures Reachable(t) && t == s.(read := Reading(s.read.f, s.published, if s.dropped then Nothing else s.disk))
  {
    hide Reachable;
    t := Taken(s, ReadFlag);
    if !s.dropped { t := Taken(t, ReadDisk); }
  }

  /**
   After completed drops of an ended run a new read is answered with captures
   exactly when they were published, one of the two losses happened, and no
   drop has found the copies since.
   */
  lemma ServedIffLost(s: State) returns (t: State)
    requires Reachable(s) && (s.read.NoRead? || s.read.Answered?) && s.prepare.Ended? && s.emptied
    ensures Reachable(t) && t == s.(read := t.read) && t.read.Answered? && t.read.f.after
    ensures Served(t.read.answer) <==> s.published && !s.dropped && (s.overtaken || s.slipped)
  {
    ReachableInv(s);
    t := WholeRead(s);
  }

  lemma InitReachable()
    ensures Reachable(Init())
  {
    assert Possible(Init(), []) && Exec(Init(), []) == Init();
  }

  /** From the compare to the end of the loop. */
  lemma UpToEnd(s: State) returns (t: State)
    requires Reachable(s) && s.prepare.Keeping? && s.read.NoRead?
    ensures Reachable(t) && t == s.(prepare := Ended, entries := true, disk := Copies, published := true, store := false)
  {
    t := Taken(s, PrepareStore);
    t := Taken(t, PreparePublish);
    t := Taken(t, PrepareEmpty);
    t := Taken(t, PrepareEnd);
  }

  /** The run ended, its captures copied and the compare made. */
  lemma UpToKeeping() returns (s: State)
    ensures Reachable(s) && s == Init().(prepare := Keeping, store := true, full := true)
  {
    InitReachable();
    s := Taken(Init(), Capture);
    s := Taken(s, PrepareCount);
    s := Taken(s, PrepareCopy);
    s := Taken(s, PrepareCompare);
  }

  /** A drop that finds nothing after the snapshot: the publication follows, and the captures are served. */
  lemma SlippedDropIsServed()
    ensures exists s :: Reachable(s) && s.slipped && !s.overtaken && s.drop.NoDrop?
                     && s.read.Answered? && s.read.f.after && s.read.answer == FromCopies
  {
    var s := UpToKeeping();
    s := Taken(s, DropBegin);
    s := Taken(s, DropTest);
    s := UpToEnd(s);
    s := WholeRead(s);
  }

  /** A drop of the live run, counted before `prepare` counts; the loop runs its delete_run after the snapshot. */
  lemma UpToOvertaken() returns (s: State)
    ensures Reachable(s) && s == Init().(prepare := Keeping, full := true, drops := 1, emptied := true, overtaken := true)
  {
    InitReachable();
    s := Taken(Init(), Capture);
    s := Taken(s, DropBegin);
    s := Taken(s, DropTest);
    s := Taken(s, PrepareCount);
    s := Taken(s, PrepareCopy);
    s := Taken(s, DeleteRun);
    s := Taken(s, PrepareCompare);
  }

  lemma OvertakenDropIsServed()
    ensures exists s :: Reachable(s) && s.overtaken && !s.slipped && s.drop.NoDrop?
                     && s.read.Answered? && s.read.f.after && s.read.answer == FromCopies
  {
    var s := UpToOvertaken();
    s := UpToEnd(s);
    s := WholeRead(s);
  }

  /** And a read that looked for the copies just before they were published finds the store already emptied. */
  lemma ReadInFlightMisses()
    ensures exists s :: Reachable(s) && s.drops == 0 && s.published && s.read.Answered? && s.read.f.held && s.read.answer == Miss
  {
    var s := UpToKeeping();
    s := Taken(s, ReadBegin);
    s := Taken(s, ReadFlag);
    s := Taken(s, ReadDisk);
    s := Taken(s, PrepareStore);
    s := Taken(s, PreparePublish);
    s := Taken(s, PrepareEmpty);
    s := Taken(s, ReadAnswer);
  }

  // ── each operation, from its first step to its last ───────────────────

  /** `prepare` of a run that recorded something, nobody dropping: the copies answer, `save` can write them, the store is empty. */
  lemma Preparing(s: State)
    requires s.prepare.Running? && s.store && !s.deleting
    ensures var counted := Apply(s, PrepareCount);
      var kept := Apply(Apply(counted, PrepareCopy), PrepareCompare);
      var published := Apply(Apply(kept, PrepareStore), PreparePublish);
      Apply(Apply(published, PrepareEmpty), PrepareEnd)
      == s.(prepare := Ended, disk := Copies, entries := true, store := false, full := true, published := true, overtaken := false)
  {
  }

  /** With a drop counted while it copies, it keeps nothing. */
  lemma PreparingDropped(s: State)
    requires s.prepare.Running? && s.store && s.drop.NoDrop? && s.disk.Nothing?
    ensures var copied := Apply(Apply(s, PrepareCount), PrepareCopy);
      var dropped := Apply(Apply(copied, DropBegin), DropTest);
      var end := Apply(Apply(Apply(dropped, PrepareCompare), PrepareEmpty), PrepareEnd);
      !end.store && end.disk == Nothing && end.entries == s.entries && end.published == s.published && end.prepare.Ended?
  {
  }

  /** From the compare to the emptied store the loop does nothing else: it empties no store and answers no lookup. */
  lemma NothingBetween(s: State)
    requires s.prepare in {Keeping, Stored, Published, Discarding} && s.read.Reading? && s.read.from.Nothing?
    ensures !Enabled(s, DeleteRun) && !Enabled(s, ReadAnswer)
  {
  }

  /** A run that recorded nothing keeps nothing, and neither does one whose captures could not be copied. */
  lemma PreparingNothing(s: State)
    requires s.prepare.Running? || s.prepare.Counted? || s.prepare.Copied?
    ensures Enabled(s, PrepareNothing) && Apply(Apply(s, PrepareNothing), PrepareEnd) == s.(prepare := Ended)
  {
  }

  /** A drop is counted first, and counts as late once `prepare` has decided. */
  lemma CountingDrop(s: State)
    requires s.drop.NoDrop?
    ensures Apply(s, DropBegin)
         == s.(drop := Counting(s.prepare in {Published, Discarding, Prepared, Ended}), drops := s.drops + 1)
  {
  }

  /** A drop of what `prepare` published clears the copies or files and stops `save`. */
  lemma Dropping(s: State)
    requires s.drop.NoDrop? && s.disk != Nothing
    ensures var found := Apply(Apply(s, DropBegin), DropTest);
      Apply(Apply(Apply(found, DropMark), DropRelease), DropEntries)
      == s.(drops := s.drops + 1, dropped := true, disk := Nothing, entries := false,
            emptied := true, settled := s.settled || PastPublish(s.prepare))
  {
  }

  /** A drop of the live run has the loop empty the store, in its turn. */
  lemma DroppingLive(s: State)
    requires s.drop.NoDrop? && s.disk == Nothing && s.prepare.Running?
    ensures Apply(Apply(Apply(s, DropBegin), DropTest), DeleteRun)
         == s.(drops := s.drops + 1, emptied := true, store := false, deleting := false)
  {
  }

  /** Once the loop is gone there is nothing to empty, and nobody is asked to. */
  lemma DroppingAfterwards(s: State)
    requires s.drop.NoDrop? && s.disk == Nothing && s.prepare.Ended?
    ensures Apply(Apply(s, DropBegin), DropTest)
         == s.(drops := s.drops + 1, emptied := true, settled := true)
  {
  }

  /** `save` writes what it holds, whole or not, and lets go of it. */
  lemma SavingWrites(s: State, whole: bool)
    requires s.prepare.Ended? && s.save.NotSaving? && s.entries && !s.dropped
    ensures Apply(Apply(Apply(s, SaveBegin), SaveWrite(whole)), SaveClear) == s.(save := Cleared(whole), entries := false)
  {
  }

  /** The files answer from then on if they were written whole and nobody has dropped. */
  lemma SavingPublishes(s: State)
    requires s.save == Cleared(true) && !s.dropped
    ensures Apply(Apply(s, SaveTest), SavePublish) == s.(save := Saved, disk := Files)
  {
  }

  /** Otherwise they never do, and nothing is saved twice. */
  lemma SavingGivesUp(s: State, whole: bool)
    requires s.save == Cleared(whole) && (!whole || s.dropped)
    ensures Apply(s, SaveTest) == s.(save := Saved)
    ensures !Enabled(s.(save := Saved), SavePublish) && !Enabled(s.(save := Saved), SaveBegin)
  {
  }

  /** A read that has chosen its reader, undisturbed. */
  lemma AloneAnswer(s: State)
    requires s.read.Reading? && (s.prepare.Ended? || (!LoopBusy(s) && !s.deleting))
    ensures Apply(s, ReadAnswer).read.Answered?
    ensures Apply(s, ReadAnswer).read.answer ==
      if s.read.from.Nothing? then (if s.store && !s.prepare.Ended? then Live else Miss)
      else if !s.full then Blank
      else if s.read.from == Copies then FromCopies else FromFiles
  {
  }

  /** A read, undisturbed, asks what `prepare` and `save` have put there, or the live store where there is nothing. */
  lemma AloneRead(s: State)
    requires s.read.NoRead? || s.read.Answered?
    ensures var chosen := Apply(Apply(s, ReadBegin), ReadFlag).read;
      if s.dropped then chosen.Reading? && chosen.from == Nothing
      else chosen.Undropped? && Apply(Apply(Apply(s, ReadBegin), ReadFlag), ReadDisk).read == Reading(chosen.f, s.published, s.disk)
  {
  }
}
