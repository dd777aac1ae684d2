/**
 `cdui run` following a run to its end: `_tail_run` and `_drain_run_events` of
 `scripts/dev.py`, against the `/events` route of
 `backend/app/api/routes_runs.py`. The server is a script: what each request,
 in turn, finds.
 */
module TailRun {
  import opened Wrappers

  /** One row of the log; cursors grow down it. */
  datatype Event = Event(cursor: nat, text: string)

  const RUN_DRAIN_MAX_PAGES: nat := 20
  const TERMINAL: set<string> := {"succeeded", "failed", "cancelled", "interrupted"}

  /** What the server is when a request reaches it. */
  datatype Reply = Reply(
    code: int,                  // 0: the connection is down
    hasBody: bool,
    status: Option<string>,     // read after the events, so it may be ahead of them
    log: seq<Event>,            // the log when the events were read
    room: nat,                  // how many of them fit the page
    expired: bool               // the command's deadline has passed by the end of this turn
  )

  // ── the route ─────────────────────────────────────────────────────────

  function After(log: seq<Event>, cursor: nat): seq<Event> {
    if log == [] then [] else if log[0].cursor <= cursor then After(log[1..], cursor) else log
  }

  /** `_bounded_events`: what fits, at least one when there is one. */
  function Page(r: Reply, cursor: nat): seq<Event> {
    var rest := After(r.log, cursor);
    if r.code != 200 || !r.hasBody then [] else if |rest| <= r.room then rest else rest[..r.room]
  }

  /** `page[-1]["cursor"] if page else cursor`; an error body has no cursor. */
  function NextCursor(page: seq<Event>, cursor: nat): nat {
    if page == [] then cursor else page[|page| - 1].cursor
  }

  predicate Growing(log: seq<Event>) {
    && (forall i | 0 <= i < |log| :: log[i].cursor > 0)
    && (forall i, j | 0 <= i < j < |log| :: log[i].cursor < log[j].cursor)
  }

  predicate Ends(r: Reply) {
    r.code != 0 && r.hasBody && r.status.Some? && r.status.value in TERMINAL
  }

  /** The server's side: pages are never empty without need, the log only grows, and not after a terminal status. */
  ghost predicate Honest(script: seq<Reply>) {
    && (forall i | 0 <= i < |script| :: Growing(script[i].log) && script[i].room > 0)
    && (forall i, j | 0 <= i < j < |script| :: script[i].log <= script[j].log)
    && (forall i, j, k | 0 <= i < j < k < |script| && Ends(script[i]) :: script[j].log == script[k].log)
  }

  lemma {:induction false} AfterIsDrop(log: seq<Event>, cursor: nat, n: nat)
    requires n <= |log|
    requires forall i | 0 <= i < n :: log[i].cursor <= cursor
    requires n < |log| ==> log[n].cursor > cursor
    ensures After(log, cursor) == log[n..]
    decreases n
  {
    if n > 0 {
      AfterIsDrop(log[1..], cursor, n - 1);
      assert log[1..][n - 1..] == log[n..];
    }
  }

  /** What has been printed, against a log that has grown since. */
  ghost predicate Seen(printed: seq<Event>, cursor: nat, log: seq<Event>) {
    printed <= log && cursor == if printed == [] then 0 else printed[|printed| - 1].cursor
  }

  /** A page continues exactly where the printing stopped, and is empty only at the end of the log. */
  lemma PageContinues(r: Reply, printed: seq<Event>, cursor: nat)
    requires Growing(r.log) && r.room > 0 && Seen(printed, cursor, r.log)
    ensures var page := Page(r, cursor);
      && Seen(printed + page, NextCursor(page, cursor), r.log)
      && (r.code == 200 && r.hasBody && page == [] ==> printed == r.log)
  {
    var n := |printed|;
    assert forall i | 0 <= i < n :: r.log[i] == printed[i];
    AfterIsDrop(r.log, cursor, n);
    var page := Page(r, cursor);
    assert page <= r.log[n..];
    assert printed + page == r.log[..n + |page|];
  }

  // ── what has been shown ───────────────────────────────────────────────

  /** How much of the log so many replies have shown: each good one as many more events as there are and fit. */
  function Shown(script: seq<Reply>, turns: nat): nat
    requires turns <= |script|
  {
    if turns == 0 then 0
    else
      var r, before := script[turns - 1], Shown(script, turns - 1);
      if r.code != 200 || !r.hasBody || |r.log| <= before then before
      else if |r.log| <= before + r.room then |r.log| else before + r.room
  }

  predicate Grows(script: seq<Reply>, turn: nat)
    requires turn < |script|
  {
    Shown(script, turn + 1) > Shown(script, turn)
  }

  /** A page is as long as what it adds to what has been shown. */
  lemma PageShows(script: seq<Reply>, i: nat, printed: seq<Event>, cursor: nat)
    requires Honest(script) && i < |script| && Seen(printed, cursor, script[i].log) && |printed| == Shown(script, i)
    ensures |printed + Page(script[i], cursor)| == Shown(script, i + 1)
    ensures Page(script[i], cursor) != [] <==> Grows(script, i)
  {
    var r, n := script[i], |printed|;
    assert forall k | 0 <= k < n :: r.log[k] == printed[k];
    AfterIsDrop(r.log, cursor, n);
  }

  /** Replies that all fit show the whole log; a reply that is none shows nothing. */
  lemma ShownAll(script: seq<Reply>, turns: nat)
    requires 0 < turns <= |script|
    ensures var r := script[turns - 1];
      && (r.code != 200 || !r.hasBody ==> Shown(script, turns) == Shown(script, turns - 1))
      && (r.code == 200 && r.hasBody && Shown(script, turns - 1) <= |r.log| <= Shown(script, turns - 1) + r.room ==> Shown(script, turns) == |r.log|)
  {
  }

  // ── the command ───────────────────────────────────────────────────────

  /** How the following ended. */
  datatype Outcome = LostConnection | TimedOut | StillFollowing | Finished(drained: bool)

  /** What was seen of one reply's log is seen of the next one's. */
  lemma SeenLater(script: seq<Reply>, used: nat, printed: seq<Event>, cursor: nat)
    requires Honest(script) && 0 < used <= |script| && Seen(printed, cursor, script[used - 1].log)
    ensures used < |script| ==> Seen(printed, cursor, script[used].log)
  {
  }

  /** One page printed. */
  lemma Turn(script: seq<Reply>, i: nat, printed: seq<Event>, cursor: nat)
    requires Honest(script) && i < |script| && Seen(printed, cursor, script[i].log)
    ensures var page := Page(script[i], cursor);
      && printed <= printed + page <= script[i].log
      && (script[i].code == 200 && script[i].hasBody && page == [] ==> printed == script[i].log)
      && (i + 1 < |script| ==> Seen(printed + page, NextCursor(page, cursor), script[i + 1].log))
  {
    PageContinues(script[i], printed, cursor);
    SeenLater(script, i + 1, printed + Page(script[i], cursor), NextCursor(Page(script[i], cursor), cursor));
  }

  /** How far a drain goes: up to the first reply that shows nothing more, twenty pages or the script's end. */
  ghost predicate DrainsTo(script: seq<Reply>, from: nat, used: nat, drained: bool) {
    && from <= used <= |script| && used <= from + 20
    && (forall k | from <= k < used - 1 :: Grows(script, k))
    && (used == from + 20 || used == |script| || (used > from && !Grows(script, used - 1)))
    && (drained <==> used > from && !Grows(script, used - 1) && script[used - 1].code == 200 && script[used - 1].hasBody)
  }

  /** `_drain_run_events`, from request `from` on. `drained` when it ended on an empty page. */
  method Drain(script: seq<Reply>, from: nat, printed0: seq<Event>, cursor0: nat)
    returns (printed: seq<Event>, used: nat, drained: bool)
    requires Honest(script) && from <= |script|
    requires from < |script| ==> Seen(printed0, cursor0, script[from].log)
    requires |printed0| == Shown(script, from)
    ensures from <= used <= |script| && DrainsTo(script, from, used, drained)
    ensures printed0 <= printed && |printed| == Shown(script, used)
    ensures used > from ==> printed <= script[used - 1].log
    ensures drained ==> used > from && printed == script[used - 1].log
  {
    hide Honest, Page, NextCursor, Seen, Shown, Grows;
    printed, used, drained := printed0, from, false;
    var cursor := cursor0;
    for turn := 0 to RUN_DRAIN_MAX_PAGES
      invariant from <= used <= |script| && used == from + turn && !drained
      invariant printed0 <= printed && |printed| == Shown(script, used)
      invariant used < |script| ==> Seen(printed, cursor, script[used].log)
      invariant used > from ==> printed <= script[used - 1].log
      invariant used == from ==> printed == printed0
      invariant forall k | from <= k < used :: Grows(script, k)
    {
      if used == |script| { return; }
      var r := script[used];
      Turn(script, used, printed, cursor);
      PageShows(script, used, printed, cursor);
      var events := Page(r, cursor);
      used := used + 1;
      if r.code != 200 || events == [] {
        PageOfAnswer(r, cursor);
        assert printed + events == printed;
        drained := r.code == 200 && r.hasBody;
        return;
      }
      printed := printed + events;
      cursor := NextCursor(events, cursor);
    }
  }

  lemma PageOfAnswer(r: Reply, cursor: nat)
    ensures r.code != 200 || !r.hasBody ==> Page(r, cursor) == []
  {
  }

  // ── when the following ends ───────────────────────────────────────────

  predicate Lost(r: Reply) {
    r.code == 0 || !r.hasBody
  }

  /** `status` after so many replies: the last one any of them had. */
  function StatusBy(script: seq<Reply>, turns: nat): string
    requires turns <= |script|
  {
    if turns == 0 then "queued"
    else if script[turns - 1].status.Some? then script[turns - 1].status.value
    else StatusBy(script, turns - 1)
  }

  /** The turn that is the last one. */
  predicate Stops(script: seq<Reply>, turn: nat)
    requires turn < |script|
  {
    Lost(script[turn]) || StatusBy(script, turn + 1) in TERMINAL || script[turn].expired
  }

  /** What the turn ends the following with. */
  predicate EndsWith(script: seq<Reply>, turn: nat, outcome: Outcome, status: string) {
    && turn < |script| && Stops(script, turn) && (forall k | 0 <= k < turn :: !Stops(script, k))
    && (outcome.LostConnection? <==> Lost(script[turn]))
    && (outcome.Finished? <==> !Lost(script[turn]) && StatusBy(script, turn + 1) in TERMINAL)
    && !outcome.StillFollowing?
    && status == StatusBy(script, if Lost(script[turn]) then turn else turn + 1)
  }

  /** A server that keeps answering with an error and a body, the run's removal say, is asked for ever if there is no deadline. */
  lemma {:induction false} AskedForever(script: seq<Reply>, turn: nat)
    requires forall i | 0 <= i < |script| :: script[i].code != 0 && script[i].hasBody && script[i].status.None? && !script[i].expired
    requires turn < |script|
    ensures !Stops(script, turn)
  {
    NoStatus(script, turn + 1);
    AtStart(script);
  }

  lemma {:induction false} NoStatus(script: seq<Reply>, turns: nat)
    requires turns <= |script| && forall i | 0 <= i < |script| :: script[i].status.None?
    ensures StatusBy(script, turns) == "queued"
  {
    if turns > 0 { NoStatus(script, turns - 1); }
  }

  lemma AtStart(script: seq<Reply>)
    ensures |script| > 0 ==> Seen([], 0, script[0].log)
    ensures Shown(script, 0) == 0
    ensures "queued" !in TERMINAL
  {
    assert "queued"[0] != "succeeded"[0] && "queued"[0] != "failed"[0] && "queued"[0] != "cancelled"[0] && "queued"[0] != "interrupted"[0];
  }

  lemma LogIsFinal(script: seq<Reply>, last: nat, at: nat)
    requires Honest(script) && last < at < |script| && Ends(script[last])
    ensures forall k | at <= k < |script| :: script[k].log == script[at].log
  {
  }

  lemma StoppedAt(script: seq<Reply>, turn: nat, outcome: Outcome, status: string)
    requires turn < |script| && Stops(script, turn) && (forall k | 0 <= k < turn :: !Stops(script, k))
    requires status == StatusBy(script, if Lost(script[turn]) then turn else turn + 1)
    requires outcome == (if Lost(script[turn]) then LostConnection
                         else if StatusBy(script, turn + 1) in TERMINAL then Finished(outcome.Finished? && outcome.drained)
                         else TimedOut)
    ensures EndsWith(script, turn, outcome, status)
  {
  }

  /**
   `_tail_run`: whatever the server answers, what has been printed is a prefix
   of the log, each event once and in order; and a drain that ends on an empty
   page has printed all of it, for good. It ends at the first turn that loses
   the connection, has a terminal status or passes the deadline, and at no other.
   */
  method Follow(script: seq<Reply>) returns (status: string, printed: seq<Event>, used: nat, outcome: Outcome)
    requires Honest(script)
    ensures used <= |script|
    ensures |printed| == Shown(script, used) && (used > 0 ==> printed <= script[used - 1].log)
    ensures outcome.Finished? <==> status == "succeeded" || status == "failed" || status == "cancelled" || status == "interrupted"
    ensures outcome.StillFollowing? ==> used == |script|
    ensures outcome.StillFollowing? <==> forall k | 0 <= k < |script| :: !Stops(script, k)
    ensures !outcome.StillFollowing? ==> exists k: nat ::
      && EndsWith(script, k, outcome, status)
      && if outcome.Finished? then DrainsTo(script, k + 1, used, outcome.drained) else used == k + 1
    ensures outcome == Finished(true) ==>
      used > 0 && printed == script[used - 1].log && forall k | used <= k < |script| :: script[k].log == printed
  {
    hide Honest, Page, NextCursor, Seen, Shown, EndsWith, DrainsTo;
    var cursor: nat := 0;
    status, printed, used := "queued", [], 0;
    AtStart(script);
    while used < |script|
      invariant used <= |script|
      invariant used < |script| ==> Seen(printed, cursor, script[used].log)
      invariant used > 0 ==> printed <= script[used - 1].log
      invariant used == 0 ==> printed == []
      invariant |printed| == Shown(script, used)
      invariant status !in TERMINAL && status == StatusBy(script, used)
      invariant forall k | 0 <= k < used :: !Stops(script, k)
      decreases |script| - used
    {
      var r := script[used];
      Turn(script, used, printed, cursor);
      PageShows(script, used, printed, cursor);
      PageOfAnswer(r, cursor);
      if r.code == 0 || !r.hasBody {
        StoppedAt(script, used, LostConnection, status);
        assert printed + Page(r, cursor) == printed;
        used := used + 1;
        return status, printed, used, LostConnection;
      }
      if r.status.Some? { status := r.status.value; }
      var events := Page(r, cursor);
      printed := printed + events;
      cursor := NextCursor(events, cursor);
      used := used + 1;
      if status in TERMINAL {
        var last := used - 1;
        var drained: bool;
        printed, used, drained := Drain(script, used, printed, cursor);
        if drained { LogIsFinal(script, last, used - 1); }
        StoppedAt(script, last, Finished(drained), status);
        return status, printed, used, Finished(drained);
      }
      if r.expired {
        StoppedAt(script, used - 1, TimedOut, status);
        return status, printed, used, TimedOut;
      }
    }
    outcome := StillFollowing;
  }
}
