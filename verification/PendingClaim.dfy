/**
 One rule written twice: whether a restart is still happening on a claim, by
 the launcher (`_pending_state` of `scripts/dev.py`) and by the server
 (`_is_stale` of `backend/app/core/packs/restart.py`).
 */
module PendingClaim {
  import opened Wrappers
  import H = RestartHandshake

  type Pid = H.Pid

  /** Seconds on the wall clock, which may be set back. */
  type Moment = real

  const HELPER_START_GRACE_S: real := 60.0
  const STALE_PENDING_S: real := 900.0

  /** A claim that could be parsed. */
  datatype Claim = Claim(
    writer: Pid,
    helper: Option<Pid>,
    installer: Option<Pid>,
    created: Option<Moment>,   // what `created_at` says, None when it is no time
    touched: Option<Moment>    // the file's mtime, None when it has none
  )

  predicate NamesAny(c: Claim) {
    c.helper.Some? || c.installer.Some?
  }

  predicate NamesAlive(c: Claim, alive: set<Pid>) {
    (c.helper.Some? && c.helper.value in alive) || (c.installer.Some? && c.installer.value in alive)
  }

  /** `_iso_age_seconds`: a stamp from the future has no age. */
  function StampAge(c: Claim, now: Moment): Option<real> {
    if c.created.Some? && c.created.value <= now then Some(now - c.created.value) else None
  }

  /** `_pending_age_seconds`: the stamp, then the file, which is never younger than new. */
  function Age(c: Claim, now: Moment): Option<real> {
    if StampAge(c, now).Some? then StampAge(c, now)
    else if c.touched.None? then None
    else Some(if c.touched.value <= now then now - c.touched.value else 0.0)
  }

  /** `_pending_state(...) == "finishing"` */
  predicate Finishing(c: Claim, now: Moment, alive: set<Pid>) {
    if NamesAny(c) then NamesAlive(c, alive)
    else if Age(c, now).None? || Age(c, now).value > STALE_PENDING_S then false
    else Age(c, now).value <= HELPER_START_GRACE_S
  }

  /** `_is_stale` */
  predicate Stale(c: Claim, now: Moment, alive: set<Pid>) {
    var age := StampAge(c, now);
    if NamesAny(c) then !NamesAlive(c, alive)
    else if c.writer in alive then age.Some? && age.value > STALE_PENDING_S
    else age.None? || age.value > HELPER_START_GRACE_S
  }

  // ── where the two part ────────────────────────────────────────────────

  /** The moment is no older than a minute, the start grace, or still to come. */
  predicate Recent(moment: Option<Moment>, now: Moment) {
    moment.Some? && now <= moment.value + 60.0
  }

  predicate Stamped(c: Claim, now: Moment) {
    c.created.Some? && c.created.value <= now
  }

  /** The server overwrites the claim while the launcher still waits for its helper. */
  lemma StaleYetFinishing(c: Claim, now: Moment, alive: set<Pid>)
    ensures Stale(c, now, alive) && Finishing(c, now, alive) <==>
      !NamesAny(c) && !Stamped(c, now) && c.writer !in alive && Recent(c.touched, now)
  {
    assert HELPER_START_GRACE_S < STALE_PENDING_S;
  }

  /** The server refuses a new restart over a claim the launcher would clear. */
  lemma HeldYetAbandoned(c: Claim, now: Moment, alive: set<Pid>)
    ensures !Stale(c, now, alive) && !Finishing(c, now, alive) <==>
      && !NamesAny(c) && c.writer in alive
      && if Stamped(c, now) then !Recent(c.created, now) && now <= c.created.value + 900.0
         else !Recent(c.touched, now)
  {
    assert HELPER_START_GRACE_S < STALE_PENDING_S;
  }

  /** A claim that names a helper or an installer is read alike by both, at any age. */
  lemma StampedAgree(c: Claim, now: Moment, alive: set<Pid>)
    requires NamesAny(c)
    ensures Finishing(c, now, alive) <==> !Stale(c, now, alive)
  {
  }

  // ── the handshake's clock ─────────────────────────────────────────────

  /** The claim as the handshake has it: one bit for all of the clocks. */
  function Seen(c: Claim, now: Moment): H.Claim {
    H.Claim(0, c.helper, c.installer, !(Age(c, now).Some? && Age(c, now).value <= HELPER_START_GRACE_S))
  }

  /**
   The handshake takes the launcher's answer at any moment for its own, and
   time does nothing to a claim but what the handshake's `Age` does, unless its
   stamp was in the future, and the clock has come to it since: then a claim that
   was abandoned is finishing again, for as long as the start grace lasts.
   */
  lemma TimeExpires(c: Claim, now: Moment, later: Moment, alive: set<Pid>)
    requires now <= later
    ensures H.InFlight(Seen(c, later), alive) <==> Finishing(c, later, alive)
    ensures Seen(c, later) == Seen(c, now) || Seen(c, later) == Seen(c, now).(expired := true)
         <==> !(c.created.Some? && now < c.created.value <= later
                && later <= c.created.value + 60.0 && !Recent(c.touched, now))
  {
  }
}
