# CodefyUI: protocols and transformations, modelled and proved

This project models the parts of CodefyUI whose correctness is not visible in
any one function, and proves what the code, its comments and its documentation
promise of them. Everything is Dafny; `dafny verify dfyconfig.toml` checks it.

- **Run frames** (`SpoolSpec`, `SpoolFile`, `ReplayProtocol`, `ReplaySteps`,
  `ReplayWitnesses`, `OneShot`). An agent numbers the frames of each run,
  spools them, sends them over connections that come and go, replays what is
  not acknowledged, and a one-shot agent exits by what was acknowledged. The
  byte file is a class proved against `SpoolSpec`; the rest is a state machine
  with one step between any two points where the event loop may switch tasks.
- **Locks on one user data directory** (`FileLocks`, `InstanceRetirement`,
  `EnrollOnce`, `CredentialStore`). A `flock` whose file is deleted while it is
  held, with crashes and reused inode numbers; renaming the directories of dead
  instances under it; enrolling once under it; the files it guards.
- **Restart installs** (`RestartHandshake`, `RestartHelper`, `PendingClaim`).
  The claim file that server, detached helper, `uv` and every `cdui
  start|dev|update` share, with any of them killed at any step; and one
  helper's job with an exception at any one point.
- **Signals and threads** (`SigintGuard`, `LiveOutputs`). Ctrl-C around a
  plugin install, nested handler runs included; recorded outputs on their way
  from the live store to copies to files while reads and drops race.
- **Transformations** (`TomlText`, `TomlReader`, `TomlValues`, `QuotedText`,
  `ProjectManifest`, `ManifestTypes`, `ManifestReading`, `ManifestNormal`,
  `ManifestRoundTrip`, `FreezeRoundTrip`, `FreezeMeaning`, `StrayLines`,
  `FreezeExact`; `ChangelogText`, `ChangelogLines`, `Changelog`,
  `ChangelogReports`, `ChangelogTheorems`, `ChangelogPromotion`,
  `ReleaseOrder`; `RelaunchArgv`; `TailRun`; `EagerIds`, `PackageChunks`;
  `AsciiText` and `Sequences` are shared). Printing a manifest against a TOML
  v1.0.0 reader, promoting a changelog under its checker, replaying a command
  line, following a paged log, and static reachability in the bundler's
  configuration.

A state machine here is a datatype, a predicate for when each step is possible
and a function for what it does. `Reachable` means: where some sequence of
possible steps leads from the start; every theorem about a reachable state is
about every interleaving. The witnesses are sequences of those same steps.

## Where the code does not keep a promise

Each of these is proved: an input or an interleaving that shows it, and, where
an if-and-only-if is named, the exact condition under which the promise holds.

- `Spool.ack` moves `acked` and not `sent`, so an ack that lands on a new
  connection before the replay has read that spool (the control plane repeats
  its last ack after a reconnect, `backend/app/core/executors.py:1119`) leaves
  `sent` behind. The replay then ends and no later frame of that run goes out
  on this connection. `StrandedIff` gives the condition, `NoStall` the theorem
  under it, `AckOvertakesReplay` the run, `StrandedUntilReconnect` how long it
  lasts.
- A replay that is on a spool whose `run_finished` has just been acknowledged
  reads a closed file and dies, and the runs behind it wait for the next
  connection (`CompletedSpoolKillsReplay`; `DiesOnlyOnCompletedSpool` shows
  this is the only way on an open socket).
- An `OSError` while the restart helper echoes the installer's output is
  answered like a failed spawn: the claim goes, the installer stays.
  `RestartHelper.Job.Steps` says exactly when an installer is left running
  (`Abandons`), `AbandonedInstallerIsNotSeen` what a later start then does, and
  `NamedIff` that a stamped running installer is named in the claim exactly
  unless a helper dropped the claim over it.
  Between `Popen` and the stamp a killed helper and an interrupted one leave an
  installer as well (`UnstampedOrphanIsNotSeen`, `InterruptedOrphanIsNotSeen`).
- The launcher and the server are meant to read a claim alike
  (`scripts/dev.py:2713-2714`). They do for every claim that names a process. Of
  one not stamped yet, the server overwrites what the launcher still waits for
  exactly where only the file dates it and its writer is dead
  (`StaleYetFinishing`), and holds what the launcher would clear exactly where
  its writer is alive and the claim one to fifteen minutes old, or only the
  file dates it, as an old one (`HeldYetAbandoned`). After the clock was set
  back, an abandoned claim can be finishing again for a minute (`TimeExpires`).
- After `finish_uninterrupted` a second Ctrl-C between a handler's test of
  `pressed` and its claim prints the notice twice (`NoticeTwice`): more than one
  handler run announces exactly when a press hit that gap (`AnnouncedAgainIff`).
- Two kinds of `drop` are lost in `LiveOutputs.prepare`: one counted before
  `prepare` counts, whose `delete_run` the loop runs after the snapshot
  (`OvertakenDropIsServed`), and one that looks at `disk` between the compare
  and the publication (`SlippedDropIsServed`). One counted in between always
  tells (`CaughtDropDiscards`). A later read is answered with the
  captures exactly when one of the two happened and no drop has found the
  copies since (`ServedIffLost`); a drop begun after the publication is never
  lost (`NoReadAfterLateDrop`).
- `prepare`'s comment that no read in between finds nothing is not true of a
  read that had looked for the copies before they were published
  (`ReadInFlightMisses`); with no drop, a read misses captures that are held
  exactly when it also asked the live store after that was emptied (`MissIff`).
- `cdui project freeze` prints a character beyond the BMP as a surrogate pair,
  which is no TOML escape, and some fields with no escapes at all: the manifest
  reads back exactly when there is no such character in a string or key it
  quotes, and nothing to escape in a field it does not (`ReadsBackIff`). Freezing twice
  gives the same text exactly unless `[publish]` held only empty targets
  (`FreezeTwice`). The comment on `_toml_value` says JSON leaves DEL raw; with
  its default escapes it does not, and replacing it changes nothing
  (`DelIsEscaped`).
- Relaunching drops `-f` and `--foreground` wherever they stand, and the
  project's directory is replaced even where it is read as a flag too. Every
  flag keeps its value through the first exactly when no foreground flag stands
  where a value is taken from (`BackgroundKeepsIff`), and through the second
  exactly when the replaced argument is read as nothing else
  (`AbsolutisedKeepsIff`); under these two the relaunched start reads the same
  address and project (`RelaunchSame`). `BrokenPairIsLost` and
  `ReplacedFlagIsLost` are command lines outside them.
- `cdui run` takes an HTTP error that has a JSON body, as after the run was
  removed, for an answer: it asks again at once, and for ever when there is no
  timeout (`AskedForever`); `Follow` says exactly when it stops.
- Two control planes on one host and port share a credential file: saving one
  leaves the other without (`LoadAfterSave`, `PathsShareAFile`).

## Model

| member | source | states |
|---|---|---|
| SpoolFile.Spool.Append | backend/app/agent/spool.py:88-99 | the file grows by the line and a newline, the spool's meaning by exactly that frame, whatever its number; the file's layout stays sound, and the numbers in order if it is the highest |
| SpoolFile.Spool.Ack | backend/app/agent/spool.py:101-109 | cumulative: with the numbers in order exactly the frames above the ack stay and `sent` does not move; True means the run's end is covered |
| SpoolFile.Spool.MaybeCompact | backend/app/agent/spool.py:114-133 | rewriting the file and rebasing every offset changes nothing that can be read; it is done exactly where the acknowledged part is 4 MiB or half of the file, so after it that part is less than either |
| SpoolFile.Spool.ReadAfter | backend/app/agent/spool.py:135-156 | the next frames above a number, at most `limit`, whole and in order; on a closed handle, and only there, it raises |
| SpoolFile.Spool.Close | backend/app/agent/spool.py:158-165 | no later read succeeds, and the file is gone exactly if asked |
| SpoolFile.ReadBatch | backend/app/agent/spool.py:145-156 | one read of the file cut at the offsets is the corresponding stretch of pending frames |
| SpoolFile.CompactKeepsPending | backend/app/agent/spool.py:114-133 | the rebased index over the cut file holds the same frames |
| SpoolFile.AckDropsPrefix | backend/app/agent/spool.py:101-109 | bisecting the ascending seqs to the ack is dropping exactly the frames it covers |
| SpoolSpec.AfterNumbered | backend/app/agent/spool.py:101-109 | a contiguous spool stays contiguous under any ack |
| ReplayProtocol.NothingLost | backend/app/agent/connection.py:322-420 | the recorded log of every run is a gap-free, duplicate-free prefix of what was produced, and every frame is recorded or still spooled under its number |
| ReplayProtocol.WireOrder | backend/app/agent/connection.py:382-420 | on one connection seqs strictly increase, a skipped seq is acknowledged, and `run_alive` precedes every frame of a run it announces |
| ReplayProtocol.AnnouncedExactly | backend/app/agent/connection.py:369-380 | an announcement names exactly the runs whose `run_finished` is not produced or that have a frame above the last ack, if any |
| ReplayProtocol.ControlPlaneSeesNoGap | backend/app/core/workers.py:1767-1786 | the control plane's "frames never arrived" branch is never taken |
| ReplayProtocol.StrandedIff | backend/app/agent/connection.py:396-420 | after a replay on a live socket a run is fully sent exactly when no ack was ahead of `sent` at the last read of it |
| ReplayProtocol.NoStall | backend/app/agent/connection.py:396-420 | if `sent` is never behind `acked` at a read, a finished replay strands no run |
| ReplayProtocol.NextFrameGoesOut | backend/app/agent/connection.py:336-351 | the next frame of a run that is not stranded goes out directly, as the next on the wire |
| ReplayProtocol.StrandedUntilReconnect | backend/app/agent/connection.py:346-351 | a stranded run sends nothing more on this connection, whatever it produces |
| ReplayProtocol.DiesOnlyOnCompletedSpool | backend/app/agent/spool.py:190-203 | a replay that died on an open socket died on a run whose end was acknowledged |
| ReplayProtocol.StepKeeps | backend/app/agent/connection.py:322-420 | the joint invariant of spools, wires, replay and control plane survives every step |
| ReplaySteps.AtStart | backend/app/agent/connection.py:322-380 | before the first connection frames are spooled, and there is nothing to close or replay |
| ReplaySteps.Connecting | backend/app/agent/connection.py:382-394 | a new connection owes every run the frames above its last ack, whatever an earlier one sent |
| ReplaySteps.Replaying | backend/app/agent/connection.py:396-404 | the replay goes over the runs whose spool the store holds, in any order |
| ReplaySteps.Reading | backend/app/agent/connection.py:404-409 | it reads up to 256 frames from where the spool was sent to, and goes on at an empty batch |
| ReplaySteps.Sends | backend/app/agent/connection.py:410-417 | a frame of the batch that was not sent yet goes out and moves `sent` |
| ReplaySteps.SendRaises | backend/app/agent/connection.py:410-417 | a send that raises ends the replay and leaves `sent` where it was |
| ReplaySteps.Skips | backend/app/agent/connection.py:413-415 | a frame sent meanwhile is passed over, and after the batch the spool is asked again |
| ReplaySteps.Closing | backend/app/agent/connection.py:353-367 | a socket may close at any moment, and every later send on it raises until it is taken down |
| ReplaySteps.Acking | backend/app/agent/spool.py:190-203 | an ack drops what it covers; the one that covers the end lets go of the spool, once |
| ReplaySteps.Producing | backend/app/agent/connection.py:338-345 | the next frame of a run is spooled under the lock, and nothing else is sent meanwhile |
| ReplaySteps.GoesOut | backend/app/agent/connection.py:346-351 | a frame that is the next one owed goes out at once and moves `sent`; one that raises does not |
| ReplaySteps.LeftToReplay | backend/app/agent/connection.py:346-351 | any other frame is left to the replay |
| ReplaySteps.Receiving | backend/app/core/workers.py:1767-1786 | the control plane takes a frame it has not got, drops one it has, and reads on |
| ReplayWitnesses.AckOvertakesReplay | backend/app/core/executors.py:1592-1600 | a reachable state in which a repeated ack has stranded a run |
| ReplayWitnesses.CompletedSpoolKillsReplay | backend/app/agent/spool.py:190-203 | a reachable state in which the replay is dead and another run waits |
| OneShot.OneShot.Refuse | backend/app/agent/one_shot.py:72-78 | a run is accepted exactly when it is the one taken, if any, and the one asked for, if any; the refusal names the one that is |
| OneShot.OneShot.Take | backend/app/agent/one_shot.py:80-83 | the first run taken stays |
| OneShot.OneShot.Sent | backend/app/agent/one_shot.py:85-90 | the first `run_finished` of the taken run, and no other frame, gives the status |
| OneShot.OneShot.Acked | backend/app/agent/one_shot.py:92-95 | delivered only once the taken run has finished |
| OneShot.OneShot.Exit | backend/app/agent/one_shot.py:113-132 | 0 exactly for a taken run that succeeded and was delivered, refused loop or not; 1 for any other taken run, 3 for none, and every other code as it is |
| OneShot.OneRun | backend/app/agent/one_shot.py:72-83 | over its whole life the agent accepts at most one run, and only the one `--run-id` names |
| OneShot.ZeroMeansRecorded | backend/app/agent/connection.py:696-716 | exit code 0 means the control plane has recorded the whole run, ending in `succeeded`, across reconnects, refusals and lost acks |
| OneShot.RecordedMeansZero | backend/app/agent/connection.py:711-716 | the ack that completes the taken run's spool decides the exit code by what was recorded |
| OneShot.ShotIsMonotone | backend/app/agent/one_shot.py:72-95 | run, status and delivery never change once settled |
| OneShot.Assigning | backend/app/agent/one_shot.py:72-83 | the first run it may take is taken, and every other refused after it |
| OneShot.Handing | backend/app/agent/connection.py:322-351 | the end of the run taken is noted, another's is not |
| OneShot.Delivering | backend/app/agent/connection.py:711-716 | an ack that completes a spool is a delivery exactly for the run taken, once its end is noted |
| OneShot.Producing | backend/app/agent/connection.py:322-351 | the protocol numbers the frames handed over, in that order, and no others |
| FileLocks.MutualExclusion | backend/app/agent/cli.py:318-361 | two lock objects are never both between a held `acquire` and its `release`, though the file is unlinked while held, processes crash and inode numbers come back |
| FileLocks.UnlinksOwnFile | backend/app/agent/cli.py:354-361 | `release` removes only the file its own lock is on |
| FileLocks.DeadLockGranted | backend/app/agent/cli.py:343-352 | a waiter can be granted the lock of an unlinked file beside another's held one; the re-check sends it back |
| FileLocks.FileLock.Acquire | backend/app/agent/cli.py:318-352 | the loop ends at its first turn that is not lost; the file is kept exactly when that turn's inode was the path's |
| FileLocks.FileLock.Release | backend/app/agent/cli.py:354-361 | the path goes before the file, and nothing happens when nothing is held |
| FileLocks.TurnsRun | backend/app/agent/cli.py:330-352 | the steps of any number of turns, other objects' steps anywhere between them, leave the state machine in the phase the object takes itself to be in |
| FileLocks.Acquiring | backend/app/agent/cli.py:330-352 | on a free path the file is made, locked and found there still |
| FileLocks.Waiting | backend/app/agent/cli.py:330-342 | an object refused the lock of a file has changed nothing |
| FileLocks.Losing | backend/app/agent/cli.py:343-352 | a lost turn drops the lock it was granted and no other |
| FileLocks.Releasing | backend/app/agent/cli.py:354-361 | a release frees the lock; without unlink the file stays where it is |
| FileLocks.Dying | backend/app/agent/cli.py:318-361 | a process that dies keeps no lock and removes no file |
| FileLocks.WithoutLocks | backend/app/agent/cli.py:330-342 | where there are no locks the object goes on without one |
| InstanceRetirement.WorkingDirectoryStays | backend/app/agent/cli.py:416-488 | no agent inside its lock lifetime has its directory renamed away, and no other agent of that id is at work |
| InstanceRetirement.NothingRetiredWithoutLocks | backend/app/agent/cli.py:467-471 | without file locks nothing is ever renamed |
| InstanceRetirement.Retiring | backend/app/agent/cli.py:472-481 | the directory goes to the trash, and the next agent of the id takes a fresh one |
| InstanceRetirement.Working | backend/app/agent/cli.py:1020-1103 | an agent takes the directory that is there or a fresh one, and leaves none when it is done |
| InstanceRetirement.Locking | backend/app/agent/cli.py:318-352 | up to its work an agent changes nothing but the lock, and it does not touch the lock while it works |
| InstanceRetirement.Crashing | backend/app/agent/cli.py:416-435 | a crash leaves the directory and drops the lock |
| EnrollOnce.EnrollsOnce | backend/app/agent/cli.py:1368-1414 | at most one enrollment more than were lost to crashes between answer and file, and whoever leaves the region uses the stored credential |
| EnrollOnce.EnrollsOnceWithoutCrash | backend/app/agent/cli.py:1368-1414 | with no crash at most one enrollment succeeds, and every agent that leaves with a credential leaves with that one |
| EnrollOnce.StoredStays | backend/app/agent/cli.py:1226-1256 | once a credential is stored it stays, and no agent enrolls any more |
| EnrollOnce.StoredIsUsed | backend/app/agent/cli.py:1371-1389 | an agent that looks after that uses it or stops, whatever token it was given |
| EnrollOnce.OneInside | backend/app/agent/cli.py:528-538 | at most one agent is between looking and storing |
| EnrollOnce.Locking | backend/app/agent/cli.py:1368-1414 | an agent takes the lock before it looks, and keeps it until it has stored or given up |
| EnrollOnce.Enrolling | backend/app/agent/cli.py:1368-1414 | with nothing stored and the lock held, an enrollment token brings a credential and stores it |
| EnrollOnce.NotEnrolling | backend/app/agent/cli.py:1389-1412 | a refused enrollment stores nothing, and a token that needs none is used as it is |
| EnrollOnce.UsingStored | backend/app/agent/cli.py:1371-1388 | a stored credential is used, except by an agent that asks for another name, which stops |
| CredentialStore.Store.Load | backend/app/agent/enroll.py:96-114 | a credential is found exactly for URLs of the control plane it was stored for |
| CredentialStore.Store.Save | backend/app/agent/enroll.py:131-153 | the file of that control plane, and no other, holds the normalised URL and the token |
| CredentialStore.Store.RecordFingerprint | backend/app/agent/enroll.py:156-165 | a pin is written in normal form, only where a credential is and only when it differs from the stored one, itself normalised; a malformed pin is an error and changes nothing |
| CredentialStore.NormalPinTwice | backend/app/core/tls_fingerprint.py:96-109 | the normal form of a pin is its own normal form |
| CredentialStore.Store.Forget | backend/app/agent/enroll.py:168-185 | deletes this control plane's file, an unreadable one or one whose URL is none any more, never another's |
| CredentialStore.NormalTwice | backend/app/agent/enroll.py:71-82 | the normal form of a URL is its own normal form and names the same file |
| CredentialStore.DefaultPorts | backend/app/agent/enroll.py:71-82 | a URL without a port, or with port 0, is at 80 or 443 by its scheme |
| CredentialStore.SamePlaneIff | backend/app/agent/enroll.py:71-82 | two URLs are one control plane exactly when they differ in the case of scheme and host and in closing slashes only |
| CredentialStore.Safe | backend/app/agent/enroll.py:89-93 | a file name has only plain characters, one replacement a run, and a plain host unchanged |
| CredentialStore.LoadAfterSave | backend/app/agent/enroll.py:96-153 | what every URL finds after a save: that credential, none, or what it found before |
| CredentialStore.LoadAfterForget | backend/app/agent/enroll.py:168-185 | forgetting one control plane leaves every other as it was |
| CredentialStore.PathsShareAFile | backend/app/agent/enroll.py:89-93 | saving one of two control planes on one host and port loses the other's credential |
| RestartHandshake.NoStartOverInstaller | scripts/dev.py:2706-2801 | in every reachable state a stamped installer that runs, orphaned or not, is named in the claim, and no start, dev or update passes or clears it |
| RestartHandshake.NamedIff | scripts/dev.py:3299-3314 | a stamped installer that runs is named in the claim exactly unless a helper dropped the claim over it |
| RestartHandshake.NoStartOverHelper | scripts/dev.py:2706-2801 | nor while the helper that stamped the claim is at work |
| RestartHandshake.OneInstaller | scripts/dev.py:3517-3533 | two stamped installers never run at once |
| RestartHandshake.StepKeeps | scripts/dev.py:3402-3599 | the claim's invariant survives every step, kill and preflight |
| PendingClaim.StaleYetFinishing | scripts/dev.py:2706-2751 | the server overwrites a claim the launcher waits for exactly where it names no process, only the file dates it, recently, and its writer is dead |
| PendingClaim.HeldYetAbandoned | scripts/dev.py:2706-2751 | the server holds a claim the launcher would clear exactly where it names no process, its writer is alive, and the claim is between the grace and the cap, or only the file dates it, as old |
| PendingClaim.StampedAgree | backend/app/core/packs/restart.py:902-938 | a claim that names a helper or an installer is read alike by both, at any age |
| PendingClaim.TimeExpires | scripts/dev.py:2662-2703 | passing time does to a claim what the handshake's `Age` does or nothing, exactly unless the clock has caught up with a stamp from the future |
| RestartHandshake.UnstampedOrphanIsNotSeen | scripts/dev.py:3232-3243 | a helper killed between starting `uv` and stamping it leaves an installer a start passes beside |
| RestartHandshake.InterruptedOrphanIsNotSeen | scripts/dev.py:3551-3578 | so does one interrupted there, which goes on to drop the claim and relaunch the server beside it |
| RestartHandshake.AbandonedInstallerIsNotSeen | scripts/dev.py:3531-3539 | after an `OSError` while echoing, a start passes beside the running installer and a second one can be stamped |
| RestartHandshake.PreflightWaits | scripts/dev.py:2740-2789 | a claim that names no process is waited for while it is young, one that names a running process for ever, and neither is overwritten |
| RestartHandshake.PreflightPasses | scripts/dev.py:2740-2801 | an old one that names none and one whose processes are all gone are cleared and passed |
| RestartHandshake.Stamping | scripts/dev.py:3455-3465 | a helper enters itself in the claim it was started for |
| RestartHandshake.Installs | scripts/dev.py:3517-3533 | an installer is started first, and then entered in the claim beside its helper |
| RestartHandshake.Reaping | scripts/dev.py:3207-3249 | a helper goes on only once its installer has ended; killed, it leaves the installer running |
| RestartHandshake.Stopping | scripts/dev.py:3531-3578 | an interrupt stops the installer it knows of and no other, lost output none |
| RestartHandshake.Returning | scripts/dev.py:3299-3314 | the claim goes before the server comes back, and an installer it is dropped over stays running |
| RestartHandshake.Refusing | scripts/dev.py:3424-3440 | a claim found invalid goes with nothing installed |
| RestartHandshake.Aging | scripts/dev.py:2662-2703 | once no helper is still to enter itself, time makes the claim old and changes nothing else |
| RestartHandshake.DeadHelper | scripts/dev.py:3402-3599 | a helper that was killed does nothing more |
| RestartHelper.Job.Steps | scripts/dev.py:3402-3599 | for an exception at any one point the trace is `Whole`, each event allowed at its moment; raised exactly after `Raises`; 0 exactly when the record says installed; an installer started, stamped, stopped exactly after `Starts`, `Stamps`, `Stops`, left running exactly after `Abandons`; a refused claim does none of it |
| RestartHelper.Job.Finish | scripts/dev.py:3299-3314 | the record, then the claim; an exception in between leaves the claim |
| RestartHelper.Job.Try | scripts/dev.py:3488-3550 | event by event what the try body has done when it ends, however it ends, and what it leaves for the handler |
| RestartHelper.WholeInstalls | scripts/dev.py:3402-3599 | in the whole trace an installer is started, stamped, stopped and left running exactly after the exceptions named for each |
| RestartHelper.WholeReports | scripts/dev.py:3299-3314 | the record says installed in the end exactly where that was the verdict and no exception got out, and failed otherwise |
| RestartHelper.InstalledIsZero | scripts/dev.py:3543-3549 | the verdict is installed only where the installer exited with 0 |
| RestartHelper.Undisturbed | scripts/dev.py:3488-3599 | without an exception the job is one given sequence of events |
| RestartHelper.OneRelaunch | scripts/dev.py:3579-3599 | the server is relaunched at most once |
| RestartHelper.ReportBeforeRelease | scripts/dev.py:3299-3314 | the claim of a readable file is never dropped before an outcome is written |
| RestartHelper.InstalledMeansExitZero | scripts/dev.py:3543-3549 | an outcome `ok` implies the installer exited 0 before it |
| RestartHelper.StampedBeforeExit | scripts/dev.py:3517-3529 | between the start and the exit of an installer its pid is written into the claim |
| RestartHelper.RelaunchAfterWait | scripts/dev.py:3579-3599 | the relaunch comes after the exit wait answered, unless that wait was interrupted twice |
| SigintGuard.NoDefaultOnceSafe | scripts/plugins.py:770-775 | once `finish_uninterrupted` has returned, a press inside the context is always the guard's |
| SigintGuard.SurvivesToTheExit | scripts/plugins.py:871-879 | no sequence of presses, handler runs and polls ends the process before the context does |
| SigintGuard.SecondPressEnds | scripts/plugins.py:754-768 | before that, a press after a claimed one ends the process |
| SigintGuard.DeadProcess | scripts/plugins.py:754-759 | a process that SIGINT killed does nothing more |
| SigintGuard.SetIsNotReentered | scripts/plugins.py:762-768 | `Event.set` is never re-entered by a nested handler run |
| SigintGuard.PollReportsAreAnnounced | scripts/plugins.py:744-752 | a poll that reports the cancel comes with the notice out, once unless a press hit the gap |
| SigintGuard.PressCancels | scripts/plugins.py:754-768 | after a press the guard handles, whatever is pressed and polled while its handler runs, the Event is set once the handlers are done, and the next poll reports it |
| SigintGuard.CancelledIff | scripts/plugins.py:744-768 | with no handler run under way the install is cancelled exactly when SIGINT was pressed |
| SigintGuard.PriorHandlerRestored | scripts/plugins.py:787-796 | the previous handler is back on every exit, for good, a late `finish_uninterrupted` included |
| SigintGuard.AnnouncedAgainIff | scripts/plugins.py:754-768 | with no handler run under way, more than one has announced exactly when a press hit the gap between test and claim |
| SigintGuard.NoticeTwice | scripts/plugins.py:760-767 | two presses after the default is off can print the notice twice |
| SigintGuard.Entering | scripts/plugins.py:779-784 | the handler is installed in the main thread, and only there |
| SigintGuard.Finishing | scripts/plugins.py:770-775 | no second press kills from there on; one claimed already hands SIGINT back to the guard |
| SigintGuard.Leaving | scripts/plugins.py:787-796 | the earlier handler is put back by who took SIGINT, the default where there was none to know |
| SigintGuard.FinishingLate | scripts/plugins.py:770-775 | a `finish_uninterrupted` after the context touches nothing but its flag |
| SigintGuard.PressArms | scripts/plugins.py:754-759 | a handler run arms the default for the next press unless the context is finishing |
| SigintGuard.LaterPress | scripts/plugins.py:760-761 | a handler run after a claimed press does nothing more |
| SigintGuard.FirstPress | scripts/plugins.py:762-768 | the first handler run claims the press before it says anything |
| SigintGuard.FirstPressAnnounced | scripts/plugins.py:762-768 | the run that claimed the press tries the notice once, whether it gets out or not |
| SigintGuard.FirstPressSets | scripts/plugins.py:762-768 | after the notice it sets the Event and returns |
| LiveOutputs.NoReadAfterDrop | backend/app/agent/child.py:435-492 | a read begun after a completed drop, nothing captured since, holds none of the captures, in every order of reads, drops, `prepare` and `save`, unless that drop was counted before the count and run after the snapshot, or looked for the copies between compare and publication |
| LiveOutputs.CaughtDropDiscards | backend/app/agent/child.py:517-543 | a drop counted after the count and before the compare always tells: no continuation publishes, and every read answered once the run has ended is unserved |
| LiveOutputs.NoReadAfterLateDrop | backend/app/agent/child.py:470-492 | nor after any drop begun once `prepare` has published, even if `save` publishes later and whatever was lost before |
| LiveOutputs.NothingHeldAfterDrop | backend/app/agent/child.py:481-492 | nor is anything left in memory once that drop is done |
| LiveOutputs.ServedIffLost | backend/app/agent/child.py:517-572 | after completed drops of an ended run a read is answered with captures exactly when they were published, one of the two losses happened and no drop has found the copies since |
| LiveOutputs.OvertakenDropIsServed | backend/app/agent/child.py:522-530 | a drop counted before the counter is read and run after the snapshot is lost |
| LiveOutputs.SlippedDropIsServed | backend/app/agent/child.py:528-534 | a drop that looks for the copies between compare and publication is lost |
| LiveOutputs.ReadIsAnswered | backend/app/agent/child.py:528-572 | with no drop, a read begun after the publication is always answered, from the copies or the files |
| LiveOutputs.MissIff | backend/app/agent/child.py:528-572 | with no drop, a read begun with captures held misses exactly when it looked before the publication and asked the store after it was emptied |
| LiveOutputs.ReadInFlightMisses | backend/app/agent/child.py:530-535 | such a miss is reachable |
| LiveOutputs.Preparing | backend/app/agent/child.py:510-543 | an undisturbed `prepare` ends with the copies answering, `save` able to write them and the store empty |
| LiveOutputs.PreparingDropped | backend/app/agent/child.py:528-529 | a `prepare` during which a drop was counted keeps nothing |
| LiveOutputs.PreparingNothing | backend/app/agent/child.py:517-527 | a `prepare` of a run that recorded nothing, or whose captures could not be copied, keeps nothing |
| LiveOutputs.NothingBetween | backend/app/agent/child.py:528-536 | from the compare to the emptied store the loop empties nothing and answers no lookup |
| LiveOutputs.Dropping | backend/app/agent/child.py:481-492 | a drop of what was published clears copies and files and stops `save` |
| LiveOutputs.DroppingLive | backend/app/agent/child.py:481-500 | a drop of the live run has the loop empty the store, in its turn |
| LiveOutputs.DroppingAfterwards | backend/app/agent/child.py:493-500 | a drop once the loop is gone has nothing to empty and asks nobody to |
| LiveOutputs.CountingDrop | backend/app/agent/child.py:486 | a drop is counted before it looks for anything |
| LiveOutputs.SavingWrites | backend/app/agent/child.py:549-570 | `save` writes what it holds, whole or not, and lets go of it |
| LiveOutputs.SavingPublishes | backend/app/agent/child.py:571-572 | the files answer from then on if they were written whole and nobody has dropped |
| LiveOutputs.SavingGivesUp | backend/app/agent/child.py:571-572 | files not written whole, or dropped meanwhile, never answer, and nothing is saved twice |
| LiveOutputs.AloneAnswer | backend/app/agent/child.py:465-480 | an undisturbed read answers from the copies or files it has chosen, blank where they hold nothing, from the live store where there were none, and misses once the run has ended |
| LiveOutputs.AloneRead | backend/app/agent/child.py:470-480 | an undisturbed read chooses the files or copies there are, and none where they were dropped |
| TomlValues.ReadsValue | scripts/project.py:426-443 | reading a printed value gives it back exactly when its strings are inside the BMP, and fails otherwise |
| TomlValues.ReadsKey | scripts/project.py:419-423 | a printed key, bare or quoted, is read back as itself |
| TomlText.JsonEscapes | scripts/project.py:426-433 | which characters have a letter for their escape, and how the others are written |
| TomlText.DelReplaced | scripts/project.py:426-433 | a DEL that is still there is replaced by its escape |
| TomlText.BareIff | scripts/project.py:419-423 | a key is printed bare exactly where it is ASCII letters, digits, `_` and `-`, and at least one of them |
| TomlValues.DelIsEscaped | scripts/project.py:427-433 | replacing DEL after `json.dumps` changes nothing |
| QuotedText.QuotedBack | scripts/project.py:481-495 | text between raw quotes that is read back as itself needed no escape, and ends at its own quote |
| QuotedText.MultiIsAnother | scripts/project.py:481-495 | text whose own quotes open a multi-line string is never what that string says, wherever it ends |
| ManifestReading.ReadsRawLine | scripts/project.py:481-484 | a field printed between raw quotes is read back as itself if it needs no escape, and gives its key another value or cannot be read if it does, whatever the next lines are |
| ManifestReading.ReadsHeader | scripts/project.py:446-460 | a dotted header names the table it was printed for |
| ManifestReading.ReadsPinLine | scripts/project.py:491-495 | the same of a pin and its three fields |
| ManifestRoundTrip.BuildTable | scripts/project.py:446-460 | the sections of a nested table build that table, pairs before tables |
| ProjectManifest.RenderExtraTable | scripts/project.py:446-460 | the two loops print the recursive sections of the table |
| ManifestTypes.RenderManifest | scripts/project.py:463-512 | over whatever `tomllib` returned: the appended lines are the sections in order of the manifest with its managed fields as printed, or the error that stops the program |
| ManifestTypes.TypedProjectSays | scripts/project.py:480-488 | what is printed of a name, version and requirement of any type, the user's keys untouched |
| ProjectManifest.FalsyIff | scripts/project.py:470-507 | what Python takes for false |
| ProjectManifest.PluginsComment | scripts/project.py:490 | the comment under `[plugins]` names the commands that write and install it |
| ManifestTypes.Conversions | scripts/project.py:481-507 | what `str` and `int` make of a value of each type |
| ManifestTypes.NoTable | scripts/project.py:478-499 | a `[project]` or `[publish]` that is no table stops the program unless it is empty, zero or false |
| FreezeRoundTrip.ReadsBack | scripts/project.py:463-512 | with no escape needed in a raw-quoted field, a TOML reader gives the manifest's normal form exactly when the quoted strings are inside the BMP, and refuses the file otherwise |
| FreezeExact.ReadsBackIff | scripts/project.py:463-512 | a TOML reader applied to what is printed of any manifest gives its normal form exactly when the quoted strings are inside the BMP and no raw-quoted field needs an escape |
| StrayLines.StrayBreaks | scripts/project.py:463-512 | one such line, and whatever follows it, the document is not the one that was printed |
| StrayLines.ValueStays | scripts/project.py:463-512 | a value once defined stays through every line that may follow |
| FreezeRoundTrip.SortKeepsPins | scripts/project.py:491 | sorting the pins loses and invents none |
| FreezeRoundTrip.SortOrders | scripts/project.py:491 | and puts them in the order of their ids |
| FreezeMeaning.UserKeysKept | scripts/project.py:463-473 | every top-level key freeze does not own means what it meant, at every depth |
| FreezeMeaning.PinsReplaced | scripts/project.py:489-495 | `[plugins]` holds exactly the pins given |
| FreezeMeaning.ProjectUserKeys | scripts/project.py:485-488 | every key of `[project]` but `name`, `format_version` and `requires_codefyui` is kept with its value, and no other such key appears |
| FreezeMeaning.PublishUserKeys | scripts/project.py:497-508 | every key of `[publish]` but `graph`, `slug` and `record_io` is kept with its value, and no other such key appears |
| FreezeMeaning.UserKeysReadBack | scripts/project.py:463-512 | what a TOML reader gets from the printed text has each such key of `[project]`, of `[publish]` and at the top level exactly when the manifest had it, with the same value |
| FreezeMeaning.ProjectKept | scripts/project.py:480-488 | name, format version and requirement read back as given or filled in |
| FreezeMeaning.PublishKept | scripts/project.py:497-508 | targets, `record_io` and unknown keys of `[publish]` read back |
| FreezeMeaning.FreezeTwice | scripts/project.py:463-512 | of any manifest: a second freeze has nothing to convert and prints the same text exactly unless `[publish]` held only empty targets |
| Changelog.Parse | scripts/check_changelog.py:69-86 | the headings in order, and for each folded label all of its URLs in file order |
| Changelog.Versions | scripts/check_changelog.py:89-97 | the bracketed headings other than `[Unreleased]`, in order |
| ChangelogLines.HeadingIff | scripts/check_changelog.py:58 | a heading is what follows `## `, stripped |
| ChangelogReports.SubIff | scripts/check_changelog.py:154-155 | a subsection is what follows `### `, stripped |
| ChangelogLines.LinkIff | scripts/check_changelog.py:59 | a link definition is a label in brackets and a colon behind at most three spaces, and its URL the first word behind it |
| ChangelogLines.BracketedIff | scripts/check_changelog.py:60 | a release heading is a label in brackets, closed by the first bracket that does, and what follows |
| ChangelogLines.DatedIff | scripts/check_changelog.py:61 | a dated one has an em dash between spaces and a date of eight digits behind it, and nothing else |
| ChangelogLines.CompareIs | scripts/check_changelog.py:52 | compare links are links of this repository |
| Changelog.RepeatedSubsections | scripts/check_changelog.py:138-158 | the loop reports what the rule says |
| Changelog.Check | scripts/check_changelog.py:166-282 | the loops collect the problems of every rule, in order |
| ChangelogReports.ProblemIff | scripts/check_changelog.py:166-282 | of every file and version, each of the eighteen problems is reported, with its names, counts and URLs, exactly where the file has it |
| ChangelogReports.SectionDateIff | scripts/check_changelog.py:203-218 | a section is dated by a day of the calendar behind an em dash, and by nothing else |
| ChangelogTheorems.NewestFirstSorts | scripts/check_changelog.py:100-114 | a permutation; newest first when all are versions, untouched otherwise |
| ChangelogTheorems.SortedStays | scripts/check_changelog.py:110-114 | a list in order is left as it is, equal versions included |
| ReleaseOrder.VersionIff | scripts/check_changelog.py:64-105 | a label is a version exactly when it is written X.Y.Z or X.Y.ZrcN |
| ReleaseOrder.BelowIff | scripts/check_changelog.py:100-107 | one sorts below another exactly when it is older by its numbers, a release candidate older than its version and than later candidates of it |
| ReleaseOrder.EarlierIff | scripts/check_changelog.py:243-282 | a date is earlier than another exactly when its digits, read as one number, are fewer |
| ReleaseOrder.LeapYearsCounted | scripts/check_changelog.py:166-282 | the leap years of the calendar dates are checked in are the Gregorian ones |
| ReleaseOrder.MonthLengths | scripts/check_changelog.py:166-282 | a month is valid up to the day the calendar gives it |
| ChangelogTheorems.RepeatedIff | scripts/check_changelog.py:138-158 | no report exactly when no subsection comes twice under one heading |
| ChangelogTheorems.CleanMeans | scripts/check_changelog.py:138-158 | two subsections under one heading have different titles |
| ChangelogTheorems.EmptyIff | scripts/check_changelog.py:166-282 | no problems exactly when the file is promoted: one `[Unreleased]` first, one dated section and one link a release, the newest the version shipped, one chain of links |
| ChangelogTheorems.KeptDescends | scripts/check_changelog.py:226-236 | with only versions for labels, the headings descend from the version shipped |
| ChangelogPromotion.PromotionKeepsCheck | scripts/check_changelog.py:4-16 | promoting a file with no problems to a fresh version leaves none exactly when the release below is neither newer nor dated later |
| ChangelogPromotion.EntryKeepsCheck | scripts/check_changelog.py:10-16 | a line added under a heading leaves none exactly when it repeats no subsection there |
| ChangelogPromotion.ReadsCompared | scripts/check_changelog.py:62 | a compare link written for two releases is read as comparing them |
| ChangelogPromotion.ReadsLink | scripts/check_changelog.py:59 | a link definition written for a label is read with that label and URL |
| RelaunchArgv.ParseHostPort | scripts/dev.py:1730-1749 | the loop gives host and port of the last mention of each |
| RelaunchArgv.LastHostWins | scripts/dev.py:1730-1749 | the last host given is the one used, whatever stands before it |
| RelaunchArgv.LastJoinedHostWins | scripts/dev.py:1737-1738 | the last host given decides when it is joined to its flag by `=` as well |
| RelaunchArgv.LastPortWins | scripts/dev.py:1739-1748 | the last port that is a number is the one used, spaced or joined, whatever stands before it |
| RelaunchArgv.PortSaid | scripts/dev.py:1739-1748 | a port that is no number changes nothing, spaced or joined |
| RelaunchArgv.NothingSaid | scripts/dev.py:1730-1733 | a command line that says nothing of either is for port 8000 of this machine |
| RelaunchArgv.FirstProjectWins | scripts/dev.py:1898-1906 | the first project given is the one used, whatever stands after it |
| RelaunchArgv.FirstJoinedProjectWins | scripts/dev.py:1904-1906 | the first project given decides when it is joined to its flag by `=` as well, and there is none where none is given |
| RelaunchArgv.ParseProject | scripts/dev.py:1898-1906 | the first mention of the project |
| RelaunchArgv.AbsolutiseProject | scripts/dev.py:2823-2851 | the one project value replaced, everything else in place |
| RelaunchArgv.BackgroundKeepsIff | scripts/dev.py:2804-2818 | dropping the foreground flags keeps every flag with its value exactly when none of them stands where a value is taken from |
| RelaunchArgv.ForegroundDropped | scripts/dev.py:2817-2818 | `-f` and `--foreground` go wherever they stand, and nothing else |
| RelaunchArgv.AbsolutisedKeepsIff | scripts/dev.py:2823-2851 | making the project absolute replaces its value and keeps every other flag with its own exactly when the replaced argument is read as nothing else |
| RelaunchArgv.RelaunchSplits | scripts/dev.py:2804-2820 | for every command line the relaunched start splits into the kept arguments and the same tail |
| RelaunchArgv.RelaunchSame | scripts/dev.py:2804-2820 | under those two conditions it reads the same address and the project this one opened |
| RelaunchArgv.RelaunchWellFormed | scripts/dev.py:2804-2820 | so it does for every command line in which no flag's value starts with a dash |
| RelaunchArgv.RelaunchFixpoint | scripts/dev.py:2804-2851 | for every command line a second relaunch hands on the same argv |
| RelaunchArgv.SplitBack | scripts/dev.py:1752-1777 | splitting at the first `--` undoes joining with one |
| RelaunchArgv.BrokenPairIsLost | scripts/dev.py:2817-2818 | a foreground flag behind `--host` goes, and the address changes |
| RelaunchArgv.ReplacedFlagIsLost | scripts/dev.py:2823-2851 | a directory that is read as a flag as well is replaced, and the address changes |
| TailRun.Follow | scripts/dev.py:4791-4828 | printed is exactly as much of the log as the answers showed, each event once and in order; a drain that ended on an empty page printed all of it, for good; it stops at the first turn that loses the connection, has a terminal status or passes the deadline, and at no other |
| TailRun.AskedForever | scripts/dev.py:4546-4550 | a server that answers with errors and bodies is asked again for ever when there is no deadline |
| TailRun.Drain | scripts/dev.py:4831-4851 | the drain continues where the printing stopped, for at most twenty pages and up to the first answer that shows nothing more; at an empty page it is at the end of the log |
| TailRun.PageContinues | backend/app/api/routes_runs.py:245-266 | a byte-bounded page after a cursor is the next stretch of the log, empty only at its end |
| TailRun.ShownAll | backend/app/api/routes_runs.py:245-266 | an answer shows as many more events as there are and fit, a failed request none |
| EagerIds.Walk | frontend/vite.config.ts:57-61 | the queue that grows while it is walked ends, and gives exactly the modules reachable from an entry by static imports, cycles included |
| EagerIds.EagerIff | frontend/vite.config.ts:49-61 | a module is statically reachable exactly when it is an entry or a reachable module imports it statically |
| EagerIds.EagerCache.EagerIds | frontend/vite.config.ts:51-64 | walked once a build, right whenever it comes from the cache, an error exactly without an entry |
| EagerIds.EagerCache.ManualChunks | frontend/vite.config.ts:66-91 | the chunk every correct set of eager modules would give; an error about entries exactly where the set is asked for and there is none |
| EagerIds.NamedChunksAreEager | frontend/vite.config.ts:66-91 | a module in a named chunk other than i18n is statically reachable, and no lazy-only package is in one |
| EagerIds.ReactPackagesTogether | frontend/vite.config.ts:66-84 | wherever it is installed, eager code of a React runtime package goes to the one chunk |
| EagerIds.LazyPackagesFail | frontend/vite.config.ts:66-74 | a lazy-only package, its stylesheets included, fails the build exactly when it is statically reachable and is in no chunk otherwise |
| EagerIds.BuildPassesIff | frontend/vite.config.ts:66-74 | the build fails on no module exactly when no lazy-only package is statically reachable |
| PackageChunks.PackageChunk | frontend/vite.config.ts:42-84 | where every module of one package goes, by the name of the package |
| PackageChunks.SourceChunk | frontend/vite.config.ts:45-91 | where every module of one source directory goes: translations together, the core only where it is eager, any other directory nowhere |
| PackageChunks.TranslationsTogether | frontend/vite.config.ts:85-86 | a translation goes to its chunk wherever else its path leads, and never asks what is eager |
| PackageChunks.StylesheetIff | frontend/vite.config.ts:46 | a stylesheet is what ends in `.css` or has a query after it |

## Left out

- Form: interleaved code (`connection.py`, `cli.py`, `plugins.py`, `child.py`, the restart claim) is modelled as step machines on values, because a method cannot give way to another in the middle; their sequential parts (`Spool`, `OneShot`, `FileLock`, the helper's job, the store) are classes.
- Sockets, TLS, HTTP, subprocesses, `psutil`, git, the file system's own failures: only their outcomes appear. Spool and claim writes succeed.
- Time: timeouts, ages and deadlines are free choices. A helper stamps its claim within the start grace, process ids are not handed out twice, and one preflight is one step.
- ReplayProtocol.NothingLost: assumes a run's frames are handed to `send_frame` in seq order with none after `run_finished`, and that an ack is for frames the control plane recorded.
- ReplayProtocol.AnnouncedExactly: which runs `run_alive` names, not the `last_seq` it gives for each.
- ReplayProtocol.WireOrder: `run_alive` covers the runs that had a spool when it was announced; a run whose first frame is produced later needs none.
- ReplayProtocol.StepKeeps: runs the control plane no longer waits for (`_route_orphan`), `reported_early`, backpressure and the spools of an earlier agent process are not part of this model.
- OneShot.ZeroMeansRecorded: the delivery window is a free choice of when to exit; a taken run is not assigned a second time.
- CredentialStore.Store.Load: URLs come split into scheme, host, port and path.
- EnrollOnce.EnrollsOnce: agents on one control URL, with `flock`; an agent that dies between the answer and the file makes the next one enroll again.
- RestartHandshake.NoStartOverInstaller: holds for installers no helper dropped the claim over; the writer of a claim overwrites one whenever the launcher's rule would let it.
- RestartHelper.Job.Steps: one exception in the try body, and one more in the second wait; none inside the handler or the relaunch.
- SigintGuard.NoticeTwice: a press is possible between any two steps; an interpreter that checks for signals less often has fewer interleavings.
- LiveOutputs.NoReadAfterDrop: a failing `delete_run` in `prepare` and the agent's own deletion of files are not part of this model; what a copy holds is not looked into.
- TomlReader: takes less than TOML does (no literal strings, floats, dates, arrays over several lines, dotted keys in pairs, arrays of tables, reopened parents, or a header before the one of its parent), never more; what a value in braces defines is closed to headers (`InlineTablesAreClosed`).
- FreezeRoundTrip.ReadsBack: floats and dates are left out.
- ManifestTypes.RenderManifest: what `int` makes of a text, and what `str` puts between the brackets of a list or dict, are parameters.
- FreezeExact.ReadsBackIff: pins are a dict, and their ids what installing a plugin accepts (`backend/app/core/plugins/manifest.py`), so they need no quotes.
- ChangelogText: `\d`, case folding and `splitlines` are those of ASCII; message wording is not modelled, a problem is what one message says.
- Changelog.Check: `tag_problems`, which needs a tag's date from git.
- ChangelogPromotion.PromotionKeepsCheck: no label of the file may read as `unreleased` without case.
- RelaunchArgv.RelaunchSame: `int()` is a parameter, and what `_activate_project` exports is taken as an absolute path.
- TailRun.Follow: the server's side is an assumption taken from its route: cursors grow, the log only grows, and not after a terminal status; rendering and the queue notice are left out.
- EagerIds.EagerCache.EagerIds: one `meta` keeps one graph.
- Graph engine, run service, worker registry, dashboards, translations, console text and the small helpers (`human_bytes`, `migrate_graph`, mount merging) would only add easy members.
