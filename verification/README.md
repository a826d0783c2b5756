# PixivBiu: verified models

Dafny 4.11 models of the stateful parts of PixivBiu, a Go server with an Electron shell and a React
interface, with proofs about all their interleavings. `dafny verify dfyconfig.toml` checks the project.

**Download manager** (`Download*.dfy`). A job has download tasks; workers lease one, fetch it, convert a ugoira,
write a JSON sidecar and finalize, while Submit, Cancel, Remove, Shutdown and outside file changes come
between any two steps. `DownloadRun` is the transition system: each section under `Manager.mu` is one step; so are,
outside it, every look at a file, every creation, rename and removal, and the two halves of a save. The disk maps
a path to its last writer. `DownloadManager` is a class whose methods
are those sections in their loops-and-assignments form, each proved equal to the function the steps use.
`DownloadInvariant`, `DownloadSteps`, `DownloadMoves` and `DownloadSubmission` prove one invariant for every step;
`DownloadRuns` draws the guarantees over whole process runs, `DownloadDisjoint` the disjointness of outputs,
`DownloadTouch` and `DownloadPresent` which files stay, `DownloadRecovery`, `DownloadReassign`, `DownloadRestart`
and `DownloadSaves` what a restart after a crash at any moment does. `DownloadLeftover`, `DownloadComeback`,
`DownloadFallback`, `DownloadOvertaken` and `DownloadMishap` are concrete runs for the guarantees that have exceptions.
`Naming`, `Collision` and `DownloadStable` are the byte-exact path rendering and the collision resolver underneath.

**Desktop shell** (`CoreSupervisor`, `UpdateController`). Async objects with single-flight slots: one step per
stretch of code between two awaits, with calls, process events and driver events in between.

**Session and bookmark locks** (`Session`, `BookmarkLocks`, `BookmarkTags`), **event hub** (`Hub`), **settings**
(`ConfigManager`, `ConfigStore`, `ConfigEnv`), **pager** (`Pagination`) and **kept-alive pages** (`KeepAlive`).

Where the code and its comments or obvious expectations part, the model follows the code:

- A failed task does not outrank a running or queued one, unlike the order documented at
  internal/download/types.go:18-20 (`DocumentedExact`).
- A failed save is ignored and the cleanup runs anyway, against the comment at internal/download/manager.go:391-394:
  a cancelled job can come back (`CancelledComesBack`), and does exactly when no save has succeeded since it was
  finished (`NeverResumed`).
- `finishMetadata` disowns a sidecar of the task's own that cannot be confirmed, so that file survives the
  cleanup of its job (the second exception of `AllOrNothing`) and stays (`LeftoverStays`, `SidecarStays`).
- The path of a cancelled task is free while its worker still drains, so a completed task can lose its file
  (`CompletedIsOvertaken`); without such submissions it never does (`CompletedIsPresent`).
- `reuseMedia` may fall back to a zip name nobody reserved (`FallbackCollides`); claims stay disjoint exactly when
  no other unfinished task claims it (`FallbackExact`).
- `Start` reserves outputs job by job and can move a newer task onto an older one's pending output
  (`RecoveryCanCollide`); `RecoveryApartExact` says exactly when, `RecoveryStaysExact` when every path stays.
- `Patch` and `Reset` end by reading the file again, so an error can follow a change (`ErrorAfterSave`,
  `ErrorKeepsState`).
- The collision resolver does not always give out its own result again: it does exactly when the name has a
  stem (`TidyIsStable`, `ResolverNotIdempotent`).
- With 63 underscores or more the mask loop of the environment resolver does not run at all (`OverflowExact`,
  `OverflowFails`).
- Overlapping publishes can be delivered out of order (`OverlapReorders`); `StreamExact` says exactly when not.
- A list whose last page points at an empty one can make the pager depend on the order of visits (`OrderExact`)
  and report a page too many (`TrueEndExact`, `StaleLinkMisleads`).
- A key that begins with a dot does not survive flattening (`RoundTripExact`).

Clocks, the network, the file system and the parsers of other packages answer through step parameters.

## Model

| member | source | states |
|---|---|---|
| `DownloadCore.AggregateStatus` | internal/download/types.go:129-169 | The loop of `aggregateStatus` computes the aggregate function the rest of the model uses |
| `DownloadCore.AggregateMeaning` | internal/download/types.go:129-169 | Cancelled iff some task is cancelled, completed iff all are, failed iff some failed and all others are done; when the aggregate is terminal |
| `DownloadCore.DocumentedExact` | internal/download/types.go:13-20 | The code computes the documented order "cancelled > failed > running > queued > completed" iff no failed task has an unfinished sibling, a cancelled one aside |
| `DownloadSteps.TransitionIndex` | internal/download/manager.go:1058-1085 | A job transition shows the aggregate, and returns for removal exactly the recorded paths of a job that has just failed or been cancelled, else none |
| `DownloadManager.Manager.WrittenPathsOf` | internal/download/manager.go:1074-1085 | The loop collects exactly the recorded media and sidecar paths, in order |
| `DownloadManager.Manager.TransitionJobLocked` | internal/download/manager.go:1058-1070 | New index, removals and change flag are those of the transition function |
| `DownloadManager.Manager.Cancel` | internal/download/manager.go:370-403 | Not found, already terminal, or: unfinished tasks cancelled, their handles called, the job recomputed; nothing else changes |
| `DownloadManager.Manager.Remove` | internal/download/manager.go:419-441 | Only a terminal job is unlisted; every other record stays |
| `DownloadManager.Manager.LeaseTask` | internal/download/manager.go:799-824 | A terminal task is refused and nothing changes; any other becomes running with its handle set, and so does its listed job |
| `DownloadManager.Manager.TransitionTaskTerminal` | internal/download/manager.go:1040-1048 | A terminal task refuses the write and says so; any other moves |
| `DownloadManager.Manager.ResolveCancelledLocked` | internal/download/manager.go:1024-1034 | Shutdown requeues, a user cancel is terminal, a terminal task stays |
| `DownloadManager.Manager.AcceptDownload` | internal/download/manager.go:877-901 | Ownership is recorded before the status; a download that lost against a cancel is the one file dropped |
| `DownloadManager.Manager.SettleConversion` | internal/download/manager.go:947-976 | The section after conversion, including the artefact dropped when a cancel won |
| `DownloadManager.Manager.FinishMetadata` | internal/download/metadata.go:115-141 | Sidecar ownership, status and removals for every outcome, cancel and shutdown included |
| `DownloadManager.Manager.ReservedPathsLocked` | internal/download/manager.go:1120-1140 | The walk over jobs and tasks, in any order, reserves exactly the claims of unfinished tasks |
| `DownloadManager.Manager.ReserveJob` | internal/download/manager.go:1122-1138 | One job of that walk adds exactly the claims of its unfinished tasks |
| `DownloadManager.Manager.ResolveTask` | internal/download/manager.go:1149-1187 | One turn of the collision loop equals the placement function |
| `DownloadManager.Manager.ResolveCollisions` | internal/download/manager.go:1148-1188 | The whole loop equals placing the tasks one after the other |
| `DownloadManager.Manager.Submit` | internal/download/manager.go:568-572 | The locked section of Submit adds the job with its resolved tasks and changes no other record |
| `DownloadManager.Manager.ResetTasks` | internal/download/manager.go:183-196 | Running tasks start over and exactly the queued ones are collected |
| `DownloadManager.Manager.RestartJob` | internal/download/manager.go:183-201 | One turn of the loop in Start |
| `DownloadManager.Manager.Start` | internal/download/manager.go:177-203 | The loop of Start leaves exactly the recovered index and queue |
| `DownloadPaths.PlacedClaims` | internal/download/manager.go:1148-1188 | A freshly placed task claims exactly the paths the resolver offered, and its sidecar carries the final media name |
| `DownloadPaths.PlacedIsFresh` | internal/download/manager.go:1170-1178 | Unless the unchecked suffix was used, no claimed path was reserved or on disk |
| `DownloadPaths.OfferedShape` | internal/download/naming.go:479-512 | The offered paths share one prefix: final media, zip for a conversion, sidecar |
| `DownloadPaths.ConvertedCandidate` | internal/download/manager.go:1092-1104 | An unconverted ugoira is resolved under its final extension with the zip as companion |
| `DownloadSafety.ActKeeps` | internal/download/manager.go:762-793 | What every step of a worker keeps: terminal stays, only own files are written, each stays accounted for, only recorded paths are dropped |
| `DownloadMoves.WorkKeeps` | internal/download/manager.go:762-793 | Any worker step keeps the invariant of the whole manager |
| `DownloadSteps.CancelKeeps` | internal/download/manager.go:370-403 | So does Cancel, whatever the workers of the job are doing |
| `DownloadSteps.ReportKeeps` | internal/download/manager.go:988-1019 | So does the end of a task, which recomputes its job and stages its cleanup |
| `DownloadMoves.LeaseKeeps` | internal/download/manager.go:799-824 | So does leasing a task or dropping a cancelled one |
| `DownloadMoves.RemoveKeeps` | internal/download/manager.go:419-441 | So does removing a terminal job from the list |
| `DownloadMoves.BeginSaveForKeeps` | internal/download/manager.go:1224-1233 | So does the copy a save takes, with the cleanup that waits for it |
| `DownloadMoves.EndSaveKeeps` | internal/download/manager.go:395-403 | So does the end of a save, successful or not, which releases that cleanup |
| `DownloadMoves.DeleteKeeps` | internal/download/manager.go:1192-1200 | So does each removal, successful or not |
| `DownloadMoves.OutsideKeeps` | internal/download/manager.go:1192-1200 | So does any file that appears or vanishes from outside |
| `DownloadSubmission.SubmitKeeps` | internal/download/manager.go:568-586 | So does a submission |
| `DownloadRuns.StepKeeps` | internal/download/manager.go:165-1085 | Every step of the transition system keeps the invariant |
| `DownloadRuns.RunKeeps` | internal/download/manager.go:165-1085 | The invariant holds in every state of every process run |
| `DownloadRuns.RunExtends` | internal/download/manager.go:165-1085 | Every enabled step extends a run: the runs are all sequences of the modelled steps |
| `DownloadRuns.AllOrNothing` | internal/download/manager.go:371-403 | Once a job has failed or been cancelled and is quiet, no file last written by one of its tasks is left, but for a removal of it for this job that failed and an unreadable own sidecar |
| `DownloadLeftover.SidecarSurvives` | internal/download/metadata.go:74-80 | A run after which a failed, quiet job still has its unreadable sidecar on disk: the exception is real |
| `DownloadRuns.DeletesOnlyRecorded` | internal/download/manager.go:1074-1085 | Every path a removal deletes was recorded as written by a task of that very job at some moment of the run |
| `DownloadRuns.TerminalIsFinal` | internal/download/manager.go:1036-1048 | A terminal task or job never changes status again |
| `DownloadRuns.OneTerminalEvent` | internal/download/manager.go:1006-1021 | A job has published its terminal event exactly when it became terminal in this run, and then once |
| `DownloadRuns.EveryState` | internal/download/manager.go:744-793 | A terminal job has only terminal tasks, no task has two workers or is enqueued while it runs, and a job nobody works on shows its aggregate |
| `DownloadTouch.ActTouches` | internal/download/manager.go:762-793 | A worker changes files only under what its task claims, part files aside, and drops its own only once it is cancelled |
| `DownloadTouch.FileStays` | internal/download/manager.go:1074-1085 | A file out of the reach of unfinished tasks, draining workers and scheduled removals stays as it is, whatever the manager goes on to do |
| `DownloadTouch.LeftoverStays` | internal/download/manager.go:1192-1200 | What is left of a job that is over and quiet stays for good, unless another job reaches it or somebody outside touches it |
| `DownloadPresent.SubmitIntact` | internal/download/manager.go:568-572 | A submission keeps tasks apart and their files in place iff its paths are unreserved, absent from the disk, not draining and no part files |
| `DownloadPresent.WorkIntact` | internal/download/metadata.go:163-166 | A step of a worker does iff it is no fallback onto a path that is not free for its task |
| `DownloadPresent.OutsideIntact` | internal/download/manager.go:1113-1119 | A change from outside does iff it puts nothing where a task of a live job holds a path, and takes nothing a completed or running task relies on |
| `DownloadPresent.StepIntact` | internal/download/manager.go:1113-1126 | Exactly the steps that are clean in this sense keep tasks apart and their files in place |
| `DownloadPresent.RunIntact` | internal/download/manager.go:1113-1126 | Everything is intact up to a moment of a run iff every step before it was clean |
| `DownloadReassign.RecoveredIntact` | internal/download/manager.go:177-203 | A recovered process starts intact if recovery has not intruded, completed tasks have their files, tasks with output find only their own, and failed tasks of unfinished jobs hold paths of their own |
| `DownloadPresent.CompletedIsPresent` | internal/download/manager.go:877-901 | After clean steps only, a completed task of a job that is not dead has its media, and its sidecar if asked for, on disk and last written by itself |
| `DownloadOvertaken.CompletedIsOvertaken` | internal/download/manager.go:1117-1126 | A run with a submission onto the path of a cancelled, draining task: the completed task has lost its file |
| `DownloadSaves.CleanupAfterPersist` | internal/download/manager.go:395-403 | Every cleanup removal comes after an attempt to save the job as finished |
| `DownloadSaves.SavedExactly` | internal/download/manager.go:1220-1236 | A job that became terminal in this run and that the store knows is shown there as finished iff a save has succeeded since it was finished |
| `DownloadSaves.NeverResumed` | internal/download/manager.go:391-403 | If cleanup of a job has run when the process dies, the next one leaves its tasks alone iff a save has succeeded since the job was finished |
| `DownloadComeback.CancelledComesBack` | internal/download/manager.go:395-396 | A run in which the save fails: the user has cancelled, the file is deleted, and every next process enqueues the task again |
| `DownloadDisjoint.ActClaims` | internal/download/manager.go:1205-1218 | A worker step claims no new path, unless it is the fallback of reuseMedia |
| `DownloadDisjoint.FallbackExact` | internal/download/metadata.go:153-168 | The fallback keeps all claims apart if and only if no other unfinished task claims the zip path |
| `DownloadFallback.FallbackCollides` | internal/download/metadata.go:157-166 | A run in which a fallback lands on the zip another unfinished task has been given |
| `DownloadDisjoint.PlaceAllApart` | internal/download/manager.go:1148-1188 | The tasks of one submission claim unreserved, pairwise disjoint paths iff no unchecked suffix hit a reserved one |
| `DownloadDisjoint.FewPathsChecked` | internal/download/naming.go:514-543 | With fewer than 9999 paths around, a submission never needs the unchecked suffix |
| `DownloadDisjoint.SubmitApart` | internal/download/manager.go:568-572 | A submission keeps the claims of all unfinished tasks disjoint iff no unchecked suffix hit a reserved path |
| `DownloadDisjoint.StepKeepsApart` | internal/download/manager.go:1112-1140 | A step keeps them disjoint iff it is no such submission and no fallback of an unfinished task onto a zip path claimed elsewhere |
| `DownloadDisjoint.NoSharedOutputs` | internal/download/manager.go:1112-1140 | Distinct unfinished tasks share no current, final or sidecar path up to a moment of a run iff every step before it was lucky in that sense |
| `DownloadStable.PlacedTidy` | internal/download/naming.go:479-512 | What the resolver gives out has one name within the byte budget |
| `DownloadStable.TidyIsStable` | internal/download/naming.go:479-512 | The resolver offers such a name again first if and only if it is more than an extension |
| `DownloadStable.StablePlace` | internal/download/manager.go:1148-1188 | Resolving an unwritten task again changes nothing when its own paths are free |
| `DownloadStable.ResolverNotIdempotent` | internal/download/naming.go:479-512 | A concrete name that is given out once and not again |
| `DownloadRecovery.RecoveredTask` | internal/download/manager.go:183-201 | Recovery leaves terminal tasks untouched, makes every other one queued, and keeps the paths of tasks with recorded output |
| `DownloadRecovery.EnqueuedOnce` | internal/download/manager.go:183-210 | Every unfinished task is enqueued exactly once and no other at all |
| `DownloadReassign.RecoveryStaysExact` | internal/download/manager.go:165-203 | Every path stays exactly the same iff every unfinished task without output has a name the resolver keeps and none of its own paths is on disk |
| `DownloadReassign.RecoveryApartExact` | internal/download/manager.go:181-201 | The recovered tasks claim disjoint paths iff no task without output is newly given a path that a later one with output needs, and no unchecked suffix hit a path of an earlier one |
| `DownloadReassign.FewTurnsChecked` | internal/download/naming.go:514-543 | With fewer than 9999 paths, counting three for each task, no turn of recovery needs the unchecked suffix |
| `DownloadMishap.RecoveryCanCollide` | internal/download/manager.go:181-201 | A snapshot and a disk for which the newer of two disjoint tasks is moved onto the pending output of the older |
| `DownloadRestart.RecoveredInit` | internal/download/manager.go:165-210 | Whatever sound snapshot was stored, the state after Start is a proper start of a run |
| `DownloadRestart.StoredSound` | internal/download/manager.go:1224-1236 | What is stored is sound at every moment of every run |
| `DownloadRestart.CrashRestart` | internal/download/manager.go:165-210 | A crash at any moment leads to a proper start of the next run |
| `DownloadRestart.StoredApart` | internal/download/manager.go:1224-1236 | In runs of lucky steps what is stored is disjoint at every moment |
| `DownloadRestart.StoredShaped` | internal/download/manager.go:1224-1236 | What the recovery theorems ask of the paths of a snapshot holds of everything stored in any run |
| `DownloadReassign.RestartStaysApart` | internal/download/manager.go:177-203 | The next run starts disjoint again iff recovery has not intruded on another output |
| `Naming.Sanitize` | internal/download/naming.go:292-319 | The rune loop equals the sanitizing function |
| `Naming.SanitizedShape` | internal/download/naming.go:292-331 | A sanitized name is non-empty, has no forbidden character, no leading space and no trailing space or dot |
| `Naming.SanitizeIdempotent` | internal/download/naming.go:292-319 | Sanitizing twice is sanitizing once, for all byte strings |
| `Naming.TruncUtf8` | internal/download/naming.go:354-364 | The walk back to a rune boundary equals the truncating function |
| `Naming.TruncateKeepsRunes` | internal/download/naming.go:351-364 | Truncation never splits a UTF-8 sequence (section 3 of RFC 3629) |
| `Naming.CleanSegments` | internal/download/naming.go:238-258 | Rejected iff a segment is ".."; else every segment returned is non-empty, at most 240 bytes, free of forbidden characters and not "." or ".." |
| `Naming.RenderRelative` | internal/download/naming.go:175-188 | The rendered path, joined to any directory, stays strictly below it |
| `Utf8.EncodeDecode` | internal/download/naming.go:292-311 | Writing a decoded rune gives back its bytes |
| `Collision.FindFreeSuffix` | internal/download/naming.go:519-543 | The search loops equal the chosen suffix: none, then numbers, then random tries, then one unchecked |
| `Collision.ResolveOutputPaths` | internal/download/naming.go:479-512 | The paths returned are those of the chosen suffix |
| `Collision.ResolvedIsFree` | internal/download/naming.go:479-543 | Every returned path is free, unless the final unchecked suffix was used |
| `Collision.FirstFreeNumber` | internal/download/naming.go:519-529 | With k < 9999 paths taken the suffix is the first free one and its number at most k + 1 |
| `Collision.NumbersDisjoint` | internal/download/naming.go:487-503 | Two different numbers never yield the same path |
| `Collision.WithinBudget` | internal/download/naming.go:479-512 | Media names fit 240 bytes and sidecars 245, fallback suffix included, in the same directory |
| `CoreSupervisor.StepKeeps` | desktop/src/core-supervisor.ts:85-265 | Every call, process event and resumption keeps the supervisor invariant |
| `CoreSupervisor.AtMostOneLive` | desktop/src/core-supervisor.ts:159-200 | No two children are ever live at once; a live one belongs to the current attempt |
| `CoreSupervisor.SpawnCondition` | desktop/src/core-supervisor.ts:163-170 | A child is spawned only while none is live and stop has not been called |
| `CoreSupervisor.NoSpawnAfterStop` | desktop/src/core-supervisor.ts:248-265 | From the call of stop on, no child is ever spawned |
| `CoreSupervisor.StoppedIsFinal` | desktop/src/core-supervisor.ts:248-265 | Once stop has published "stopped" no child is live, and that never changes |
| `CoreSupervisor.LaunchRetries` | desktop/src/core-supervisor.ts:163-189 | A launch spawns at most three children, another one only after a handshaken child exited with 76 |
| `CoreSupervisor.SpawnIsListed` | desktop/src/core-supervisor.ts:169-171 | Every spawned child is counted under the operation that spawned it |
| `CoreSupervisor.SingleFlight` | desktop/src/core-supervisor.ts:85-90 | A pending start operation is only ever given up at its own end |
| `CoreSupervisor.Supervisor.CallStart` | desktop/src/core-supervisor.ts:85-90 | No-op while quitting, ready or starting; else a new operation |
| `CoreSupervisor.Supervisor.TryAgain` | desktop/src/core-supervisor.ts:163-168 | The head of the retry loop |
| `CoreSupervisor.Supervisor.OnPreviousEnded` | desktop/src/core-supervisor.ts:164-168 | A previous child that would not stop ends the launch |
| `CoreSupervisor.Supervisor.OnPort` | desktop/src/core-supervisor.ts:169-172 | The stretch from the free port to the spawn |
| `CoreSupervisor.Supervisor.OnUnready` | desktop/src/core-supervisor.ts:178-183 | The classification of a failed start |
| `CoreSupervisor.Supervisor.OnUnreadyEnded` | desktop/src/core-supervisor.ts:184-189 | Retry, give up, or report a child that would not stop |
| `CoreSupervisor.Supervisor.OnChildExit` | desktop/src/core-supervisor.ts:202-215 | Restart on 75 from a handshaken current child, failure on any other exit, nothing while quitting |
| `CoreSupervisor.Supervisor.OnSlotFree` | desktop/src/core-supervisor.ts:209-210 | The restart starts once the launch has given up its slot, unless quitting |
| `CoreSupervisor.Supervisor.CallStop` | desktop/src/core-supervisor.ts:248-254 | stop marks the object as quitting once |
| `CoreSupervisor.Supervisor.OnOperationDone` | desktop/src/core-supervisor.ts:255-258 | stop waits for the launch before it ends the child |
| `UpdateController.VerifyPending` | desktop/src/update-store.ts:82-93 | A cached file passes iff version, format, a listed name and checksum and its own digest all agree |
| `UpdateController.StepKeeps` | desktop/src/update-controller.ts:62-239 | Every call, driver event and resumption keeps the controller invariant |
| `UpdateController.ReadyMeans` | desktop/src/update-controller.ts:128-147 | Ready implies a current offer and a stored pending record of its version that the offer lists |
| `UpdateController.HandoffCondition` | desktop/src/update-controller.ts:219-229 | quitAndInstall is called only by the install operation, never while closed, for the offer and record it verified, with the attempt stored |
| `UpdateController.VerifiedInOperation` | desktop/src/update-controller.ts:205-222 | An install gets past its verification only by verifying that very pair |
| `UpdateController.HandoffVerified` | desktop/src/update-controller.ts:205-229 | Every handoff of a process life comes after a verification, within the same install operation, of the offer and record still current at the call |
| `UpdateController.HandedOverOnce` | desktop/src/update-controller.ts:62-70 | At most one handoff in a process; resume is called exactly once if it fails and never otherwise; never prepared while closing |
| `UpdateController.BlockedForGood` | desktop/src/update-controller.ts:104-116 | A failed handoff blocks installing for the rest of the process |
| `UpdateController.OneAtATime` | desktop/src/update-controller.ts:118-203 | A check, a download and an install never run past their entry together |
| `UpdateController.Controller.DoCheck` | desktop/src/update-controller.ts:118-122 | When check is refused and when it takes its slot |
| `UpdateController.Controller.DoDownload` | desktop/src/update-controller.ts:156-160 | When download throws, is refused, or takes its slot |
| `UpdateController.Controller.RestartAndInstall` | desktop/src/update-controller.ts:194-198 | When install throws, is refused, or takes its slot |
| `UpdateController.Controller.DoBeginQuit` | desktop/src/update-controller.ts:75-79 | A prepared installer owns the quit |
| `UpdateController.Controller.DriverError` | desktop/src/update-controller.ts:62-70 | Only an error after the handoff takes it back |
| `UpdateController.Controller.DriverDownloaded` | desktop/src/update-controller.ts:57-61 | Only an event of the offered version during an operation is kept |
| `UpdateController.Controller.CheckBegins` | desktop/src/update-controller.ts:123-126 | A check withdraws readiness before it asks the feed |
| `UpdateController.Controller.FeedAnswered` | desktop/src/update-controller.ts:128-142 | From the feed answer to the verification of the cached file |
| `UpdateController.Controller.BeginDownload` | desktop/src/update-controller.ts:161-166 | Nothing to do, nothing offered, or fetching |
| `UpdateController.Controller.DownloadFetched` | desktop/src/update-controller.ts:169-180 | A fetched file without event or checksum fails |
| `UpdateController.Controller.BeginInstall` | desktop/src/update-controller.ts:199-206 | Install begins only ready and with a record |
| `UpdateController.Controller.RejectCached` | desktop/src/update-controller.ts:206-210 | Forgets the record and the readiness, then fails the install through the same path as every other failure |
| `UpdateController.Controller.InstallJudged` | desktop/src/update-controller.ts:205-215 | A record that no longer verifies is forgotten |
| `UpdateController.Controller.CacheRehydrated` | desktop/src/update-controller.ts:218-222 | The attempt is stored before quitting is prepared |
| `UpdateController.Controller.CachedFileJudged` | desktop/src/update-controller.ts:142-143 | A cached file that fails the check is forgotten |
| `UpdateController.Controller.DownloadJudged` | desktop/src/update-controller.ts:180-187 | A download becomes ready only verified and recorded |
| `UpdateController.Controller.FailInstall` | desktop/src/update-controller.ts:230-234 | The catch clause of install |
| `UpdateController.Controller.HandOver` | desktop/src/update-controller.ts:221-229 | The stretch from the prepared quit to the end of the handoff |
| `Session.StepKeeps` | internal/pixiv/service.go:177-360 | Every section of login, logout, refresh, retry and reload keeps the session invariant |
| `Session.ClientMatchesToken` | internal/pixiv/service.go:177-196 | Whenever refreshMu is free the current client carries the stored token, across concurrent reloads |
| `Session.ReplaySameAccount` | internal/pixiv/call.go:20-33 | A retried call replays only with another access token of the account its snapshot named |
| `Session.OneRefreshPerToken` | internal/pixiv/call.go:60-80 | However many calls fail on one access token, at most one retry refreshes it |
| `Session.FirstAttemptPinned` | internal/pixiv/bookmarks.go:88-94 | The first attempt on a bookmark carries the credentials of its own snapshot |
| `Session.ExpiredMeansSignedOut` | internal/pixiv/service.go:252-260 | The expired hint is only ever set while nobody is signed in |
| `Session.Service.Reload` | internal/pixiv/service.go:177-196 | A new client takes over the token; a failed build changes nothing |
| `Session.Service.PublishToken` | internal/pixiv/service.go:339-347 | Token and current client change together |
| `Session.Service.TakeToken` | internal/pixiv/service.go:252-258 | The token is cleared and the client of that moment captured |
| `Session.Service.DecideRetry` | internal/pixiv/call.go:60-72 | A reused token is of the account before the first attempt and not the failed one; only the failed one is refreshed; refused are exactly another account and a failed token nothing can refresh |
| `Session.Service.PinClient` | internal/pixiv/call.go:30-32 | The replay gets its own client; the shared one is untouched |
| `BookmarkLocks.StepKeeps` | internal/pixiv/bookmarks.go:56-84 | Tokens plus holders make one per entry, references count the callers inside, an entry is listed iff there are any |
| `BookmarkLocks.MutualExclusion` | internal/pixiv/bookmarks.go:47-84 | Never two holders for one account and artwork, even as entries come and go |
| `BookmarkLocks.ListedExactly` | internal/pixiv/bookmarks.go:56-84 | An entry exists exactly while a caller is inside; cancelled waiters leak none |
| `BookmarkLocks.ReturnNeverBlocks` | internal/pixiv/bookmarks.go:82 | Releasing finds the gate channel empty |
| `BookmarkLocks.Locks.Enter` | internal/pixiv/bookmarks.go:57-67 | The first caller makes the entry, every caller counts |
| `BookmarkLocks.Locks.Drop` | internal/pixiv/bookmarks.go:68-75 | The last caller deletes the entry |
| `BookmarkTags.Normalize` | internal/pixiv/bookmarks.go:18-36 | Accepted iff encodable; the result is the trimmed tags in first-occurrence order |
| `BookmarkTags.KeptDistinct` | internal/pixiv/bookmarks.go:18-36 | No tag twice, none empty, none lost |
| `BookmarkTags.AcceptedIsFixed` | internal/pixiv/bookmarks.go:18-36 | Normalizing an accepted list again changes nothing |
| `Hub.Ring.Append` | internal/inbox/hub.go:70-72 | The ring holds the last min(count, capacity) events of the log, each in its slot |
| `Hub.Ring.SnapshotSince` | internal/inbox/hub.go:184-222 | The scan of the ring equals the replay computed from the full log |
| `Hub.ReplayIsSuffix` | internal/inbox/hub.go:184-222 | Replay is the matching log suffix after the named event, or "evicted" exactly when it is no longer retained (section 9.2 of the WHATWG HTML standard) |
| `Hub.UnknownIsEvicted` | internal/inbox/hub.go:206-210 | An unknown id is reported as evicted |
| `Hub.Subscriber.Deliver` | internal/inbox/hub.go:97-111 | Send, refuse, or close once when the buffer is full; no panic |
| `Hub.Subscriber.CloseOnce` | internal/inbox/hub.go:228-235 | Closing twice is closing once |
| `Hub.Registry.Publish` | internal/inbox/hub.go:70-80 | The event is logged and the targets are exactly the matching subscribers |
| `Hub.Registry.Subscribe` | internal/inbox/hub.go:134-147 | Replay and registration in one step; after the shutdown neither |
| `Hub.Registry.Shutdown` | internal/inbox/hub.go:154-166 | The first call takes all subscribers out, later ones find none |
| `Hub.NeverPanics` | internal/inbox/hub.go:97-111 | Under any interleaving no channel is closed twice or sent on after close, and at most 64 events wait |
| `Hub.NobodyAfterShutdown` | internal/inbox/hub.go:154-176 | From the shutdown on nobody is subscribed |
| `Hub.StreamExact` | internal/inbox/hub.go:81-111 | Up to a moment of any run the channel is a prefix of the matching log iff every delivery took the oldest event pending for that subscriber |
| `Hub.StreamContinues` | internal/inbox/hub.go:54-89 | As long as deliveries are in order, replay plus channel is a gap-free, duplicate-free prefix of the matching log |
| `Hub.StreamIsGapFree` | internal/inbox/hub.go:54-89 | So it is when publishes do not overlap |
| `Hub.LiveStreamIsGapFree` | internal/inbox/hub.go:54-89 | The same for a subscription without replay |
| `Hub.OverlapReorders` | internal/inbox/hub.go:81-88 | Two overlapping publishes can reach a subscriber in the opposite order |
| `ConfigManager.PruneLossless` | internal/config/manager.go:525-535 | Pruning against static defaults changes no layered value up to JSON equality, for any environment and channel |
| `ConfigManager.PruneMinimal` | internal/config/manager.go:525-535 | No kept key equals its default, a chosen channel is always kept, pruning is idempotent |
| `ConfigManager.CoerceRespectsJson` | internal/config/manager.go:615-642 | Coercion for display respects JSON equality |
| `ConfigManager.MaskHides` | internal/config/manager.go:546-566 | A masked value tells only whether a secret is set and is a valid sentinel |
| `ConfigManager.MaskedPatchKeepsSecret` | internal/config/manager.go:236-241 | Sending a masked value back leaves the stored secret as it is |
| `ConfigManager.LiveMatchesDisk` | internal/config/manager.go:361-367 | After any sequence of requests the live snapshot is the layered view of what is on disk |
| `ConfigManager.Manager.Precheck` | internal/config/manager.go:390-413 | A patch passes iff every key is known, not internal, and masked or valid |
| `ConfigManager.Manager.Merge` | internal/config/manager.go:236-241 | The merge loop skips masked secrets and nothing else |
| `ConfigManager.Manager.Persist` | internal/config/manager.go:336-367 | A refused candidate changes neither disk nor view; an accepted one is pruned, saved and shown |
| `ConfigManager.ErrorKeepsState` | internal/config/manager.go:218-248 | An error changes nothing iff it came before the save, or what was saved was there already |
| `ConfigManager.ErrorAfterSave` | internal/config/manager.go:422-426 | A patch that is saved and live while the caller gets an error |
| `ConfigManager.Manager.DoPatch` | internal/config/manager.go:218-248 | Answered with the current view exactly when allowed, saved and read back; the new state in every case |
| `ConfigManager.Manager.DoReset` | internal/config/manager.go:263-324 | The same for reset by key and reset of all |
| `ConfigManager.Manager.BuildView` | internal/config/manager.go:422-463 | Hot keys show the layered value of the disk, restart-required keys their startup value; the pending list is sorted and exact; secrets are masked |
| `ConfigStore.Unflatten` | internal/config/store.go:110-132 | For any keys in any order: no leaf is made up, every key that conflicts with no other gets its leaf, and without conflicts the leaves are exactly those of the keys |
| `ConfigStore.Flatten` | internal/config/store.go:82-104 | Lists exactly the leaves of a tree without dotted names or an empty name at its root; whatever the tree, no key begins with a dot |
| `ConfigStore.RoundTripExact` | internal/config/store.go:82-132 | Flattening what was nested from prefix-free keys gives the keys back iff none begins with a dot |
| `ConfigStore.FlatFormExact` | internal/config/store.go:106-109 | Keys are the flat form of some such tree iff none begins with a dot or is empty, and none leads through another |
| `ConfigStore.UnflattenFlatten` | internal/config/store.go:82-132 | Nesting what was flattened from a tree without dotted names or empty maps gives the tree back |
| `ConfigEnv.Resolve` | internal/config/config.go:292-331 | The mask search returns a known key of that underscore form with the most dots, for up to 62 underscores |
| `ConfigEnv.OverflowExact` | internal/config/config.go:292-331 | A name that means some known key is resolved to the best one iff it has at most 62 underscores or its all-dots form is known |
| `ConfigEnv.OverflowFails` | internal/config/config.go:307 | A known key of n >= 63 underscores that its own environment name does not give back |
| `ConfigEnv.EnvRoundTrip` | internal/config/config.go:287-331 | With unique underscore forms a known key comes back from its environment name |
| `Pagination.AlwaysSane` | frontend/src/lib/pagination.ts:35-60 | Always 1 <= knownMax <= ceiling and no cursor past knownMax, whatever is observed |
| `Pagination.OrderExact` | frontend/src/lib/pagination.ts:42-60 | For one fixed list, dangling end included, the result depends only on which pages were seen iff the last page and an empty page it points at were not both seen |
| `Pagination.OrderMatters` | frontend/src/lib/pagination.ts:42-60 | Two orders of any such set of pages with different results |
| `Pagination.TrueEndExact` | frontend/src/lib/pagination.ts:42-87 | For every list and every sequence of visits: knownMax passes the true last page iff the list dangles, that page was seen and the empty one behind it not since; a reported last page is wrong iff, moreover, the page two behind was seen empty meanwhile |
| `Pagination.EndReported` | frontend/src/lib/pagination.ts:80-87 | When a last page is reported at all, with and without a dangling end |
| `Pagination.TrueEndBySet` | frontend/src/lib/pagination.ts:42-87 | The same by the set of pages seen, when the last page and the empty one behind it were not both seen |
| `Pagination.StaleLinkMisleads` | frontend/src/lib/pagination.ts:7-9 | A wrong report: the last page, then a stale link two pages behind it |
| `Pagination.Anchors` | frontend/src/lib/pagination.ts:101-104 | The anchors within bounds, deduplicated and sorted |
| `Pagination.BuildPageItems` | frontend/src/lib/pagination.ts:100-113 | From 1 to the upper page in strictly increasing steps, each ellipsis hiding at least two pages, every anchor shown, at most nine items |
| `KeepAlive.NextState` | frontend/src/app/keep-alive/lru.ts:39-73 | The eviction loop terminates and equals the recursive form |
| `KeepAlive.NextGood` | frontend/src/app/keep-alive/lru.ts:39-73 | Unique keys and ids, exactly the active entry un-hidden, at most max entries |
| `KeepAlive.RunGood` | frontend/src/app/keep-alive/lru.ts:34-73 | The same after every navigation of every run |
| `KeepAlive.Survivors` | frontend/src/app/keep-alive/lru.ts:62-70 | Survivors keep their relative order; what was evicted had been hidden no later than any hidden survivor, what was dropped as stale strictly earlier |
| `KeepAlive.IdsNeverReturn` | frontend/src/app/keep-alive/lru.ts:53-60 | An id that has left never comes back |
| `KeepAlive.EvictPicks` | frontend/src/app/keep-alive/lru.ts:62-70 | Eviction drops only hidden entries, oldest first, until the limit holds or none is hidden |

## Left out

- DownloadRuns.AllOrNothing: allows two leftovers, because the code leaves them: a file whose removal failed, and a sidecar of its own that the task could not read back and therefore disowned.
- DownloadPresent.CompletedIsPresent: one way only; a step that is not clean makes a state that is not intact (`StepIntact`), but a completed file may be lost at once, later or never after it.
- DownloadReassign.RecoveryStaysExact: assumes that no turn used the unchecked random suffix, which could reproduce a name by chance; `FewTurnsChecked` says when none does.
- ConfigStore.Flatten: for trees with dotted names or an empty name at the root it promises only the form of the keys, because distinct leaves can get the same key there and map order decides.
- ConfigStore.Unflatten: does not say which of two conflicting keys wins, because map order decides.
- Temporary files of the atomic writers, whose removal errors the code ignores.
- One file action is one step even where it takes several system calls, and the collision resolver sees one state of the disk; a failing existence check, which the code reads as "absent", is not modelled.
- Submitted tasks are enqueued together with the locked section, not one by one behind it.
- Session.ReplaySameAccount: assumes that Pixiv answers a refresh with a fresh access token of the account the refresh token belongs to.
- Tasks and jobs are records in maps that the manager reassigns, not shared pointers; aliasing of one record by several goroutines is represented by its id.
- A removed job whose worker is still finishing keeps its record in the model, as the pointer does in the process.
- Retry counts, backoff times and progress counters: a failed fetch may be retried any number of times.
- File contents, permissions, symbolic links and case-insensitive file systems; the sidecar comparison is an answer of the disk.
- RemoveTerminal, which repeats Remove; list, paging and counts; the progress publisher; Reload of templates and clients.
- HTTP, zip, image and GIF or WebP encoding, templates, minisign and release ranking.
- The 64-bit event counter of the hub is unbounded here, and event ids are taken as distinct where a lemma says so.
- The user-visible snapshot of the update controller (state names, percent, notes, links) and the cancellation token.
- Re-entrant calls from the supervisor's onState callback, and the port value after stop: the code does not re-check quitting between a ready child and the resumed launch.
- The first attempt of an ordinary call uses whatever client is current and may run as an account signed in since the snapshot; only replays and bookmark operations are pinned.
- Settings files edited by hand while the process runs, numbers beyond the range JSON prints without an exponent, and the schema built by reflection.
- The difference between an absent and an empty cursor table, and page numbers below 1, in the pager.
- Two processes sharing a data directory.
