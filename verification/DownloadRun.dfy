/** One process run of the download manager as a transition system: every section under
    `Manager.mu` is one step, and so is every file action of a worker or a cleanup. */
module DownloadRun {
  import opened Utf8
  import opened Naming
  import opened Collision
  import opened Decimals
  import opened DownloadCore
  import opened DownloadPaths

  type WorkerId = nat

  datatype Outcome = Done | Error | Abort

  /** Where a worker stands inside `executeTask`. */
  datatype Stage =
    | Reuse                         // leased; reuseMedia reads the record
    | Stat                          // about to look at the recorded media
    | ZipStat                       // media gone; about to look for a zip beside the converted file
    | Missing(path: Path)           // about to record that the media is gone and where to fetch to
    | Irregular                     // no regular file there; about to disown it
    | ReuseFailed
    | Fetch                         // top of the retry loop
    | Transfer(part: Path)          // copying into the part file
    | FetchFailed(aborted: bool)    // httpDownload returned an error
    | Renamed                       // httpDownload returned nil
    | Convert                       // runUgoiraPostProcessing reads the status
    | Prepare                       // picks the format, loads the frames, looks at the context
    | Create                        // about to create the output
    | Encode(out: Path)             // output created
    | Encoded(out: Path)            // output closed, zip still there
    | Converted(out: Path)          // zip removed, path not yet updated
    | Settle(outcome: Outcome)      // about to take the lock after conversion
    | Sidecar                       // runMetadata reads the status
    | SidecarCheck                  // marshals, then looks at the context
    | SidecarLook                   // about to look for a sidecar and read it back
    | Writing                       // sidecar seen absent
    | SidecarDone(outcome: Outcome) // about to run finishMetadata
    | CompleteReused
    | Finish                        // finalizeTask, first section
    | Report                        // finalizeTask, job section

  datatype Worker = Idle | Busy(task: TaskId, stage: Stage)

  /** Who wrote a file last: one of this run's tasks, or anybody else. */
  datatype Owner = Foreign | By(task: TaskId)

  /** A removal some goroutine has committed to; `cleanup` marks those of a failed or cancelled job. */
  datatype Removal = Removal(job: JobId, path: Path, cleanup: bool)

  /** What `persist` is doing under `saveMu`: the copy it took, and the cleanup that waits for it. */
  datatype Saving = NoSave | Saving(ix: Index, job: JobId, paths: seq<Path>)

  /** `staged`: cleanup paths returned by transitionJobLocked, not yet persisted.
      `written`: every path ever recorded as written. `stuck`: removals that failed, by job and path.
      `unread`: tasks whose own sidecar was there but could not be confirmed. `events`: terminal job events.
      `stored`: what the store file holds. `cleaned`: jobs one of whose cleanup removals has run. */
  datatype State = State(
    ix: Index, queue: multiset<TaskId>, workers: map<WorkerId, Worker>, disk: map<Path, Owner>,
    staged: map<JobId, seq<Path>>, saving: Saving, pending: multiset<Removal>, written: set<(JobId, Path)>,
    stuck: set<(JobId, Path)>, unread: set<TaskId>, events: multiset<JobId>,
    stored: Index, cleaned: set<JobId>, shutdown: bool)

  // ----- one worker's own steps -----

  /** How the outside world answers: success, failure, the context is done, or an I/O error. */
  datatype Oracle = Good | Bad | Aborted | IoError

  /** What a section under the lock does: new task record, next stage, removals decided, paths recorded. */
  datatype LockEffect = LockEffect(task: Task, stage: Stage, drop: seq<Path>, recorded: set<Path>)

  /** What a file action does: next stage, new disk, failed removals, sidecar unreadable. */
  datatype FileEffect = FileEffect(stage: Stage, disk: map<Path, Owner>, stuck: set<Path>, unread: bool)

  datatype Effect = Effect(task: Task, stage: Stage, disk: map<Path, Owner>, drop: seq<Path>,
                           recorded: set<Path>, stuck: set<Path>, unread: bool)

  const PART_PREFIX: Bytes := [0x2E, 0x70, 0x69, 0x78, 0x69, 0x76, 0x62, 0x69, 0x75, 0x2D]
  const PART_SUFFIX: Bytes := [0x2E, 0x70, 0x61, 0x72, 0x74]

  predicate IsPart(p: Path) { |p| >= |PART_SUFFIX| && p[|p| - |PART_SUFFIX|..] == PART_SUFFIX }

  /** `partialPath`: a hidden file in the target directory that carries the task id. */
  function PartPath(path: Path, id: TaskId): (p: Path)
    ensures p != [] && IsPart(p)
  {
    path[..DirLen(path)] + PART_PREFIX + Decimal(id) + PART_SUFFIX
  }

  function AfterMedia(job: Job, reused: bool): Stage {
    if job.kind.Ugoira? then Convert
    else if job.metadata then Sidecar
    else if reused then CompleteReused
    else Finish
  }

  function AfterConvert(job: Job): Stage { if job.metadata then Sidecar else Finish }

  /** `os.Remove`, which may fail and leave the file. */
  function Removed(stage: Stage, disk: map<Path, Owner>, p: Path, stick: bool): FileEffect {
    if stick then FileEffect(stage, disk, {p}, false) else FileEffect(stage, disk - {p}, {}, false)
  }

  predicate ContextDone(t: Task, shutdown: bool) { t.cancelled || shutdown }

  function OutPath(job: Job, t: Task): (p: Path)
    requires job.kind.Ugoira?
    ensures p != []
  {
    ReplaceExt(t.filePath, FormatExt(job.kind.format))
  }

  /** The job's ugoira are converted, and this one still is a zip. */
  predicate ToConvert(job: Job, t: Task) { job.kind.Ugoira? && IsZip(t.filePath) && !job.kind.format.Keep? }

  predicate CanAct(job: Job, id: TaskId, t: Task, stage: Stage, o: Oracle, disk: map<Path, Owner>, shutdown: bool) {
    && (o.Aborted? ==> ContextDone(t, shutdown))
    && match stage
       case Stat => o.Good? || o.IoError? || (o.Bad? && t.filePath in disk && disk[t.filePath].Foreign?)
       case Fetch => !o.IoError?
       case Transfer(part) => if o.Good? then part in disk && t.filePath != [] else !o.IoError?
       case FetchFailed(aborted) => if aborted then o.Good? else !o.IoError?
       case Convert => o.Good? && job.kind.Ugoira?
       case Prepare => if o.Good? then ToConvert(job, t) ==> !ContextDone(t, shutdown) else ToConvert(job, t) && !o.IoError?
       case Create => ToConvert(job, t) && (o.Good? || o.Bad?)
       case Encode(_) => if o.Good? then !ContextDone(t, shutdown) else !o.IoError?
       case SidecarCheck => if o.Good? then !ContextDone(t, shutdown) else !o.IoError?
       case SidecarLook => !o.Aborted? && (o.Bad? ==> t.metadataPath in disk && disk[t.metadataPath] != By(id))
       case Writing => (o.Good? && t.metadataPath != []) || o.Bad?
       case Report => false
       case _ => o.Good?
  }

  predicate IsFileStage(stage: Stage) {
    || stage.Stat? || stage.ZipStat? || stage.Fetch? || stage.Transfer?
    || stage.Prepare? || stage.Create? || stage.Encode? || stage.Encoded?
    || stage.SidecarCheck? || stage.SidecarLook? || stage.Writing?
  }

  /** The task's own sidecar is on disk. */
  predicate HasSidecar(id: TaskId, t: Task, disk: map<Path, Owner>) {
    t.metadataPath in disk && disk[t.metadataPath] == By(id)
  }

  /** What a worker does without the lock; it leaves the task record alone. */
  function ActOnFiles(job: Job, id: TaskId, t: Task, stage: Stage, o: Oracle, stick: bool, disk: map<Path, Owner>, shutdown: bool): (e: FileEffect)
    requires IsFileStage(stage) && CanAct(job, id, t, stage, o, disk, shutdown)
  {
    match stage
    case Stat =>
      if o.IoError? then FileEffect(ReuseFailed, disk, {}, false)
      else if o.Bad? then FileEffect(Irregular, disk, {}, false)
      else if t.filePath in disk then FileEffect(AfterMedia(job, true), disk, {}, false)
      else if job.kind.Ugoira? && !IsZip(t.filePath) then FileEffect(ZipStat, disk, {}, false)
      else FileEffect(Missing(t.filePath), disk, {}, false)
    case ZipStat =>
      var zip := ReplaceExt(t.filePath, ZIP);
      FileEffect(if zip in disk then ReuseFailed else Missing(zip), disk, {}, false)
    case Fetch =>
      if o.Good? then FileEffect(Transfer(PartPath(t.filePath, id)), disk[PartPath(t.filePath, id) := By(id)], {}, false)
      else FileEffect(FetchFailed(o.Aborted?), disk, {}, false)
    case Transfer(part) =>
      if o.Good? then FileEffect(Renamed, (disk - {part})[t.filePath := By(id)], {}, false)
      else Removed(FetchFailed(o.Aborted?), disk, part, stick)
    case Prepare =>
      FileEffect(if !ToConvert(job, t) then Settle(Done) else if o.Good? then Create else Settle(Failing(o)), disk, {}, false)
    case Create =>
      if o.Good? then FileEffect(Encode(OutPath(job, t)), disk[OutPath(job, t) := By(id)], {}, false)
      else FileEffect(Settle(Error), disk, {}, false)
    case Encode(out) =>
      if o.Good? then FileEffect(Encoded(out), disk, {}, false)
      else Removed(Settle(Failing(o)), disk, out, stick)
    case Encoded(out) => Removed(Converted(out), disk, t.filePath, stick)
    case SidecarCheck =>
      if o.Good? then FileEffect(SidecarLook, disk, {}, false)
      else FileEffect(SidecarDone(Failing(o)), disk, {}, o.Bad? && HasSidecar(id, t, disk))
    case SidecarLook =>
      if o.IoError? then FileEffect(SidecarDone(Error), disk, {}, HasSidecar(id, t, disk))
      else if t.metadataPath !in disk then FileEffect(Writing, disk, {}, false)
      else FileEffect(SidecarDone(if o.Good? then Done else Error), disk, {}, false)
    case Writing =>
      if o.Good? then FileEffect(SidecarDone(Done), disk[t.metadataPath := By(id)], {}, false)
      else FileEffect(SidecarDone(Error), disk, {}, false)
  }

  function Failing(o: Oracle): Outcome { if o.Aborted? then Abort else Error }

  /** `finishMetadata`: ownership first, then the status. */
  function SidecarOwned(t: Task, outcome: Outcome): Task {
    t.(wroteMetadata := outcome.Done? || (outcome.Abort? && t.wroteMetadata))
  }

  function SidecarStatus(t: Task, outcome: Outcome, shutdown: bool): Task {
    if outcome.Abort? || ContextDone(t, shutdown) then ResolveCancelled(t, shutdown)
    else if outcome.Error? then Settled(t, Failed)
    else Settled(t, Completed)
  }

  /** Sections under the lock; they leave the disk alone. */
  function ActLocked(job: Job, t: Task, stage: Stage, o: Oracle, shutdown: bool): (e: LockEffect)
    requires !IsFileStage(stage)
  {
    match stage
    case Reuse => LockEffect(t, if t.wroteFile then Stat else Fetch, [], {})
    case Missing(path) => LockEffect(t.(wroteFile := false, filePath := path), Fetch, [], {})
    case Irregular => LockEffect(t.(wroteFile := false), ReuseFailed, [], {})
    case ReuseFailed => LockEffect(Settled(t, Failed), Finish, [], {})
    case FetchFailed(aborted) =>
      if aborted || o.Aborted? then LockEffect(ResolveCancelled(t, shutdown), Finish, [], {})
      else if o.Good? then LockEffect(t, Fetch, [], {})
      else LockEffect(Settled(t, Failed), Finish, [], {})
    case Renamed =>
      var owned := t.(wroteFile := true);
      LockEffect(if job.kind.Ugoira? || job.metadata then owned else Settled(owned, Completed), AfterMedia(job, false),
                 if t.status.IsTerminal() then [t.filePath] else [], {t.filePath})
    case Convert => LockEffect(t, if t.status.IsTerminal() then AfterConvert(job) else Prepare, [], {})
    case Converted(out) => LockEffect(t.(filePath := out), Settle(Done), [], {out})
    case Settle(outcome) =>
      LockEffect(
        if outcome.Done? then if job.metadata then t else Settled(t, Completed)
        else if outcome.Abort? then ResolveCancelled(t, shutdown)
        else Settled(t, Failed),
        AfterConvert(job),
        if outcome.Done? && t.status.IsTerminal() then [t.filePath] else [], {})
    case Sidecar => LockEffect(t, if t.status.Running? then SidecarCheck else Finish, [], {})
    case SidecarDone(outcome) =>
      var t' := SidecarStatus(SidecarOwned(t, outcome), outcome, shutdown);
      LockEffect(t', Finish, if t'.status.Cancelled? then TaskWritten(t') else [],
                 if outcome.Done? then {t.metadataPath} else {})
    case CompleteReused => LockEffect(Settled(t, Completed), Finish, [], {})
    case Finish => LockEffect(t.(armed := false), Report, [], {})
    case Report => LockEffect(t, Report, [], {})
  }

  function Act(job: Job, id: TaskId, t: Task, stage: Stage, o: Oracle, stick: bool, disk: map<Path, Owner>, shutdown: bool): (e: Effect)
    requires CanAct(job, id, t, stage, o, disk, shutdown)
  {
    if IsFileStage(stage) then
      var f := ActOnFiles(job, id, t, stage, o, stick, disk, shutdown);
      Effect(t, f.stage, f.disk, [], {}, f.stuck, f.unread)
    else
      var l := ActLocked(job, t, stage, o, shutdown);
      Effect(l.task, l.stage, disk, l.drop, l.recorded, {}, false)
  }

  // ----- steps of the whole system -----

  datatype Step =
    | Submit(j: JobId, job: Job, tasks: seq<Task>, random: seq<seq<Bytes>>)
    | CancelStep(j: JobId)
    | Remove(j: JobId)
    | Lease(w: WorkerId, t: TaskId)
    | Work(w: WorkerId, o: Oracle, stick: bool)
    | ReportStep(w: WorkerId)
    | BeginSave
    | BeginSaveFor(j: JobId)
    | EndSave(ok: bool)
    | Delete(r: Removal, stick: bool)
    | Outside(p: Path, present: bool)
    | Shutdown

  predicate Holds(s: State, w: WorkerId, t: TaskId) {
    w in s.workers && s.workers[w].Busy? && s.workers[w].task == t
  }

  predicate IsNewTask(j: JobId, job: Job, t: Task) {
    && Unwritten(job.kind, job.metadata, t) && (job.kind.Ugoira? && !job.kind.format.Keep? ==> IsZip(t.filePath))
    && t.job == j && t.status == Queued && !t.armed && !t.cancelled
  }

  /** What `Submit` hands to the locked section: new ids, rendered but unresolved paths. */
  predicate IsSubmission(s: State, j: JobId, job: Job, tasks: seq<Task>, random: seq<seq<Bytes>>) {
    && j !in s.ix.jobs && job.status == Queued && |tasks| == |job.tasks| >= 1
    && Randoms(random, |tasks|)
    && (forall i :: 0 <= i < |tasks| ==> job.tasks[i] !in s.ix.tasks)
    && (forall i, k :: 0 <= i < k < |tasks| ==> job.tasks[i] != job.tasks[k])
    && (forall i :: 0 <= i < |tasks| ==> IsNewTask(j, job, tasks[i]))
  }

  predicate Enabled(s: State, step: Step) {
    match step
    case Submit(j, job, tasks, random) => IsSubmission(s, j, job, tasks, random)
    case CancelStep(j) => j in s.ix.listed && j in s.ix.jobs && !s.ix.jobs[j].status.IsTerminal()
    case Remove(j) => j in s.ix.listed && j in s.ix.jobs && s.ix.jobs[j].status.IsTerminal()
    case Lease(w, t) => w in s.workers && s.workers[w].Idle? && t in s.queue && t in s.ix.tasks
    case Work(w, o, _) =>
      && w in s.workers && s.workers[w].Busy? && s.workers[w].task in s.ix.tasks
      && s.ix.tasks[s.workers[w].task].job in s.ix.jobs
      && var t := s.ix.tasks[s.workers[w].task];
         CanAct(s.ix.jobs[t.job], s.workers[w].task, t, s.workers[w].stage, o, s.disk, s.shutdown)
    case ReportStep(w) =>
      && w in s.workers && s.workers[w].Busy? && s.workers[w].stage.Report? && s.workers[w].task in s.ix.tasks
      && s.ix.tasks[s.workers[w].task].job in s.ix.jobs
    case BeginSave => s.saving.NoSave?
    case BeginSaveFor(j) => s.saving.NoSave? && j in s.staged
    case EndSave(_) => s.saving.Saving?
    case Delete(r, _) => r in s.pending
    case Outside(p, _) => p != []
    case Shutdown => true
  }

  /** The tasks map with freshly resolved tasks under their ids. */
  function WithTasks(tasks: map<TaskId, Task>, ids: seq<TaskId>, ts: seq<Task>): map<TaskId, Task>
    requires |ids| == |ts|
  {
    if ids == [] then tasks else WithTasks(tasks, ids[..|ids| - 1], ts[..|ts| - 1])[ids[|ids| - 1] := ts[|ts| - 1]]
  }

  /** `reservedPathsLocked`. */
  function ReservedPaths(ix: Index): set<Path> {
    set j, t, p | j in ix.listed && j in ix.jobs && t in ix.jobs[j].tasks && t in ix.tasks
               && !ix.tasks[t].status.IsTerminal() && p in Claims(ix.jobs[j].kind, ix.tasks[t]) :: p
  }

  function Submitted(ix: Index, j: JobId, job: Job, tasks: seq<Task>, disk: set<Path>, random: seq<seq<Bytes>>): Index
    requires |tasks| == |job.tasks| && Randoms(random, |tasks|)
  {
    var b := PlaceAll(job.kind, job.metadata, tasks, ReservedPaths(ix), disk, random);
    Index(ix.jobs[j := job], WithTasks(ix.tasks, job.tasks, b.tasks), ix.listed + {j})
  }

  function Get(m: map<JobId, seq<Path>>, j: JobId): seq<Path> { if j in m then m[j] else [] }

  function Removals(j: JobId, ps: seq<Path>, cleanup: bool): (m: multiset<Removal>)
    ensures forall r :: r in m <==> r.job == j && r.cleanup == cleanup && r.path in ps
  {
    if ps == [] then multiset{} else multiset{Removal(j, ps[0], cleanup)} + Removals(j, ps[1..], cleanup)
  }

  /** A job transition under the lock: stage its cleanup, count its terminal event. */
  function Moved(s: State, j: JobId, tr: Transition): State
    requires j in tr.ix.jobs
  {
    s.(ix := tr.ix,
       staged := s.staged[j := Get(s.staged, j) + tr.cleanup],
       events := if tr.changed && tr.ix.jobs[j].status.IsTerminal() then s.events + multiset{j} else s.events)
  }

  /** Paths of the job whose removal failed. */
  function StuckOf(s: State, j: JobId): set<Path> { set x | x in s.stuck && x.0 == j :: x.1 }

  function Worked(s: State, w: WorkerId, e: Effect): State
    requires w in s.workers && s.workers[w].Busy? && s.workers[w].task in s.ix.tasks
  {
    var t := s.workers[w].task;
    var j := s.ix.tasks[t].job;
    s.(ix := s.ix.(tasks := s.ix.tasks[t := e.task]),
       workers := s.workers[w := Busy(t, e.stage)],
       disk := e.disk,
       pending := s.pending + Removals(j, e.drop, false),
       written := s.written + (set p | p in e.recorded :: (j, p)),
       stuck := s.stuck + (set p | p in e.stuck :: (j, p)),
       unread := if e.unread then s.unread + {t} else s.unread)
  }

  function Apply(s: State, step: Step): State
    requires Enabled(s, step) && WellLinked(s.ix)
  {
    match step
    case Submit(j, job, tasks, random) =>
      s.(ix := Submitted(s.ix, j, job, tasks, s.disk.Keys, random), queue := s.queue + multiset(job.tasks))
    case CancelStep(j) => CancelKeepsLinks(s.ix, j); Moved(s, j, CancelJob(s.ix, j))
    case Remove(j) => s.(ix := s.ix.(listed := s.ix.listed - {j}))
    case Lease(w, t) =>
      if s.ix.tasks[t].status.IsTerminal() then s.(queue := s.queue - multiset{t})
      else s.(queue := s.queue - multiset{t}, ix := Leased(s.ix, t), workers := s.workers[w := Busy(t, Reuse)])
    case Work(w, o, stick) =>
      var id := s.workers[w].task;
      var t := s.ix.tasks[id];
      Worked(s, w, Act(s.ix.jobs[t.job], id, t, s.workers[w].stage, o, stick, s.disk, s.shutdown))
    case ReportStep(w) =>
      var j := s.ix.tasks[s.workers[w].task].job;
      Moved(s, j, TransitionJob(s.ix, j)).(workers := s.workers[w := Idle])
    case BeginSave => s.(saving := Saving(s.ix, 0, []))
    case BeginSaveFor(j) => s.(saving := Saving(s.ix, j, s.staged[j]), staged := s.staged - {j})
    case EndSave(ok) =>
      s.(saving := NoSave, stored := if ok then s.saving.ix else s.stored,
         pending := s.pending + Removals(s.saving.job, s.saving.paths, true))
    case Delete(r, stick) =>
      s.(pending := s.pending - multiset{r},
         disk := if stick then s.disk else s.disk - {r.path},
         stuck := if stick then s.stuck + {(r.job, r.path)} else s.stuck,
         cleaned := if r.cleanup then s.cleaned + {r.job} else s.cleaned)
    case Outside(p, present) => s.(disk := if present then s.disk[p := Foreign] else s.disk - {p})
    case Shutdown => s.(shutdown := true)
  }
}
