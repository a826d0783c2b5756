/** What every step of the download manager keeps, and the guarantees that follow. */
module DownloadSafety {
  import opened Utf8
  import opened Naming
  import opened Collision
  import opened DownloadCore
  import opened DownloadPaths
  import opened DownloadRun

  // ----- what one worker step keeps -----

  /** The status a leased task can have at each stage. */
  predicate StageOk(stage: Stage, t: Task, job: Job) {
    && (t.cancelled ==> t.status.Cancelled?)
    && match stage
       case Finish => !t.status.Running?
       case Report => !t.status.Running?
       case Sidecar => job.metadata
       case _ => t.status.Running? || t.status.Cancelled?
  }

  predicate Converting(t: Task, job: Job) { t.wroteFile && t.filePath != [] && job.kind.Ugoira? }

  predicate StageMore(stage: Stage, t: Task, job: Job, shutdown: bool) {
    match stage
    case Stat => t.wroteFile
    case ZipStat => t.wroteFile
    case Missing(_) => t.wroteFile
    case FetchFailed(aborted) => aborted ==> ContextDone(t, shutdown)
    case Convert => Converting(t, job)
    case Prepare => Converting(t, job)
    case Create => Converting(t, job)
    case Encode(out) => Converting(t, job) && out != []
    case Encoded(out) => Converting(t, job) && out != []
    case Converted(out) => Converting(t, job) && out != []
    case Renamed => t.filePath != []
    case Settle(outcome) => Converting(t, job) && (outcome.Abort? ==> ContextDone(t, shutdown))
    case SidecarDone(outcome) => (outcome.Abort? ==> ContextDone(t, shutdown)) && (outcome.Done? ==> t.metadataPath != [])
    case _ => true
  }

  predicate Written(disk: map<Path, Owner>, p: Path, id: TaskId) { p in disk && disk[p] == By(id) }

  /** Paths a stage knows its task does not hold any more. */
  predicate StageDisk(stage: Stage, t: Task, id: TaskId, disk: map<Path, Owner>, stuck: set<Path>, unread: bool) {
    match stage
    case ZipStat => !Written(disk, t.filePath, id)
    case Missing(_) => !Written(disk, t.filePath, id)
    case Irregular => !Written(disk, t.filePath, id)
    case Converted(out) => t.filePath == out || !Written(disk, t.filePath, id) || t.filePath in stuck
    case Writing => !Written(disk, t.metadataPath, id)
    case SidecarDone(outcome) => outcome.Error? ==> !Written(disk, t.metadataPath, id) || unread
    case _ => true
  }

  /** Files a worker has produced and not yet recorded or given up. */
  predicate InFlight(stage: Stage, t: Task, p: Path) {
    match stage
    case Transfer(part) => p == part
    case Renamed => p == t.filePath
    case Encode(out) => p == out
    case Encoded(out) => p == out
    case Converted(out) => p == out
    case Settle(outcome) => outcome.Done? && p == t.filePath
    case SidecarDone(outcome) => outcome.Done? && p == t.metadataPath
    case _ => false
  }

  predicate SameIdentity(a: Task, b: Task) {
    a.job == b.job && a.metadataPath == b.metadataPath && a.cancelled == b.cancelled
  }

  /** A file of this task is recorded in a live job or in flight. */
  predicate Accounted(dead: bool, t: Task, stage: Stage, p: Path) {
    (!dead && Recorded(t, p)) || InFlight(stage, t, p)
  }

  /** One worker's view: its job, its task and stage, the disk, and the failed removals. */
  datatype View = View(job: Job, id: TaskId, t: Task, stage: Stage, disk: map<Path, Owner>, shutdown: bool,
                       stuck: set<Path>, unread: bool)
  {
    predicate Ok() {
      && StageOk(stage, t, job) && StageMore(stage, t, job, shutdown)
      && StageDisk(stage, t, id, disk, stuck, unread)
      && [] !in disk
    }

    predicate Can(o: Oracle) { CanAct(job, id, t, stage, o, disk, shutdown) }

    function Next(e: Effect): View {
      this.(t := e.task, stage := e.stage, disk := e.disk, stuck := stuck + e.stuck, unread := unread || e.unread)
    }

    predicate Explained(dead: bool, p: Path) {
      Accounted(dead, t, stage, p) || p in stuck || (unread && p == t.metadataPath)
    }
  }

  /** A file explained before the step is explained after it, or is among the removals decided. */
  predicate StaysExplained(v: View, e: Effect, dead: bool, p: Path) {
    Written(e.disk, p, v.id) && (Written(v.disk, p, v.id) ==> v.Explained(dead, p))
    ==> v.Next(e).Explained(dead, p) || p in e.drop
  }

  predicate StaysRecorded(v: View, e: Effect, p: Path) {
    Recorded(e.task, p) || p in e.drop ==> Recorded(v.t, p) || p in e.recorded
  }

  predicate OwnWrite(v: View, e: Effect, p: Path) {
    p in e.disk ==> e.disk[p] == By(v.id) || (p in v.disk && e.disk[p] == v.disk[p])
  }

  /** What a step of one worker keeps: a terminal task keeps its status and no task is cancelled
      by its own worker; files are written in its own name only; every file of the task stays
      explained; only recorded paths are dropped. */
  ghost predicate Keeps(v: View, e: Effect) {
    && SameIdentity(e.task, v.t)
    && (v.t.status.IsTerminal() ==> e.task.status == v.t.status)
    && (e.task.status.Cancelled? ==> v.t.status.Cancelled?)
    && (e.task.status.Running? ==> v.t.status.Running?)
    && v.Next(e).Ok()
    && (forall p :: OwnWrite(v, e, p))
    && (forall p, dead :: p != [] && (dead ==> v.t.status.IsTerminal()) ==> StaysExplained(v, e, dead, p))
    && (forall p :: p != [] ==> StaysRecorded(v, e, p))
    && [] !in e.drop
  }

  lemma ReuseKeeps(v: View, o: Oracle, stick: bool)
    requires v.Ok() && v.Can(o) && v.stage.Reuse?
    ensures Keeps(v, Act(v.job, v.id, v.t, v.stage, o, stick, v.disk, v.shutdown))
  {
    hide IsZip, ReplaceExt, PartPath, OutPath, TaskWritten, ContextDone, FormatExt;
  }

  lemma StatKeeps(v: View, o: Oracle, stick: bool)
    requires v.Ok() && v.Can(o) && v.stage.Stat?
    ensures Keeps(v, Act(v.job, v.id, v.t, v.stage, o, stick, v.disk, v.shutdown))
  {
    hide IsZip, ReplaceExt, PartPath, OutPath;
  }

  lemma ZipStatKeeps(v: View, o: Oracle, stick: bool)
    requires v.Ok() && v.Can(o) && v.stage.ZipStat?
    ensures Keeps(v, Act(v.job, v.id, v.t, v.stage, o, stick, v.disk, v.shutdown))
  {
    hide IsZip, ReplaceExt, PartPath, OutPath;
  }

  lemma MissingKeeps(v: View, o: Oracle, stick: bool)
    requires v.Ok() && v.Can(o) && v.stage.Missing?
    ensures Keeps(v, Act(v.job, v.id, v.t, v.stage, o, stick, v.disk, v.shutdown))
  {
    hide IsZip, ReplaceExt, PartPath, OutPath;
  }

  lemma IrregularKeeps(v: View, o: Oracle, stick: bool)
    requires v.Ok() && v.Can(o) && v.stage.Irregular?
    ensures Keeps(v, Act(v.job, v.id, v.t, v.stage, o, stick, v.disk, v.shutdown))
  {
    hide IsZip, ReplaceExt, PartPath, OutPath;
  }

  lemma ReuseFailedKeeps(v: View, o: Oracle, stick: bool)
    requires v.Ok() && v.Can(o) && v.stage.ReuseFailed?
    ensures Keeps(v, Act(v.job, v.id, v.t, v.stage, o, stick, v.disk, v.shutdown))
  {
    hide IsZip, ReplaceExt, PartPath, OutPath;
  }

  lemma FetchKeeps(v: View, o: Oracle, stick: bool)
    requires v.Ok() && v.Can(o) && v.stage.Fetch?
    ensures Keeps(v, Act(v.job, v.id, v.t, v.stage, o, stick, v.disk, v.shutdown))
  {
    hide IsZip, ReplaceExt, PartPath, OutPath;
  }

  lemma TransferKeeps(v: View, o: Oracle, stick: bool)
    requires v.Ok() && v.Can(o) && v.stage.Transfer?
    ensures Keeps(v, Act(v.job, v.id, v.t, v.stage, o, stick, v.disk, v.shutdown))
  {
    hide IsZip, ReplaceExt, PartPath, OutPath;
  }

  lemma FetchFailedKeeps(v: View, o: Oracle, stick: bool)
    requires v.Ok() && v.Can(o) && v.stage.FetchFailed?
    ensures Keeps(v, Act(v.job, v.id, v.t, v.stage, o, stick, v.disk, v.shutdown))
  {
    hide IsZip, ReplaceExt, PartPath, OutPath;
  }

  lemma RenamedKeeps(v: View, o: Oracle, stick: bool)
    requires v.Ok() && v.Can(o) && v.stage.Renamed?
    ensures Keeps(v, Act(v.job, v.id, v.t, v.stage, o, stick, v.disk, v.shutdown))
  {
    hide IsZip, ReplaceExt, PartPath, OutPath;
  }

  lemma ConvertKeeps(v: View, o: Oracle, stick: bool)
    requires v.Ok() && v.Can(o) && v.stage.Convert?
    ensures Keeps(v, Act(v.job, v.id, v.t, v.stage, o, stick, v.disk, v.shutdown))
  {
    hide IsZip, ReplaceExt, PartPath, OutPath;
  }

  lemma PrepareKeeps(v: View, o: Oracle, stick: bool)
    requires v.Ok() && v.Can(o) && v.stage.Prepare?
    ensures Keeps(v, Act(v.job, v.id, v.t, v.stage, o, stick, v.disk, v.shutdown))
  {
    hide IsZip, ReplaceExt, PartPath, OutPath;
  }

  lemma CreateKeeps(v: View, o: Oracle, stick: bool)
    requires v.Ok() && v.Can(o) && v.stage.Create?
    ensures Keeps(v, Act(v.job, v.id, v.t, v.stage, o, stick, v.disk, v.shutdown))
  {
    hide IsZip, ReplaceExt, PartPath, OutPath;
  }

  lemma EncodeKeeps(v: View, o: Oracle, stick: bool)
    requires v.Ok() && v.Can(o) && v.stage.Encode?
    ensures Keeps(v, Act(v.job, v.id, v.t, v.stage, o, stick, v.disk, v.shutdown))
  {
    hide IsZip, ReplaceExt, PartPath, OutPath;
  }

  lemma EncodedKeeps(v: View, o: Oracle, stick: bool)
    requires v.Ok() && v.Can(o) && v.stage.Encoded?
    ensures Keeps(v, Act(v.job, v.id, v.t, v.stage, o, stick, v.disk, v.shutdown))
  {
    hide IsZip, ReplaceExt, PartPath, OutPath;
  }

  lemma ConvertedKeeps(v: View, o: Oracle, stick: bool)
    requires v.Ok() && v.Can(o) && v.stage.Converted?
    ensures Keeps(v, Act(v.job, v.id, v.t, v.stage, o, stick, v.disk, v.shutdown))
  {
    hide IsZip, ReplaceExt, PartPath, OutPath;
  }

  lemma SettleKeeps(v: View, o: Oracle, stick: bool)
    requires v.Ok() && v.Can(o) && v.stage.Settle?
    ensures Keeps(v, Act(v.job, v.id, v.t, v.stage, o, stick, v.disk, v.shutdown))
  {
    hide IsZip, ReplaceExt, PartPath, OutPath;
  }

  lemma SidecarKeeps(v: View, o: Oracle, stick: bool)
    requires v.Ok() && v.Can(o) && v.stage.Sidecar?
    ensures Keeps(v, Act(v.job, v.id, v.t, v.stage, o, stick, v.disk, v.shutdown))
  {
    hide IsZip, ReplaceExt, PartPath, OutPath;
  }

  lemma SidecarCheckKeeps(v: View, o: Oracle, stick: bool)
    requires v.Ok() && v.Can(o) && v.stage.SidecarCheck?
    ensures Keeps(v, Act(v.job, v.id, v.t, v.stage, o, stick, v.disk, v.shutdown))
  {
    hide IsZip, ReplaceExt, PartPath, OutPath;
  }

  lemma SidecarLookKeeps(v: View, o: Oracle, stick: bool)
    requires v.Ok() && v.Can(o) && v.stage.SidecarLook?
    ensures Keeps(v, Act(v.job, v.id, v.t, v.stage, o, stick, v.disk, v.shutdown))
  {
    hide IsZip, ReplaceExt, PartPath, OutPath;
  }

  lemma WritingKeeps(v: View, o: Oracle, stick: bool)
    requires v.Ok() && v.Can(o) && v.stage.Writing?
    ensures Keeps(v, Act(v.job, v.id, v.t, v.stage, o, stick, v.disk, v.shutdown))
  {
    hide IsZip, ReplaceExt, PartPath, OutPath;
  }

  lemma SidecarDoneKeeps(v: View, o: Oracle, stick: bool)
    requires v.Ok() && v.Can(o) && v.stage.SidecarDone?
    ensures Keeps(v, Act(v.job, v.id, v.t, v.stage, o, stick, v.disk, v.shutdown))
  {
    hide TaskWritten, IsZip, ReplaceExt, PartPath, OutPath;
  }

  lemma CompleteReusedKeeps(v: View, o: Oracle, stick: bool)
    requires v.Ok() && v.Can(o) && v.stage.CompleteReused?
    ensures Keeps(v, Act(v.job, v.id, v.t, v.stage, o, stick, v.disk, v.shutdown))
  {
    hide IsZip, ReplaceExt, PartPath, OutPath;
  }

  lemma FinishKeeps(v: View, o: Oracle, stick: bool)
    requires v.Ok() && v.Can(o) && v.stage.Finish?
    ensures Keeps(v, Act(v.job, v.id, v.t, v.stage, o, stick, v.disk, v.shutdown))
  {
    hide IsZip, ReplaceExt, PartPath, OutPath;
  }

  lemma ActKeeps(v: View, o: Oracle, stick: bool)
    requires v.Ok() && v.Can(o)
    ensures Keeps(v, Act(v.job, v.id, v.t, v.stage, o, stick, v.disk, v.shutdown))
  {
    hide Act, Keeps;
    match v.stage {
      case Reuse => ReuseKeeps(v, o, stick);
      case Stat => StatKeeps(v, o, stick);
      case ZipStat => ZipStatKeeps(v, o, stick);
      case Missing(_) => MissingKeeps(v, o, stick);
      case Irregular => IrregularKeeps(v, o, stick);
      case ReuseFailed => ReuseFailedKeeps(v, o, stick);
      case Fetch => FetchKeeps(v, o, stick);
      case Transfer(_) => TransferKeeps(v, o, stick);
      case FetchFailed(_) => FetchFailedKeeps(v, o, stick);
      case Renamed => RenamedKeeps(v, o, stick);
      case Convert => ConvertKeeps(v, o, stick);
      case Prepare => PrepareKeeps(v, o, stick);
      case Create => CreateKeeps(v, o, stick);
      case Encode(_) => EncodeKeeps(v, o, stick);
      case Encoded(_) => EncodedKeeps(v, o, stick);
      case Converted(_) => ConvertedKeeps(v, o, stick);
      case Settle(_) => SettleKeeps(v, o, stick);
      case Sidecar => SidecarKeeps(v, o, stick);
      case SidecarCheck => SidecarCheckKeeps(v, o, stick);
      case SidecarLook => SidecarLookKeeps(v, o, stick);
      case Writing => WritingKeeps(v, o, stick);
      case SidecarDone(_) => SidecarDoneKeeps(v, o, stick);
      case CompleteReused => CompleteReusedKeeps(v, o, stick);
      case Finish => FinishKeeps(v, o, stick);
      case Report => assert false;
    }
  }
}
