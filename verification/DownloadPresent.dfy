/** The positive half of all-or-nothing: a completed task has its files. It holds while nobody outside touches
    the files of listed tasks, and while nothing is submitted onto a path that a failed or cancelled task may
    still write or that is about to be deleted. */
module DownloadPresent {
  import opened Utf8
  import opened Naming
  import opened Collision
  import opened DownloadCore
  import opened DownloadPaths
  import opened DownloadRun
  import opened DownloadSafety
  import opened DownloadInvariant
  import opened DownloadSteps
  import opened DownloadMoves
  import opened DownloadSubmission
  import opened DownloadRuns
  import opened DownloadDisjoint
  import opened DownloadTouch

  // ----- one worker -----

  /** The files a running task has at each stage. */
  predicate HasFiles(v: View) {
    && (v.stage.CompleteReused? ==> !v.job.metadata)
    && (v.t.status.Running? ==>
          match v.stage
          case Encode(out) => v.t.filePath in v.disk && out in v.disk
          case Encoded(out) => out in v.disk
          case Converted(out) => out in v.disk
          case Settle(outcome) => outcome.Done? ==> v.t.filePath in v.disk
          case SidecarDone(outcome) => v.t.filePath in v.disk && (outcome.Done? ==> v.t.metadataPath in v.disk)
          case Renamed => v.t.filePath in v.disk
          case Convert => v.t.filePath in v.disk
          case Prepare => v.t.filePath in v.disk
          case Create => v.t.filePath in v.disk
          case Sidecar => v.t.filePath in v.disk
          case SidecarCheck => v.t.filePath in v.disk
          case SidecarLook => v.t.filePath in v.disk
          case Writing => v.t.filePath in v.disk
          case CompleteReused => v.t.filePath in v.disk
          case _ => true)
  }

  /** The files a running task relies on. */
  function Needs(v: View): set<Path> {
    if !v.t.status.Running? then {}
    else match v.stage
      case Encode(out) => {v.t.filePath, out}
      case Encoded(out) => {out}
      case Converted(out) => {out}
      case Settle(outcome) => if outcome.Done? then {v.t.filePath} else {}
      case SidecarDone(outcome) => if outcome.Done? then {v.t.filePath, v.t.metadataPath} else {v.t.filePath}
      case Renamed => {v.t.filePath}
      case Convert => {v.t.filePath}
      case Prepare => {v.t.filePath}
      case Create => {v.t.filePath}
      case Sidecar => {v.t.filePath}
      case SidecarCheck => {v.t.filePath}
      case SidecarLook => {v.t.filePath}
      case Writing => {v.t.filePath}
      case CompleteReused => {v.t.filePath}
      case _ => {}
  }

  lemma HasFilesIs(v: View)
    ensures HasFiles(v) <==> (v.stage.CompleteReused? ==> !v.job.metadata) && forall p :: p in Needs(v) ==> p in v.disk
  {
    assert v.t.filePath in {v.t.filePath, v.t.metadataPath} && v.t.metadataPath in {v.t.filePath, v.t.metadataPath};
  }

  predicate AllThere(job: Job, t: Task, disk: map<Path, Owner>) {
    t.filePath in disk && (job.metadata ==> t.metadataPath in disk)
  }

  /** A running task keeps the files of its stage and completes only with all of them. */
  ghost predicate Delivers(v: View, e: Effect) {
    && HasFiles(v.Next(e))
    && (e.task.status.Completed? && !v.t.status.Completed? ==> AllThere(v.job, e.task, e.disk))
    && (v.t.status.Completed? ==> e.disk == v.disk && SamePlace(e.task, v.t))
  }

  predicate SamePlace(a: Task, b: Task) { a.filePath == b.filePath && a.metadataPath == b.metadataPath }

  lemma ActDelivers(v: View, o: Oracle, stick: bool)
    requires v.Ok() && v.Can(o) && StageShape(v.job.kind, v.t, v.stage) && HasFiles(v)
    ensures Delivers(v, Act(v.job, v.id, v.t, v.stage, o, stick, v.disk, v.shutdown))
  {
    if v.stage.Encoded? || v.stage.Create? {
      OtherName(v.job, v.t);
    }
    hide IsZip, Ext, ReplaceExt, FormatExt, PartPath, IsPart;
    if IsFileStage(v.stage) {
      FilesDeliver(v, o, stick);
    } else {
      SectionsDeliver(v, o, stick);
    }
  }

  lemma OtherName(job: Job, t: Task)
    requires ToConvert(job, t)
    ensures OutPath(job, t) != t.filePath
  {
    ConvertedShape(job.kind, t);
    hide Ext, ReplaceExt, IsZip;
  }

  lemma FilesDeliver(v: View, o: Oracle, stick: bool)
    requires v.Ok() && v.Can(o) && StageShape(v.job.kind, v.t, v.stage) && HasFiles(v) && IsFileStage(v.stage)
    requires v.stage.Encoded? || v.stage.Create? ==> OutPath(v.job, v.t) != v.t.filePath
    ensures Delivers(v, Act(v.job, v.id, v.t, v.stage, o, stick, v.disk, v.shutdown))
  {
    hide IsZip, Ext, ReplaceExt, FormatExt, PartPath, IsPart, ActLocked, StageMore, StageDisk;
    assert v.t.status.Running? || v.t.status.Cancelled?;
  }

  lemma SectionsDeliver(v: View, o: Oracle, stick: bool)
    requires v.Ok() && v.Can(o) && HasFiles(v) && !IsFileStage(v.stage)
    ensures Delivers(v, Act(v.job, v.id, v.t, v.stage, o, stick, v.disk, v.shutdown))
  {
    hide IsZip, Ext, ReplaceExt, FormatExt, PartPath, IsPart, ActOnFiles, StageDisk, TaskWritten;
  }

  // ----- the whole manager -----

  /** What a task needs to keep: its files once completed, before that all it claims. */
  function Holding(ix: Index, t: TaskId): set<Path>
    requires t in ix.tasks && ix.tasks[t].job in ix.jobs
  {
    if ix.tasks[t].status.Completed? then {ix.tasks[t].filePath, ix.tasks[t].metadataPath} - {[]} else ClaimsOf(ix, t)
  }

  predicate InJob(s: State, t: TaskId) { t in s.ix.tasks && s.ix.tasks[t].job in s.ix.jobs }

  predicate InDead(s: State, t: TaskId)
    requires InJob(s, t)
  {
    s.ix.jobs[s.ix.tasks[t].job].Dead()
  }

  /** Tasks that still act, and those of completed jobs. */
  ghost predicate Matters(s: State, t: TaskId) { InJob(s, t) && (!Retired(s, t) || !InDead(s, t)) }

  ghost predicate Separate(s: State) {
    forall t, u :: t != u && Matters(s, t) && Matters(s, u) ==> Holding(s.ix, t) !! Holding(s.ix, u)
  }

  /** What a task holds is not a part file; unless its job is dead, nothing will delete it and it is nobody else's file. */
  ghost predicate Guarded(s: State, t: TaskId)
    requires InJob(s, t)
  {
    forall p :: p in Holding(s.ix, t) ==>
      && !IsPart(p)
      && (!InDead(s, t) ==> !Scheduled(s, p) && (p in s.disk ==> s.disk[p] == By(t)))
  }

  predicate Complete(s: State, t: TaskId)
    requires InJob(s, t)
  {
    && (!s.ix.jobs[s.ix.tasks[t].job].metadata ==> s.ix.tasks[t].metadataPath == [])
    && (s.ix.tasks[t].status.Completed? && !InDead(s, t) ==> AllThere(s.ix.jobs[s.ix.tasks[t].job], s.ix.tasks[t], s.disk))
  }

  ghost predicate Intact(s: State) {
    && Separate(s)
    && (forall t :: Matters(s, t) ==> Guarded(s, t) && Complete(s, t))
    && WorkersHave(s)
  }

  /** Paths of failed or cancelled tasks whose worker or job is not finished, and paths about to be deleted. */
  ghost predicate Draining(s: State, p: Path) {
    || Scheduled(s, p)
    || exists u :: Matters(s, u) && s.ix.tasks[u].status.IsTerminal() && p in Holding(s.ix, u)
                   && !(s.ix.tasks[u].status.Completed? && !InDead(s, u))
  }

  /** A path no task but `t` holds; unless the job of `t` is dead, it is not about to be deleted and nobody else's file. */
  ghost predicate FreeFor(s: State, t: TaskId, p: Path)
    requires InJob(s, t)
  {
    && !IsPart(p) && (forall u :: u != t && Matters(s, u) ==> p !in Holding(s.ix, u))
    && (!InDead(s, t) ==> !Scheduled(s, p) && (p in s.disk ==> s.disk[p] == By(t)))
  }

  /** The steps after which everything is still intact. A submission's paths are unreserved, not on disk, not draining
      and no part files; a fallback's zip is free for it; nobody outside puts a file where a task of a live job
      holds a path, or takes one away that a completed or running task relies on. */
  ghost predicate Clean(s: State, step: Step)
    requires Enabled(s, step)
  {
    match step
    case Submit(j, job, tasks, random) =>
      && LuckyBatch(job.kind, job.metadata, tasks, ReservedPaths(s.ix), s.disk.Keys, random)
      && var ts := PlaceAll(job.kind, job.metadata, tasks, ReservedPaths(s.ix), s.disk.Keys, random).tasks;
         forall i, p :: 0 <= i < |ts| && p in Claims(job.kind, ts[i]) ==> p !in s.disk && !Draining(s, p) && !IsPart(p)
    case Work(w, _, _) =>
      var t := s.workers[w].task;
      FallsBack(ViewOf(s, w, t)) ==> FreeFor(s, t, s.workers[w].stage.path)
    case Outside(p, present) =>
      if present then Unclaimed(s, p) else p !in s.disk || Unneeded(s, p)
    case _ => true
  }

  /** No task of a live job holds the path. */
  ghost predicate Unclaimed(s: State, p: Path) { forall t :: Matters(s, t) && !InDead(s, t) ==> p !in Holding(s.ix, t) }

  /** Neither a completed task of a live job nor a running one relies on the file. */
  ghost predicate Unneeded(s: State, p: Path) {
    && (forall t :: Matters(s, t) && !InDead(s, t) && s.ix.tasks[t].status.Completed? ==> p !in Holding(s.ix, t))
    && (forall w, t :: Placed?(s, w, t) ==> p !in Needs(ViewOf(s, w, t)))
  }

  // ----- steps -----

  /** No task comes to matter, and those that still do hold the same. */
  ghost predicate CalmTask(s: State, s': State, t: TaskId) {
    Matters(s', t) ==>
      && Matters(s, t) && Holding(s'.ix, t) == Holding(s.ix, t) && (InDead(s, t) ==> InDead(s', t))
      && s'.ix.jobs[s'.ix.tasks[t].job].metadata == s.ix.jobs[s.ix.tasks[t].job].metadata
      && SamePlace(s'.ix.tasks[t], s.ix.tasks[t]) && (s'.ix.tasks[t].status.Completed? ==> s.ix.tasks[t].status.Completed?)
  }

  /** What a task of a job that is not dead holds is neither changed nor scheduled. */
  ghost predicate CalmPath(s: State, s': State, t: TaskId, p: Path) {
    Matters(s', t) && Matters(s, t) && !InDead(s', t) && p in Holding(s.ix, t) ==>
      SameAt(s.disk, s'.disk, p) && (Scheduled(s', p) ==> Scheduled(s, p))
  }

  ghost predicate WorkersHave(s: State) { forall w, t :: Placed?(s, w, t) ==> HasFiles(ViewOf(s, w, t)) }

  /** What the steps that do not work on files or paths share. */
  ghost predicate Calm(s: State, s': State) {
    (forall t :: CalmTask(s, s', t)) && (forall t, p :: CalmPath(s, s', t, p)) && WorkersHave(s')
  }

  lemma CalmIntact(s: State, s': State)
    requires Intact(s) && Calm(s, s') && [] !in s.disk
    ensures Intact(s')
  {
    hide Retired, Scheduled, WorkersHave, ClaimsOf, IsPart, CalmPath, CalmTask;
    forall t | Matters(s', t) ensures Guarded(s', t) && Complete(s', t) {
      assert CalmTask(s, s', t) && forall p :: CalmPath(s, s', t, p);
      CalmOne(s, s', t);
    }
    forall t, u | t != u && Matters(s', t) && Matters(s', u) ensures Holding(s'.ix, t) !! Holding(s'.ix, u) {
      CalmSame(s, s', t);
      CalmSame(s, s', u);
    }
    hide Guarded, Complete, Holding, InDead, Matters;
  }

  lemma CalmSame(s: State, s': State, t: TaskId)
    requires CalmTask(s, s', t) && Matters(s', t)
    ensures Matters(s, t) && Holding(s'.ix, t) == Holding(s.ix, t)
  {
    hide Holding, Retired;
  }

  lemma CalmOne(s: State, s': State, t: TaskId)
    requires Matters(s', t) && CalmTask(s, s', t) && (forall p :: CalmPath(s, s', t, p)) && [] !in s.disk
    requires Matters(s, t) ==> Guarded(s, t) && Complete(s, t)
    ensures Guarded(s', t) && Complete(s', t)
  {
    hide Retired, Scheduled, ClaimsOf, IsPart;
    if s'.ix.tasks[t].status.Completed? && !InDead(s', t) {
      assert s.ix.tasks[t].filePath in Holding(s.ix, t);
      assert CalmPath(s, s', t, s.ix.tasks[t].filePath) && CalmPath(s, s', t, s.ix.tasks[t].metadataPath);
      if s.ix.tasks[t].metadataPath != [] {
        assert s.ix.tasks[t].metadataPath in Holding(s.ix, t);
      }
    }
    forall p | p in Holding(s'.ix, t)
      ensures !IsPart(p) && (!InDead(s', t) ==> !Scheduled(s', p) && (p in s'.disk ==> s'.disk[p] == By(t)))
    {
      assert CalmPath(s, s', t, p);
    }
  }

  /** The files a worker relies on are among what its task claims. */
  lemma HasFilesKept(v: View, disk: map<Path, Owner>)
    requires v.Ok() && StageShape(v.job.kind, v.t, v.stage) && HasFiles(v)
    requires v.t.status.Running? ==> forall p :: p in Claims(v.job.kind, v.t) ==> SameAt(v.disk, disk, p)
    ensures HasFiles(v.(disk := disk))
  {
    if (v.stage.Encode? || v.stage.Encoded? || v.stage.Converted?) && v.t.status.Running? {
      ReplacedNonempty(v.t.filePath, FormatExt(v.job.kind.format));
      ConvertedShape(v.job.kind, v.t);
      assert v.stage.out in Claims(v.job.kind, v.t);
    }
    hide IsZip, Ext, ReplaceExt, FormatExt, IsPart, FinalPath, StageOk, StageDisk;
    assert v.t.filePath in v.disk ==> v.t.filePath in Claims(v.job.kind, v.t);
    assert v.t.metadataPath in v.disk ==> v.t.metadataPath in Claims(v.job.kind, v.t);
  }

  lemma RecordedHeld(ix: Index, t: TaskId, p: Path)
    requires t in ix.tasks && ix.tasks[t].job in ix.jobs && Recorded(ix.tasks[t], p)
    ensures p in Holding(ix, t)
  {
    RecordedClaimed(ix.jobs[ix.tasks[t].job].kind, ix.tasks[t], p);
    hide FinalPath;
  }

  lemma HoldingClaims(ix: Index, t: TaskId)
    requires t in ix.tasks && ix.tasks[t].job in ix.jobs
    ensures Holding(ix, t) <= ClaimsOf(ix, t)
    ensures !ix.tasks[t].status.Completed? ==> Holding(ix, t) == ClaimsOf(ix, t)
  {
    hide FinalPath;
  }

  /** A running task's job is not dead, and the task matters. */
  lemma RunningMatters(s: State, w: WorkerId, t: TaskId)
    requires TasksOk(s) && JobsOk(s) && Placed?(s, w, t)
    ensures Matters(s, t) && (s.ix.tasks[t].status.Running? ==> !InDead(s, t)) && (s.ix.tasks[t].status.Cancelled? ==> InDead(s, t))
  {
    assert Held(s, t);
    assert TaskOk(s, t) && JobOk(s, s.ix.tasks[t].job);
    LinkedJob(s.ix);
    hide JobAggregate, WellLinked;
  }

  // ----- cancelling and reporting -----

  lemma ReportsCalm(s: State, s': State, j: JobId)
    requires WellLinked(s.ix) && Intact(s) && Reports(s, s', j) && OverStays(s, s')
    requires forall w, t :: Holds(s', w, t) ==> Holds(s, w, t) && s'.workers[w] == s.workers[w]
    ensures Calm(s, s')
  {
    LinkedJob(s.ix);
    hide WellLinked, Intact, Reports, OverStays, CalmTask, CalmPath, HasFiles;
    forall t ensures CalmTask(s, s', t) {
      ReportedMatters(s, s', j, t);
    }
    forall t, p ensures CalmPath(s, s', t, p) {
      ReportedScheduled(s, s', j, t, p);
    }
    forall w, t | Placed?(s', w, t) ensures HasFiles(ViewOf(s', w, t)) {
      ReportedFiles(s, s', j, w, t);
    }
  }

  lemma ReportedMatters(s: State, s': State, j: JobId, t: TaskId)
    requires Reports(s, s', j) && OverStays(s, s')
    requires forall u :: u in s.ix.tasks ==> s.ix.tasks[u].job in s.ix.jobs
    requires forall w, u :: Holds(s', w, u) ==> Holds(s, w, u)
    ensures CalmTask(s, s', t)
  {
    hide Claims, Retired, JobAggregate, WellLinked, Get, JobRecorded, Reports, OverStays, ClaimsOf;
    if t in s'.ix.tasks {
      ReportedTask(s, s', j, t);
      ReportedStatus(s, s', j, t);
    }
  }

  lemma ReportedStatus(s: State, s': State, j: JobId, t: TaskId)
    requires Reports(s, s', j) && t in s.ix.tasks && t in s'.ix.tasks && s.ix.tasks[t].job in s.ix.jobs && s'.ix.tasks[t].job == s.ix.tasks[t].job
    ensures SamePlace(s'.ix.tasks[t], s.ix.tasks[t]) && (s'.ix.tasks[t].status.Completed? <==> s.ix.tasks[t].status.Completed?)
    ensures var i := s.ix.tasks[t].job;
      i in s'.ix.jobs && s'.ix.jobs[i].metadata == s.ix.jobs[i].metadata && (s.ix.jobs[i].Dead() ==> s'.ix.jobs[i].Dead())
  {
    hide JobAggregate, WellLinked, Get, JobRecorded, AllOver;
  }

  lemma ReportedScheduled(s: State, s': State, j: JobId, t: TaskId, p: Path)
    requires Reports(s, s', j) && OverStays(s, s') && Intact(s)
    ensures CalmPath(s, s', t, p)
  {
    assert Separate(s);
    hide WellLinked, JobAggregate, Claims, AllOver, Holding, Guarded, Complete, WorkersHave, Retired;
    if Scheduled(s', p) && !Scheduled(s, p) {
      var i: JobId :| Owed(s', i, p);
      var u := DyingHolder(s, s', j, i, p);
    }
  }

  lemma DyingHolder(s: State, s': State, j: JobId, i: JobId, p: Path) returns (u: TaskId)
    requires Reports(s, s', j) && Owed(s', i, p) && !Scheduled(s, p)
    ensures Matters(s, u) && p in Holding(s.ix, u) && u in s'.ix.tasks && s'.ix.tasks[u].job == j && InJob(s', u) && InDead(s', u)
  {
    hide WellLinked, JobAggregate, Claims, AllOver, Holding, Recorded;
    LinkedTasksOf(s.ix, j);
    LinkedTasksOf(s'.ix, j);
    assert !Owed(s, i, p);
    u :| u in s'.ix.jobs[j].tasks && u in s'.ix.tasks && Recorded(s'.ix.tasks[u], p);
    SameFiles(s.ix.tasks[u], s'.ix.tasks[u], p);
    RecordedHeld(s.ix, u, p);
  }

  lemma ReportedFiles(s: State, s': State, j: JobId, w: WorkerId, t: TaskId)
    requires Reports(s, s', j) && Placed?(s', w, t) && Holds(s, w, t) && s'.workers[w] == s.workers[w] && Intact(s)
    requires forall u :: u in s.ix.tasks ==> s.ix.tasks[u].job in s.ix.jobs
    ensures HasFiles(ViewOf(s', w, t))
  {
    hide WellLinked, JobAggregate, Get, JobRecorded, AllOver, Separate, Guarded, Complete;
    assert Placed?(s, w, t) && HasFiles(ViewOf(s, w, t));
  }

  lemma CancelIntact(s: State, j: JobId)
    requires Inv(s) && WellLinked(s.ix) && Shapes(s) && Intact(s) && Enabled(s, CancelStep(j))
    ensures Intact(Apply(s, CancelStep(j)))
  {
    hide WellLinked, Reports, Intact, Shapes, CancelJob, Tokens, WorkersOk, TasksOk, JobsOk, Files, Deletions, Events, Store, OverStays, Advances, Calm;
    InvBasics(s);
    CancelReports(s, j);
    CancelProgress(s, j);
    var s' := Apply(s, CancelStep(j));
    assert s'.workers == s.workers;
    hide Apply, Inv;
    ReportsCalm(s, s', j);
    CalmIntact(s, s');
  }

  lemma ReportIntact(s: State, w: WorkerId)
    requires Inv(s) && WellLinked(s.ix) && Shapes(s) && Intact(s) && Enabled(s, ReportStep(w))
    ensures Intact(Apply(s, ReportStep(w)))
  {
    hide WellLinked, Reports, Intact, Shapes, TransitionJob, Tokens, WorkersOk, TasksOk, JobsOk, Files, Deletions, Events, Store, OverStays, Advances, Calm;
    InvBasics(s);
    ReportProgress(s, w);
    var j := s.ix.tasks[s.workers[w].task].job;
    TransitionIndex(s.ix, j);
    var m := Moved(s, j, TransitionJob(s.ix, j));
    TransitionReports(s, j);
    hide Inv, JobRecorded;
    var s' := Apply(s, ReportStep(w));
    assert s' == m.(workers := s'.workers) && s'.workers == s.workers[w := Idle];
    hide Apply;
    ReportsWorkerless(s, m, s', j);
    ReportsCalm(s, s', j);
    CalmIntact(s, s');
  }

  // ----- leases -----

  lemma LeaseIntact(s: State, w: WorkerId, t: TaskId)
    requires Inv(s) && WellLinked(s.ix) && Intact(s) && Enabled(s, Lease(w, t))
    ensures Intact(Apply(s, Lease(w, t)))
  {
    hide WellLinked, Takes, Intact, Tokens, WorkersOk, TasksOk, JobsOk, Files, Deletions, Events, Store, Calm;
    InvBasics(s);
    var s' := Apply(s, Lease(w, t));
    if s.ix.tasks[t].status.IsTerminal() {
      assert s' == s.(queue := s'.queue);
      hide Apply, Enabled, Inv;
      SameCalm(s, s');
    } else {
      LeaseTakes(s, s', w, t);
      LeasedTokens(s, s', w, t);
      hide Apply, Enabled, Inv;
      TakesCalm(s, s', w, t);
    }
    CalmIntact(s, s');
  }

  lemma TakesCalm(s: State, s': State, w: WorkerId, t: TaskId)
    requires Takes(s, s', w, t) && Intact(s)
    requires forall v, u :: Holds(s', v, u) <==> Holds(s, v, u) || (v == w && u == t)
    requires forall v :: !Holds(s, v, t)
    ensures Calm(s, s')
  {
    assert s'.disk == s.disk && forall p :: Scheduled(s', p) <==> Scheduled(s, p) by {
      assert forall i: JobId, p :: Owed(s', i, p) <==> Owed(s, i, p);
    }
    hide Intact, CalmTask, Holds, HasFiles, Scheduled;
    forall u ensures CalmTask(s, s', u) {
      TakenCalm(s, s', w, t, u);
    }
    forall v, u | Placed?(s', v, u) ensures HasFiles(ViewOf(s', v, u)) {
      TakenFiles(s, s', w, t, v, u);
    }
    hide Takes, Holding, Matters, InDead;
  }

  lemma TakenCalm(s: State, s': State, w: WorkerId, t: TaskId, u: TaskId)
    requires Takes(s, s', w, t)
    requires forall x, y :: Holds(s', x, y) <==> Holds(s, x, y) || (x == w && y == t)
    ensures CalmTask(s, s', u)
  {
    hide Holds, Claims;
    if InJob(s', u) {
      TakenTask(s, s', w, t, u);
    }
  }

  lemma TakenFiles(s: State, s': State, w: WorkerId, t: TaskId, v: WorkerId, u: TaskId)
    requires Takes(s, s', w, t) && Intact(s) && Placed?(s', v, u)
    requires forall x, y :: Holds(s', x, y) <==> Holds(s, x, y) || (x == w && y == t)
    requires forall x :: !Holds(s, x, t)
    ensures HasFiles(ViewOf(s', v, u))
  {
    hide Separate, Guarded, Complete, Claims;
    if v != w {
      assert Placed?(s, v, u) && HasFiles(ViewOf(s, v, u));
    }
  }

  // ----- steps that change neither tasks nor jobs nor workers -----

  lemma SameTasks(s: State, s': State, t: TaskId)
    requires s'.ix.tasks == s.ix.tasks && s'.ix.jobs == s.ix.jobs && s'.workers == s.workers
    ensures CalmTask(s, s', t) && (Matters(s', t) <==> Matters(s, t)) && (InJob(s, t) ==> (InDead(s', t) <==> InDead(s, t)))
  {
    hide Claims;
    assert forall w, u :: Holds(s', w, u) <==> Holds(s, w, u);
    assert forall u :: Held(s', u) <==> Held(s, u);
    hide Holds, Held;
  }

  lemma SameCalm(s: State, s': State)
    requires Intact(s) && s'.ix.tasks == s.ix.tasks && s'.ix.jobs == s.ix.jobs && s'.workers == s.workers && s'.disk == s.disk
    requires forall j: JobId, p :: Owed(s', j, p) ==> Owed(s, j, p)
    ensures Calm(s, s')
  {
    hide Separate, Guarded, Complete, Owed, HasFiles, CalmTask, Holding, Matters;
    forall t ensures CalmTask(s, s', t) {
      SameTasks(s, s', t);
    }
    forall t, p ensures CalmPath(s, s', t, p) {
      assert Scheduled(s', p) ==> Scheduled(s, p);
    }
    forall w, t | Placed?(s', w, t) ensures HasFiles(ViewOf(s', w, t)) {
      assert Placed?(s, w, t) && HasFiles(ViewOf(s, w, t));
      SameButStuck(ViewOf(s, w, t), ViewOf(s', w, t));
    }
    assert forall t :: CalmTask(s, s', t);
    assert forall t, p :: CalmPath(s, s', t, p);
    assert WorkersHave(s');
  }

  lemma SameButStuck(v: View, v': View)
    requires HasFiles(v) && v'.job == v.job && v'.t == v.t && v'.stage == v.stage && v'.disk == v.disk
    ensures HasFiles(v')
  {
  }

  /** One file goes or comes that nobody relies on. */
  lemma FileCalm(s: State, s': State, q: Path)
    requires Inv(s) && Shapes(s) && Intact(s) && s'.ix == s.ix && s'.workers == s.workers
    requires forall p :: p != q ==> SameAt(s.disk, s'.disk, p)
    requires forall t :: Matters(s, t) && !InDead(s, t) ==> q !in Holding(s.ix, t)
    requires forall j: JobId, p :: Owed(s', j, p) ==> Owed(s, j, p)
    ensures Calm(s, s')
  {
    hide Inv, Intact, Shapes, Owed, HasFiles, SameAt, Holding, Matters, CalmTask;
    forall t ensures CalmTask(s, s', t) && (InJob(s, t) ==> (InDead(s', t) <==> InDead(s, t))) {
      SameTasks(s, s', t);
    }
    assert forall p :: Scheduled(s', p) ==> Scheduled(s, p);
    forall t, p ensures CalmPath(s, s', t, p) {
      SameTasks(s, s', t);
    }
    forall w, t | Placed?(s', w, t) ensures HasFiles(ViewOf(s', w, t)) {
      assert Placed?(s, w, t);
      FileView(s, s', q, w, t);
    }
  }

  lemma FileView(s: State, s': State, q: Path, w: WorkerId, t: TaskId)
    requires Inv(s) && Shapes(s) && Intact(s) && s'.ix == s.ix && s'.workers == s.workers && Placed?(s, w, t) && Placed?(s', w, t)
    requires forall p :: p != q ==> SameAt(s.disk, s'.disk, p)
    requires forall u :: Matters(s, u) && !InDead(s, u) ==> q !in Holding(s.ix, u)
    ensures HasFiles(ViewOf(s', w, t))
  {
    hide Tokens, Files, Deletions, Events, Store, WellLinked, TaskOk, JobOk, StageShape, TaskShape, Separate, Guarded, Complete, HasFiles, Claims, SameAt, Holding;
    var v := ViewOf(s, w, t);
    assert v.Ok() && HasFiles(v) && StageShape(v.job.kind, v.t, v.stage);
    RunningMatters(s, w, t);
    HoldingClaims(s.ix, t);
    hide View.Ok, WorkersOk, TasksOk, JobsOk, Shapes;
    HasFilesKept(v, s'.disk);
    SameButStuck(v.(disk := s'.disk), ViewOf(s', w, t));
  }

  lemma OtherIntact(s: State, step: Step)
    requires Inv(s) && WellLinked(s.ix) && Shapes(s) && Intact(s) && Enabled(s, step)
    requires step.Remove? || step.BeginSave? || step.BeginSaveFor? || step.EndSave? || step.Delete? || step.Shutdown?
    ensures Intact(Apply(s, step))
  {
    hide Inv, WellLinked, Intact, Shapes, Calm, Removals, Claims;
    InvBasics(s);
    var s' := Apply(s, step);
    OtherOwed(s, step);
    if step.Delete? {
      var q := step.r.path;
      assert s'.ix == s.ix && s'.workers == s.workers;
      assert forall p :: p != q ==> SameAt(s.disk, s'.disk, p);
      forall t | Matters(s, t) && !InDead(s, t) ensures q !in Holding(s.ix, t) {
        DeletedUnheld(s, step.r, t);
      }
      hide Apply, Enabled, Owed, SameAt, Holding, Matters;
      FileCalm(s, s', q);
    } else {
      assert s'.ix.tasks == s.ix.tasks && s'.ix.jobs == s.ix.jobs && s'.workers == s.workers && s'.disk == s.disk;
      hide Apply, Enabled, Owed;
      SameCalm(s, s');
    }
    CalmIntact(s, s');
  }

  // ----- files that come and go from outside -----

  lemma OutsideIntact(s: State, q: Path, present: bool)
    requires Inv(s) && WellLinked(s.ix) && Shapes(s) && Intact(s) && q != []
    ensures Intact(Apply(s, Outside(q, present))) <==> Clean(s, Outside(q, present))
  {
    hide Inv, WellLinked, Intact, Shapes, Calm, Claims, Unclaimed, Unneeded;
    InvBasics(s);
    var s' := Apply(s, Outside(q, present));
    assert s' == s.(disk := if present then s.disk[q := Foreign] else s.disk - {q});
    hide Apply;
    if present {
      if Unclaimed(s, q) {
        OutsideCalm(s, s', q);
        CalmIntact(s, s');
      }
      if Intact(s') {
        PutUnclaimed(s, s', q);
      }
    } else if q in s.disk {
      if Unneeded(s, q) {
        TakenIntact(s, s', q);
      }
      if Intact(s') {
        TakenUnneeded(s, s', q);
      }
    } else {
      assert s'.disk == s.disk;
    }
  }

  lemma OutsideCalm(s: State, s': State, q: Path)
    requires Inv(s) && Shapes(s) && Intact(s) && s' == s.(disk := s.disk[q := Foreign]) && Unclaimed(s, q)
    ensures Calm(s, s')
  {
    hide Inv, Intact, Shapes, Calm, Claims, Holding, Matters;
    FileCalm(s, s', q);
  }

  lemma PutUnclaimed(s: State, s': State, q: Path)
    requires Intact(s') && s' == s.(disk := s.disk[q := Foreign])
    ensures Unclaimed(s, q)
  {
    hide Separate, Complete, WorkersHave, Holding, Scheduled, IsPart;
    forall t | Matters(s, t) && !InDead(s, t) ensures q !in Holding(s.ix, t) {
      SameTasks(s, s', t);
      assert Guarded(s', t);
    }
  }

  lemma TakenIntact(s: State, s': State, q: Path)
    requires Intact(s) && s' == s.(disk := s.disk - {q}) && Unneeded(s, q) && [] !in s.disk
    ensures Intact(s')
  {
    hide Retired, Scheduled, IsPart, Claims;
    forall t ensures Matters(s', t) <==> Matters(s, t) {
      SameTasks(s, s', t);
    }
    assert forall p :: Scheduled(s', p) <==> Scheduled(s, p) by { SameSchedule(s, s'); }
    hide Matters;
    forall t | Matters(s', t) ensures InJob(s', t) && Guarded(s', t) && Complete(s', t) {
      TakenTask2(s, s', q, t);
    }
    forall w, t | Placed?(s', w, t) ensures HasFiles(ViewOf(s', w, t)) {
      TakenView(s, s', q, w, t);
    }
    assert Separate(s');
    assert WorkersHave(s');
  }

  lemma SameSchedule(s: State, s': State)
    requires s'.staged == s.staged && s'.saving == s.saving && s'.pending == s.pending
    ensures forall p :: Scheduled(s', p) <==> Scheduled(s, p)
  {
    assert forall j: JobId, p :: Owed(s', j, p) <==> Owed(s, j, p);
  }

  lemma TakenTask2(s: State, s': State, q: Path, t: TaskId)
    requires Intact(s) && s' == s.(disk := s.disk - {q}) && Unneeded(s, q) && [] !in s.disk && Matters(s, t)
    requires forall p :: Scheduled(s', p) <==> Scheduled(s, p)
    ensures InJob(s', t) && Guarded(s', t) && Complete(s', t)
  {
    hide Retired, Scheduled, IsPart, ClaimsOf, Separate, WorkersHave;
    assert Guarded(s, t) && Complete(s, t);
  }

  lemma TakenView(s: State, s': State, q: Path, w: WorkerId, t: TaskId)
    requires Intact(s) && s' == s.(disk := s.disk - {q}) && Unneeded(s, q) && Placed?(s', w, t)
    ensures HasFiles(ViewOf(s', w, t))
  {
    hide Separate, Guarded, Complete, Matters, HasFiles;
    assert Placed?(s, w, t) && HasFiles(ViewOf(s, w, t));
    HasFilesIs(ViewOf(s, w, t));
    HasFilesIs(ViewOf(s', w, t));
  }

  lemma TakenUnneeded(s: State, s': State, q: Path)
    requires Intact(s) && Intact(s') && s' == s.(disk := s.disk - {q}) && q != []
    ensures Unneeded(s, q)
  {
    hide Separate, Guarded, Retired, HasFiles;
    forall t | Matters(s, t) && !InDead(s, t) && s.ix.tasks[t].status.Completed? ensures q !in Holding(s.ix, t) {
      SameTasks(s, s', t);
      assert Complete(s, t) && Complete(s', t);
    }
    forall w, t | Placed?(s, w, t) ensures q !in Needs(ViewOf(s, w, t)) {
      assert Placed?(s', w, t) && HasFiles(ViewOf(s', w, t));
      HasFilesIs(ViewOf(s', w, t));
    }
  }

  lemma OtherOwed(s: State, step: Step)
    requires WellLinked(s.ix) && Enabled(s, step)
    requires step.Remove? || step.BeginSave? || step.BeginSaveFor? || step.EndSave? || step.Delete? || step.Outside? || step.Shutdown?
    ensures forall j: JobId, p :: Owed(Apply(s, step), j, p) ==> Owed(s, j, p)
  {
    hide WellLinked;
  }

  lemma DeletedUnheld(s: State, r: Removal, t: TaskId)
    requires Intact(s) && r in s.pending && Matters(s, t) && !InDead(s, t)
    ensures r.path !in Holding(s.ix, t)
  {
    hide Separate, Complete, HasFiles, Holding, IsPart;
    assert Guarded(s, t);
    assert Owed(s, r.job, r.path);
  }

  // ----- a worker's step -----

  /** What one step makes of what its task holds: nothing new but the zip of a fallback. */
  lemma HoldingNext(v: View, e: Effect, o: Oracle, stick: bool)
    requires v.Ok() && v.Can(o) && TaskShape(v.job.kind, v.t) && StageShape(v.job.kind, v.t, v.stage)
    requires e == Act(v.job, v.id, v.t, v.stage, o, stick, v.disk, v.shutdown) && Keeps(v, e) && Delivers(v, e)
    ensures HeldBy(v.job.kind, e.task) <= HeldBy(v.job.kind, v.t) + (if FallsBack(v) then {v.stage.path} else {})
  {
    hide Claims, FinalPath, Ext, ReplaceExt, IsZip, FormatExt, StageDisk;
    HeldClaims(v.job.kind, v.t);
    HeldClaims(v.job.kind, e.task);
    if v.t.status.Completed? {
      hide Act, CanAct, View.Ok;
      KeepsIdentity(v, e);
    } else {
      ActClaims(v, o, stick);
      if FallsBack(v) {
        FallbackClaims(v.job.kind, v.t);
      }
      hide Keeps, Delivers, CanAct;
    }
  }

  function HeldBy(kind: Kind, t: Task): set<Path> {
    if t.status.Completed? then {t.filePath, t.metadataPath} - {[]} else Claims(kind, t)
  }

  lemma HeldClaims(kind: Kind, t: Task)
    ensures HeldBy(kind, t) <= Claims(kind, t)
  {
    hide FinalPath;
  }

  lemma WorkView(s: State, w: WorkerId, o: Oracle, stick: bool)
    requires Inv(s) && WellLinked(s.ix) && Shapes(s) && Intact(s) && Enabled(s, Work(w, o, stick))
    ensures var t := s.workers[w].task;
      && Placed?(s, w, t)
      && var v := ViewOf(s, w, t);
         && v.Ok() && v.Can(o) && HasFiles(v) && TaskShape(v.job.kind, v.t) && StageShape(v.job.kind, v.t, v.stage)
         && Matters(s, t) && (v.t.status.Cancelled? ==> InDead(s, t))
         && Apply(s, Work(w, o, stick)) == Worked(s, w, Act(v.job, v.id, v.t, v.stage, o, stick, v.disk, v.shutdown))
  {
    hide Files, Deletions, Events, Store, WellLinked, TaskShape, StageShape, Separate, Guarded, Complete, HasFiles, Act, JobOk, TaskOk, Matters, StageOk, StageMore, StageDisk;
    var t := s.workers[w].task;
    assert Holds(s, w, t) && Placed?(s, w, t);
    RunningMatters(s, w, t);
  }

  /** A worker's step keeps everything intact if and only if it is no fallback onto a path that is not free. */
  lemma WorkIntact(s: State, w: WorkerId, o: Oracle, stick: bool)
    requires Inv(s) && WellLinked(s.ix) && Shapes(s) && Intact(s) && Enabled(s, Work(w, o, stick))
    ensures Intact(Apply(s, Work(w, o, stick))) <==> Clean(s, Work(w, o, stick))
  {
    hide WellLinked, Shapes, Intact, Apply, FallsBack, FreeFor, Inv;
    if Clean(s, Work(w, o, stick)) {
      CleanWork(s, w, o, stick);
    } else if Intact(Apply(s, Work(w, o, stick))) {
      WorkFree(s, w, o, stick);
    }
  }

  lemma CleanWork(s: State, w: WorkerId, o: Oracle, stick: bool)
    requires Inv(s) && WellLinked(s.ix) && Shapes(s) && Intact(s) && Enabled(s, Work(w, o, stick)) && Clean(s, Work(w, o, stick))
    ensures Intact(Apply(s, Work(w, o, stick)))
  {
    hide WellLinked, Shapes, Intact, Apply, FallsBack, FreeFor, HasFiles, TaskShape, StageShape, Matters, InDead, View.Ok, CanAct, Act;
    hide Touches, Keeps, Delivers, HeldBy, WorkersOk, TasksOk, JobsOk, Files, Deletions, Events, Store;
    WorkView(s, w, o, stick);
    var t := s.workers[w].task;
    var v := ViewOf(s, w, t);
    var e := Act(v.job, v.id, v.t, v.stage, o, stick, v.disk, v.shutdown);
    ActKeeps(v, o, stick);
    ActTouches(v, o, stick);
    ActDelivers(v, o, stick);
    HoldingNext(v, e, o, stick);
    WorkTokens(s, w, t, e);
    hide Enabled, Inv, Tokens, Holds, Worked;
    EffectIntact(s, w, t, e);
  }

  lemma WorkFree(s: State, w: WorkerId, o: Oracle, stick: bool)
    requires Inv(s) && WellLinked(s.ix) && Shapes(s) && Intact(s) && Enabled(s, Work(w, o, stick))
    requires Intact(Apply(s, Work(w, o, stick))) && FallsBack(ViewOf(s, w, s.workers[w].task))
    ensures InJob(s, s.workers[w].task) && FreeFor(s, s.workers[w].task, s.workers[w].stage.path)
  {
    hide WellLinked, Shapes, Intact, Apply, FreeFor, HasFiles, TaskShape, StageShape, Matters, InDead, View.Ok, CanAct, Act, Keeps;
    hide WorkersOk, TasksOk, JobsOk, Files, Deletions, Events, Store;
    WorkView(s, w, o, stick);
    var t := s.workers[w].task;
    var v := ViewOf(s, w, t);
    MissingEffect(v, o, stick);
    ActKeeps(v, o, stick);
    var e := Act(v.job, v.id, v.t, v.stage, o, stick, v.disk, v.shutdown);
    WorkTokens(s, w, t, e);
    MissingFacts(v);
    hide Enabled, Inv, Tokens, Worked;
    FallbackFree(s, w, t, e);
  }

  lemma MissingFacts(v: View)
    requires v.Ok() && FallsBack(v) && TaskShape(v.job.kind, v.t) && StageShape(v.job.kind, v.t, v.stage)
    ensures v.t.filePath != [] && v.job.kind.Ugoira? && !IsZip(v.t.filePath) && !v.t.status.Completed?
    ensures v.stage.path == ReplaceExt(v.t.filePath, ZIP)
  {
    hide IsZip, Ext, ReplaceExt, FormatExt;
  }

  lemma MissingEffect(v: View, o: Oracle, stick: bool)
    requires FallsBack(v) && v.Can(o)
    ensures var e := Act(v.job, v.id, v.t, v.stage, o, stick, v.disk, v.shutdown);
      e.task == v.t.(wroteFile := false, filePath := v.stage.path) && e.disk == v.disk && e.drop == []
  {
  }

  lemma FallbackFree(s: State, w: WorkerId, t: TaskId, e: Effect)
    requires Placed?(s, w, t) && FallsBack(ViewOf(s, w, t)) && Intact(Worked(s, w, e)) && Matters(s, t)
    requires var v := ViewOf(s, w, t);
      && v.t.filePath != [] && v.job.kind.Ugoira? && !IsZip(v.t.filePath) && TaskShape(v.job.kind, v.t)
      && e.task == v.t.(wroteFile := false, filePath := v.stage.path) && v.stage.path == ReplaceExt(v.t.filePath, ZIP)
      && e.disk == v.disk && e.drop == [] && !v.t.status.Completed?
    requires forall x, u :: Holds(Worked(s, w, e), x, u) <==> Holds(s, x, u)
    ensures FreeFor(s, t, s.workers[w].stage.path)
  {
    hide Ext, ReplaceExt, IsZip, FormatExt, FinalPath, Claims, IsPart, TaskShape, Complete, WorkersHave, Scheduled;
    var s' := Worked(s, w, e);
    var zip := s.workers[w].stage.path;
    FallbackClaims(ViewOf(s, w, t).job.kind, s.ix.tasks[t]);
    forall u ensures Matters(s', u) <==> Matters(s, u) {
      assert Held(s', u) <==> Held(s, u);
    }
    assert zip in Holding(s'.ix, t);
    assert forall p :: Scheduled(s', p) <==> Scheduled(s, p) by { NothingDropped(s, w, e); }
    assert Guarded(s', t);
    forall u | u != t && Matters(s, u) ensures zip !in Holding(s.ix, u) {
      assert Holding(s'.ix, u) == Holding(s.ix, u) && Matters(s', t) && Matters(s', u);
    }
  }

  lemma NothingDropped(s: State, w: WorkerId, e: Effect)
    requires w in s.workers && s.workers[w].Busy? && s.workers[w].task in s.ix.tasks && e.drop == []
    ensures forall p :: Scheduled(Worked(s, w, e), p) <==> Scheduled(s, p)
  {
    var s' := Worked(s, w, e);
    assert s'.pending == s.pending;
    SameSchedule(s, s');
  }

  /** What is known of a step's effect where the claims are concerned. */
  ghost predicate Behaves(s: State, w: WorkerId, t: TaskId, e: Effect) {
    && Placed?(s, w, t)
    && var v := ViewOf(s, w, t);
       && Keeps(v, e) && Touches(v, e) && Delivers(v, e)
       && HeldBy(v.job.kind, e.task) <= HeldBy(v.job.kind, v.t) + (if FallsBack(v) then {v.stage.path} else {})
       && Matters(s, t) && (FallsBack(v) ==> FreeFor(s, t, v.stage.path)) && (v.t.status.Cancelled? ==> InDead(s, t))
       && (forall x, u :: Holds(Worked(s, w, e), x, u) <==> Holds(s, x, u))
  }

  lemma EffectIntact(s: State, w: WorkerId, t: TaskId, e: Effect)
    requires Inv(s) && Shapes(s) && Intact(s) && Placed?(s, w, t) && Behaves(s, w, t, e)
    ensures Intact(Worked(s, w, e))
  {
    hide Inv, Shapes, Behaves, Holding, Guarded, Complete, HasFiles, Retired, WorkersHave;
    InvBasics(s);
    var s' := Worked(s, w, e);
    forall u | Matters(s', u) ensures Matters(s, u) {
      EffectMatters(s, w, t, e, u);
    }
    forall a, b | a != b && Matters(s', a) && Matters(s', b) ensures Holding(s'.ix, a) !! Holding(s'.ix, b) {
      if a == t {
        EffectSeparate(s, w, t, e, b);
      } else if b == t {
        EffectSeparate(s, w, t, e, a);
      } else {
        EffectOther(s, w, t, e, a);
        EffectOther(s, w, t, e, b);
      }
    }
    forall u | Matters(s', u) ensures InJob(s', u) && Guarded(s', u) && Complete(s', u) {
      if u == t {
        EffectOwn(s, w, t, e);
      } else {
        EffectOther(s, w, t, e, u);
      }
    }
    EffectWorkers(s, w, t, e);
    assert Separate(s');
  }

  lemma EffectMatters(s: State, w: WorkerId, t: TaskId, e: Effect, u: TaskId)
    requires Behaves(s, w, t, e) && Matters(Worked(s, w, e), u)
    ensures Matters(s, u) && InJob(Worked(s, w, e), u)
  {
    hide Claims, Touches, Delivers, FreeFor, HeldBy, FallsBack;
    KeepsIdentity(ViewOf(s, w, t), e);
    hide Keeps;
    assert Held(Worked(s, w, e), u) <==> Held(s, u);
  }

  lemma EffectSeparate(s: State, w: WorkerId, t: TaskId, e: Effect, u: TaskId)
    requires Behaves(s, w, t, e) && Separate(s) && u != t && Matters(s, u)
    ensures InJob(Worked(s, w, e), t) && InJob(Worked(s, w, e), u)
    ensures Holding(Worked(s, w, e).ix, t) !! Holding(Worked(s, w, e).ix, u)
  {
    hide Claims, Touches, Delivers, Retired;
    KeepsIdentity(ViewOf(s, w, t), e);
    hide Keeps;
    assert Holding(s.ix, t) !! Holding(s.ix, u);
  }

  /** Another task's files are not touched, and none of its paths is scheduled. */
  lemma EffectOther(s: State, w: WorkerId, t: TaskId, e: Effect, u: TaskId)
    requires Intact(s) && Behaves(s, w, t, e) && u != t && Matters(s, u) && [] !in s.disk
    ensures var s' := Worked(s, w, e);
      InJob(s', u) && Holding(s'.ix, u) == Holding(s.ix, u) && Guarded(s', u) && Complete(s', u)
    ensures forall p :: p in Holding(s.ix, u) ==> SameAt(s.disk, e.disk, p)
  {
    hide Retired, Claims, IsPart, WorkersHave, FreeFor, FallsBack, Keeps;
    var s' := Worked(s, w, e);
    var v := ViewOf(s, w, t);
    assert Guarded(s, u) && Complete(s, u) && Holding(s.ix, t) !! Holding(s.ix, u);
    HoldingClaims(s.ix, t);
    forall p | p in Holding(s.ix, u) ensures SameAt(s.disk, e.disk, p) && p !in e.drop {
    }
    forall p | p !in e.drop && Scheduled(s', p) ensures Scheduled(s, p) {
      var j: JobId :| Owed(s', j, p);
      OwedBefore(s, w, t, e, j, p);
    }
    hide Touches, Delivers, Scheduled, Separate, HeldBy;
    OtherComplete(s, s', u);
  }

  lemma OtherComplete(s: State, s': State, u: TaskId)
    requires InJob(s, u) && InJob(s', u) && s'.ix.tasks[u] == s.ix.tasks[u] && s'.ix.jobs == s.ix.jobs && Complete(s, u) && [] !in s.disk
    requires forall p :: p in Holding(s.ix, u) ==> SameAt(s.disk, s'.disk, p)
    requires Guarded(s, u) && forall p :: p in Holding(s.ix, u) && Scheduled(s', p) ==> Scheduled(s, p)
    ensures Complete(s', u) && Guarded(s', u)
  {
    hide Claims, Scheduled, IsPart;
    if s.ix.tasks[u].status.Completed? && !InDead(s, u) {
      assert s.ix.tasks[u].filePath in Holding(s.ix, u);
      if s.ix.jobs[s.ix.tasks[u].job].metadata {
        assert s.ix.tasks[u].metadataPath in Holding(s.ix, u);
      }
    }
  }

  /** The task's own files are its own, and none is scheduled while its job is alive. */
  lemma EffectOwn(s: State, w: WorkerId, t: TaskId, e: Effect)
    requires Intact(s) && Behaves(s, w, t, e)
    ensures InJob(Worked(s, w, e), t) && Guarded(Worked(s, w, e), t) && Complete(Worked(s, w, e), t)
  {
    var s' := Worked(s, w, e);
    var v := ViewOf(s, w, t);
    assert Guarded(s, t) && Complete(s, t);
    assert forall p :: OwnWrite(v, e, p);
    assert SameIdentity(e.task, v.t) && (v.t.status.Completed? ==> e.task.status.Completed?);
    hide Retired, Claims, IsPart, WorkersHave, Keeps, Separate, HasFiles, Matters, FallsBack;
    assert e.drop == [] || InDead(s, t);
    forall p | p in Holding(s'.ix, t)
      ensures !IsPart(p) && (!InDead(s', t) ==> !Scheduled(s', p) && (p in s'.disk ==> s'.disk[p] == By(t)))
    {
      assert OwnWrite(v, e, p);
      if !InDead(s', t) && Scheduled(s', p) {
        var j: JobId :| Owed(s', j, p);
        OwedBefore(s, w, t, e, j, p);
      }
    }
  }

  lemma EffectWorkers(s: State, w: WorkerId, t: TaskId, e: Effect)
    requires Inv(s) && Shapes(s) && Intact(s) && Behaves(s, w, t, e)
    ensures WorkersHave(Worked(s, w, e))
  {
    var s' := Worked(s, w, e);
    hide Inv, Shapes, Claims, Keeps, Separate, Guarded, Complete, HasFiles, Matters, FallsBack, FreeFor, Touches, HeldBy, Behaves;
    forall x, u | Placed?(s', x, u) ensures HasFiles(ViewOf(s', x, u)) {
      EffectHolder(s, w, t, e, x, u);
    }
  }

  lemma EffectHolder(s: State, w: WorkerId, t: TaskId, e: Effect, x: WorkerId, u: TaskId)
    requires Inv(s) && Shapes(s) && Intact(s) && Behaves(s, w, t, e) && Placed?(Worked(s, w, e), x, u)
    ensures HasFiles(ViewOf(Worked(s, w, e), x, u))
  {
    var s' := Worked(s, w, e);
    hide Inv, Shapes, Intact, Claims, Keeps, HasFiles, FallsBack, FreeFor, Touches, HeldBy, Retired;
    assert Holds(s, x, u);
    if x == w {
      SameButStuck(ViewOf(s, w, t).Next(e), ViewOf(s', w, t));
    } else {
      OtherHolder(s, w, t, e, x, u);
    }
  }

  lemma OtherHolder(s: State, w: WorkerId, t: TaskId, e: Effect, x: WorkerId, u: TaskId)
    requires Inv(s) && Shapes(s) && Intact(s) && Behaves(s, w, t, e) && Placed?(Worked(s, w, e), x, u) && x != w
    ensures HasFiles(ViewOf(Worked(s, w, e), x, u))
  {
    var s' := Worked(s, w, e);
    hide Files, Deletions, Events, Store, WellLinked, TaskOk, JobOk, Separate, Guarded, Complete, HasFiles, StageShape, TaskShape, Behaves, Matters, InDead, Claims;
    BehavesPlaced(s, w, t, e);
    assert Holds(s, x, u) && Holds(s, w, t) && u != t && Placed?(s, x, u);
    var v := ViewOf(s, x, u);
    assert v.Ok() && HasFiles(v) && StageShape(v.job.kind, v.t, v.stage);
    RunningMatters(s, x, u);
    InvBasics(s);
    hide Inv, View.Ok, Shapes, Intact, Tokens, TasksOk, JobsOk, WorkersOk;
    EffectOther(s, w, t, e, u);
    HoldingClaims(s.ix, u);
    HasFilesKept(v, e.disk);
    SameButStuck(v.(disk := e.disk), ViewOf(s', x, u));
  }

  lemma BehavesPlaced(s: State, w: WorkerId, t: TaskId, e: Effect)
    requires Behaves(s, w, t, e)
    ensures Placed?(s, w, t) && e.task.job == s.ix.tasks[t].job
    ensures forall x, u :: Holds(Worked(s, w, e), x, u) <==> Holds(s, x, u)
  {
    hide Touches, Delivers, FreeFor, HeldBy, FallsBack, Matters;
    KeepsIdentity(ViewOf(s, w, t), e);
    hide Keeps;
  }

  // ----- submissions -----

  /** A submission keeps everything intact if and only if its paths are unreserved, absent, not draining and no part files. */
  lemma SubmitIntact(s: State, j: JobId, job: Job, tasks: seq<Task>, random: seq<seq<Bytes>>)
    requires Inv(s) && WellLinked(s.ix) && Shapes(s) && Intact(s) && Enabled(s, Submit(j, job, tasks, random))
    ensures Intact(Apply(s, Submit(j, job, tasks, random))) <==> Clean(s, Submit(j, job, tasks, random))
  {
    hide Inv, WellLinked, ReservedPaths, Claims, Unwritten, Apply, PlaceAll, JoinsApart, IsNewTask, Joins, Intact, Shapes, Draining, IsPart, ClearOf, LuckyBatch;
    SubmitIs(s, j, job, tasks, random);
    SubmitJoins(s, j, job, tasks, random);
    var ts := PlaceAll(job.kind, job.metadata, tasks, ReservedPaths(s.ix), s.disk.Keys, random).tasks;
    forall i | 0 <= i < |tasks| ensures Unwritten(job.kind, job.metadata, tasks[i]) {
      NewIsUnwritten(j, job, tasks[i]);
    }
    PlaceAllApart(job.kind, job.metadata, tasks, ReservedPaths(s.ix), s.disk.Keys, random);
    var s' := Apply(s, Submit(j, job, tasks, random));
    if Clean(s, Submit(j, job, tasks, random)) {
      JoinIntact(s, s', j, job, ts);
    }
    if Intact(s') {
      JoinArrives(s, s', j, job, ts);
    }
  }

  /** What an intact state says of the tasks that have just arrived. */
  lemma JoinArrives(s: State, s': State, j: JobId, job: Job, ts: seq<Task>)
    requires Inv(s) && Intact(s') && Joins(s, s', j, job) && JoinsApart(s.ix, s'.ix, j, job, ts)
    requires |ts| == |job.tasks| && forall i, k :: 0 <= i < k < |job.tasks| ==> job.tasks[i] != job.tasks[k]
    requires forall i :: 0 <= i < |ts| ==> Unwritten(job.kind, job.metadata, ts[i])
    ensures Arrives(s, job, ts)
  {
    hide Inv, Joins, JoinsApart, Intact, Unwritten, Claims, Draining, IsPart;
    forall i | 0 <= i < |ts| ensures Claims(job.kind, ts[i]) !! ReservedPaths(s.ix)
      ensures forall p :: p in Claims(job.kind, ts[i]) ==> p !in s.disk && !Draining(s, p) && !IsPart(p)
    {
      ArrivedPaths(s, s', j, job, ts, i);
    }
    forall i, k | 0 <= i < k < |ts| ensures Claims(job.kind, ts[i]) !! Claims(job.kind, ts[k]) {
      ArrivedPair(s, s', j, job, ts, i, k);
    }
  }

  lemma ArrivedMatters(s: State, s': State, j: JobId, job: Job, ts: seq<Task>, i: nat)
    requires Joins(s, s', j, job) && JoinsApart(s.ix, s'.ix, j, job, ts) && i < |ts| && Unwritten(job.kind, job.metadata, ts[i])
    ensures i < |job.tasks| && var t := job.tasks[i];
      Matters(s', t) && !InDead(s', t) && t !in s.ix.tasks && Holding(s'.ix, t) == Claims(job.kind, ts[i])
  {
    hide Claims;
    UnwrittenIsLive(job.kind, job.metadata, ts[i]);
    hide Unwritten, Held;
  }

  lemma ArrivedPaths(s: State, s': State, j: JobId, job: Job, ts: seq<Task>, i: nat)
    requires Inv(s) && Intact(s') && Joins(s, s', j, job) && JoinsApart(s.ix, s'.ix, j, job, ts)
    requires i < |ts| && Unwritten(job.kind, job.metadata, ts[i])
    ensures Claims(job.kind, ts[i]) !! ReservedPaths(s.ix)
    ensures forall p :: p in Claims(job.kind, ts[i]) ==> p !in s.disk && !Draining(s, p) && !IsPart(p)
  {
    hide Tokens, WorkersOk, TasksOk, JobsOk, Deletions, Events, Store, Claims, IsPart, Scheduled, Holding, Complete, WorkersHave, Unwritten, Joins, JoinsApart, Retired;
    ArrivedMatters(s, s', j, job, ts, i);
    var t := job.tasks[i];
    JoinedSame(s, s', j, job);
    assert Guarded(s', t);
    InvBasics(s);
    forall u | Matters(s, u) ensures Holding(s.ix, u) !! Claims(job.kind, ts[i]) {
      StillMatters(s, s', j, job, ts, u);
      assert u != t;
    }
    forall p | p in Claims(job.kind, ts[i]) ensures p !in s.disk && !Draining(s, p) && p !in ReservedPaths(s.ix) {
      if p in s.disk {
        UnknownFile(s, t, p);
      }
      if p in ReservedPaths(s.ix) {
        var u := ReservedMatters(s, p);
      }
    }
  }

  /** No file is attributed to a task that does not exist. */
  lemma UnknownFile(s: State, t: TaskId, p: Path)
    requires Files(s) && t !in s.ix.tasks && p in s.disk
    ensures s.disk[p] != By(t)
  {
    if s.disk[p].By? {
      FileOkTask(s, s.disk[p].task, p);
    }
  }

  lemma ReservedMatters(s: State, p: Path) returns (u: TaskId)
    requires Inv(s) && p in ReservedPaths(s.ix)
    ensures Matters(s, u) && p in Holding(s.ix, u)
  {
    hide Tokens, WorkersOk, Files, Deletions, Events, Store, Claims;
    InvBasics(s);
    ReservedLive(s.ix, p);
    u :| IsLive(s.ix, u) && p in ClaimsOf(s.ix, u);
    LiveJob(s, u);
  }

  lemma LiveJob(s: State, u: TaskId)
    requires TasksOk(s) && JobsOk(s) && IsLive(s.ix, u)
    ensures !IsOver(s, s.ix.tasks[u].job)
  {
    assert JobOk(s, s.ix.tasks[u].job);
    LinkedJob(s.ix);
    hide JobAggregate, WellLinked;
  }

  lemma StillMatters(s: State, s': State, j: JobId, job: Job, ts: seq<Task>, u: TaskId)
    requires WellLinked(s.ix) && Joins(s, s', j, job) && JoinsApart(s.ix, s'.ix, j, job, ts) && Matters(s, u)
    ensures Matters(s', u) && Holding(s'.ix, u) == Holding(s.ix, u) && u in s.ix.tasks
  {
    LinkedJob(s.ix);
    hide WellLinked, Claims;
    assert forall w :: Holds(s', w, u) <==> Holds(s, w, u);
  }

  lemma ArrivedPair(s: State, s': State, j: JobId, job: Job, ts: seq<Task>, i: nat, k: nat)
    requires Intact(s') && Joins(s, s', j, job) && JoinsApart(s.ix, s'.ix, j, job, ts) && i < k < |ts| == |job.tasks|
    requires job.tasks[i] != job.tasks[k]
    requires Unwritten(job.kind, job.metadata, ts[i]) && Unwritten(job.kind, job.metadata, ts[k])
    ensures Claims(job.kind, ts[i]) !! Claims(job.kind, ts[k])
  {
    hide Claims, Unwritten, Guarded, Complete, WorkersHave, Retired, Holding, JoinsApart;
    ArrivedMatters(s, s', j, job, ts, i);
    ArrivedMatters(s, s', j, job, ts, k);
  }

  /** What the tasks of a clean submission claim. */
  ghost predicate Arrives(s: State, job: Job, ts: seq<Task>) {
    && ClearOf(job.kind, ts, ReservedPaths(s.ix))
    && (forall i :: 0 <= i < |ts| ==> Unwritten(job.kind, job.metadata, ts[i]))
    && forall i, p :: 0 <= i < |ts| && p in Claims(job.kind, ts[i]) ==> p !in s.disk && !Draining(s, p) && !IsPart(p)
  }

  lemma JoinIntact(s: State, s': State, j: JobId, job: Job, ts: seq<Task>)
    requires Inv(s) && Intact(s) && Joins(s, s', j, job) && JoinsApart(s.ix, s'.ix, j, job, ts) && Arrives(s, job, ts)
    ensures Intact(s')
  {
    hide Inv, Joins, JoinsApart, Arrives, Retired, Holding, Guarded, Complete, HasFiles;
    forall t, u | t != u && Matters(s', t) && Matters(s', u) ensures Holding(s'.ix, t) !! Holding(s'.ix, u) {
      JoinedHolding(s, s', j, job, ts, t);
      JoinedHolding(s, s', j, job, ts, u);
      if t in s.ix.tasks && u in s.ix.tasks {
      } else if t in s.ix.tasks {
        ArrivalApart(s, s', j, job, ts, u, t);
      } else if u in s.ix.tasks {
        ArrivalApart(s, s', j, job, ts, t, u);
      } else {
        ArrivalsApart(s, s', j, job, ts, t, u);
      }
    }
    forall t | Matters(s', t) ensures InJob(s', t) && Guarded(s', t) && Complete(s', t) {
      JoinedHolding(s, s', j, job, ts, t);
      if t in s.ix.tasks {
        JoinedOld(s, s', j, job, t);
      } else {
        JoinedNew(s, s', j, job, ts, t);
      }
    }
    forall w, t | Placed?(s', w, t) ensures HasFiles(ViewOf(s', w, t)) {
      JoinedFiles(s, s', j, job, w, t);
    }
    assert WorkersHave(s');
  }

  /** Old tasks hold what they held; new ones hold what they were given. */
  lemma JoinedHolding(s: State, s': State, j: JobId, job: Job, ts: seq<Task>, t: TaskId)
    requires Inv(s) && Joins(s, s', j, job) && JoinsApart(s.ix, s'.ix, j, job, ts) && Matters(s', t)
    ensures InJob(s', t)
    ensures t in s.ix.tasks ==> Matters(s, t) && Holding(s'.ix, t) == Holding(s.ix, t)
    ensures t !in s.ix.tasks ==>
      exists i :: 0 <= i < |ts| && i < |job.tasks| && job.tasks[i] == t && s'.ix.tasks[t] == ts[i] && s'.ix.tasks[t].job == j
  {
    hide Tokens, WorkersOk, TasksOk, JobsOk, Files, Deletions, Events, Store, WellLinked, Claims;
    InvBasics(s);
    LinkedJob(s.ix);
    hide Inv;
    if t !in s.ix.tasks {
      hide Retired, Joins;
      var i :| 0 <= i < |job.tasks| && job.tasks[i] == t;
    } else {
      hide JoinsApart;
      assert forall w :: Holds(s', w, t) <==> Holds(s, w, t);
    }
  }

  lemma ArrivalHolds(s: State, s': State, j: JobId, job: Job, ts: seq<Task>, t: TaskId) returns (i: nat)
    requires Joins(s, s', j, job) && JoinsApart(s.ix, s'.ix, j, job, ts) && Arrives(s, job, ts) && InJob(s', t) && t !in s.ix.tasks
    ensures i < |ts| && i < |job.tasks| && job.tasks[i] == t && Holding(s'.ix, t) == Claims(job.kind, ts[i]) && s'.ix.tasks[t] == ts[i]
    ensures s'.ix.tasks[t].job == j && s'.ix.jobs[j] == job
  {
    hide Claims, ClearOf;
    i :| 0 <= i < |job.tasks| && job.tasks[i] == t;
    UnwrittenIsLive(job.kind, job.metadata, ts[i]);
    hide Unwritten;
  }

  lemma ArrivalApart(s: State, s': State, j: JobId, job: Job, ts: seq<Task>, t: TaskId, u: TaskId)
    requires Inv(s) && Intact(s) && Joins(s, s', j, job) && JoinsApart(s.ix, s'.ix, j, job, ts) && Arrives(s, job, ts)
    requires InJob(s', t) && t !in s.ix.tasks && Matters(s, u)
    ensures Holding(s'.ix, t) !! Holding(s.ix, u)
  {
    hide Joins, JoinsApart, Claims, Separate, Guarded, WorkersHave, Retired, Scheduled, IsPart, Tokens, WorkersOk, JobsOk, Deletions, Events, Store;
    var i := ArrivalHolds(s, s', j, job, ts, t);
    InvBasics(s);
    assert Complete(s, u) && TasksOk(s);
    HoldingClaims(s.ix, u);
    hide Files, TaskOk;
    if !s.ix.tasks[u].status.IsTerminal() {
      LiveReserved(s, u);
    }
    hide Inv, ReservedPaths, TasksOk;
    forall p | p in Holding(s.ix, u) ensures p !in Claims(job.kind, ts[i]) {
      if s.ix.tasks[u].status.IsTerminal() && !(s.ix.tasks[u].status.Completed? && !InDead(s, u)) {
        assert Draining(s, p);
      } else if s.ix.tasks[u].status.Completed? {
        assert p in s.disk;
      }
    }
  }

  lemma ArrivalsApart(s: State, s': State, j: JobId, job: Job, ts: seq<Task>, t: TaskId, u: TaskId)
    requires Joins(s, s', j, job) && JoinsApart(s.ix, s'.ix, j, job, ts) && Arrives(s, job, ts)
    requires InJob(s', t) && InJob(s', u) && t !in s.ix.tasks && u !in s.ix.tasks && t != u
    ensures Holding(s'.ix, t) !! Holding(s'.ix, u)
  {
    var i := ArrivalHolds(s, s', j, job, ts, t);
    var k := ArrivalHolds(s, s', j, job, ts, u);
    hide Joins, JoinsApart, Claims, Unwritten;
  }

  lemma JoinedSame(s: State, s': State, j: JobId, job: Job)
    requires Joins(s, s', j, job)
    ensures s'.disk == s.disk && forall p :: Scheduled(s', p) <==> Scheduled(s, p)
  {
    assert forall i: JobId, p :: Owed(s', i, p) <==> Owed(s, i, p);
  }

  lemma JoinedOld(s: State, s': State, j: JobId, job: Job, t: TaskId)
    requires Intact(s) && Joins(s, s', j, job) && Matters(s, t) && InJob(s', t) && Holding(s'.ix, t) == Holding(s.ix, t)
    ensures Guarded(s', t) && Complete(s', t)
  {
    JoinedSame(s, s', j, job);
    hide Scheduled, Holding, IsPart, Separate, WorkersHave, Retired;
    assert Guarded(s, t) && Complete(s, t);
  }

  lemma JoinedNew(s: State, s': State, j: JobId, job: Job, ts: seq<Task>, t: TaskId)
    requires Joins(s, s', j, job) && JoinsApart(s.ix, s'.ix, j, job, ts) && Arrives(s, job, ts) && InJob(s', t) && t !in s.ix.tasks
    ensures Guarded(s', t) && Complete(s', t)
  {
    hide Joins, JoinsApart, Claims, Scheduled, IsPart, ClearOf, Holding, IsZip, Matters, Retired, Ext;
    var i := ArrivalHolds(s, s', j, job, ts, t);
    JoinedSame(s, s', j, job);
    assert Unwritten(job.kind, job.metadata, ts[i]);
    forall p | p in Holding(s'.ix, t) ensures !IsPart(p) && !Scheduled(s', p) && p !in s'.disk {
      assert p in Claims(job.kind, ts[i]);
      assert !Draining(s, p);
    }
    hide Arrives, Draining;
    assert Complete(s', t);
  }

  lemma JoinedFiles(s: State, s': State, j: JobId, job: Job, w: WorkerId, t: TaskId)
    requires Inv(s) && Intact(s) && Joins(s, s', j, job) && Placed?(s', w, t)
    ensures HasFiles(ViewOf(s', w, t))
  {
    assert WorkersOk(s);
    hide Inv, HasFiles, Separate, Guarded, Complete;
    assert Holds(s, w, t) && Placed?(s, w, t);
    assert HasFiles(ViewOf(s, w, t));
    SameButStuck(ViewOf(s, w, t), ViewOf(s', w, t));
  }

  // ----- whole runs -----

  /** Exactly the clean steps keep everything intact. */
  lemma StepIntact(s: State, step: Step)
    requires Inv(s) && WellLinked(s.ix) && Shapes(s) && Intact(s) && Enabled(s, step)
    ensures Intact(Apply(s, step)) <==> Clean(s, step)
  {
    hide Inv, WellLinked, Shapes, Intact, Apply, IsSubmission, CanAct, FreeFor, FallsBack, Unclaimed, Unneeded, LuckyBatch;
    match step {
      case Submit(j, job, tasks, random) => SubmitIntact(s, j, job, tasks, random);
      case CancelStep(j) => CancelIntact(s, j);
      case Lease(w, t) => LeaseIntact(s, w, t);
      case Work(w, o, stick) => WorkIntact(s, w, o, stick);
      case ReportStep(w) => ReportIntact(s, w);
      case Outside(p, present) => OutsideIntact(s, p, present);
      case _ => OtherIntact(s, step);
    }
  }

  /** A process without jobs is a proper start, whatever lies on the disk. */
  lemma EmptyIntact(s: State)
    requires Init(s) && s.ix.tasks == map[]
    ensures Intact(s) && Shapes(s)
  {
    hide WellLinked;
    assert forall t :: !Matters(s, t);
    assert forall w, t :: !Placed?(s, w, t);
  }

  /** What a task holds and finds on disk is its own file. */
  ghost predicate OwnFiles(s: State, t: TaskId)
    requires InJob(s, t)
  {
    forall p :: p in Holding(s.ix, t) && p in s.disk ==> s.disk[p] == By(t)
  }

  /** Any start with proper paths is intact in which completed tasks have their files, no task finds somebody
      else's file under its paths, and tasks that are not completed hold different paths. */
  lemma StartIntact(s: State)
    requires Init(s) && Shapes(s)
    requires forall t :: Matters(s, t) ==> OwnFiles(s, t) && forall p :: p in Holding(s.ix, t) ==> !IsPart(p)
    requires forall t :: Matters(s, t) && s.ix.tasks[t].status.Completed? ==> AllThere(s.ix.jobs[s.ix.tasks[t].job], s.ix.tasks[t], s.disk)
    requires forall t, u :: t != u && Matters(s, t) && Matters(s, u) && !s.ix.tasks[t].status.Completed? && !s.ix.tasks[u].status.Completed? ==>
      Holding(s.ix, t) !! Holding(s.ix, u)
    ensures Intact(s)
  {
    hide WellLinked, RestedTask, RestedJob, RestedFile, TaskShape, StageShape, Claims, IsPart, JobRecorded;
    assert forall w, t :: !Placed?(s, w, t);
    assert forall p :: !Scheduled(s, p) by { assert forall j: JobId, p :: !Owed(s, j, p); }
    hide Scheduled, Placed?, Retired, Init;
    forall t | Matters(s, t) ensures InJob(s, t) && Guarded(s, t) && Complete(s, t) {
    }
    forall t, u | t != u && Matters(s, t) && Matters(s, u) ensures Holding(s.ix, t) !! Holding(s.ix, u) {
      if s.ix.tasks[t].status.Completed? {
        CompletedApart(s, t, u);
      } else if s.ix.tasks[u].status.Completed? {
        CompletedApart(s, u, t);
      }
    }
    assert Separate(s);
  }

  /** A completed task's files are on disk in its own name, so nobody else can hold them. */
  lemma CompletedApart(s: State, t: TaskId, u: TaskId)
    requires InJob(s, t) && InJob(s, u) && t != u && OwnFiles(s, t) && OwnFiles(s, u) && s.ix.tasks[t].status.Completed?
    requires AllThere(s.ix.jobs[s.ix.tasks[t].job], s.ix.tasks[t], s.disk)
    requires !s.ix.jobs[s.ix.tasks[t].job].metadata ==> s.ix.tasks[t].metadataPath == []
    ensures Holding(s.ix, t) !! Holding(s.ix, u)
  {
    hide ClaimsOf;
    assert forall p :: p in Holding(s.ix, t) ==> p in s.disk;
    hide Holding;
  }

  ghost predicate CleanUntil(run: seq<State>, steps: seq<Step>, i: nat)
    requires i <= |steps| < |run|
  {
    forall k :: 0 <= k < i ==> Enabled(run[k], steps[k]) && Clean(run[k], steps[k])
  }

  /** From an intact start, everything is intact up to a moment of a run if and only if every step before it was clean. */
  lemma {:induction false} RunIntact(run: seq<State>, steps: seq<Step>, i: nat)
    requires IsRun(run, steps) && i < |run| == |steps| + 1 && Intact(run[0]) && Shapes(run[0])
    ensures (forall k :: 0 <= k <= i ==> Intact(run[k])) <==> CleanUntil(run, steps, i)
  {
    hide Inv, WellLinked, Enabled, Apply, IsRun, Shapes, Intact, Clean;
    if i > 0 {
      RunIntact(run, steps, i - 1);
      RunKeeps(run, steps, i - 1);
      RunStep(run, steps, i - 1);
      RunShapes(run, steps, i - 1);
      if CleanUntil(run, steps, i - 1) {
        StepIntact(run[i - 1], steps[i - 1]);
      }
    }
  }

  /** In every state before which all steps were clean, a completed task of a job that has not failed or been cancelled has its media,
      and its sidecar if one was asked for, on disk and last written by itself. */
  lemma CompletedIsPresent(run: seq<State>, steps: seq<Step>, i: nat, t: TaskId)
    requires IsRun(run, steps) && i < |run| == |steps| + 1 && Intact(run[0]) && Shapes(run[0])
    requires CleanUntil(run, steps, i)
    requires InJob(run[i], t) && run[i].ix.tasks[t].status.Completed? && !InDead(run[i], t)
    ensures Written(run[i].disk, run[i].ix.tasks[t].filePath, t)
    ensures run[i].ix.jobs[run[i].ix.tasks[t].job].metadata ==> Written(run[i].disk, run[i].ix.tasks[t].metadataPath, t)
  {
    hide Inv, Enabled, Apply, IsRun, Shapes, Clean, Separate, WorkersHave, IsPart, Scheduled;
    RunIntact(run, steps, i);
    RunKeeps(run, steps, i);
    InvBasics(run[i]);
    assert Matters(run[i], t);
    assert Guarded(run[i], t) && Complete(run[i], t);
  }
}
