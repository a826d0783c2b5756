/** Which files the manager can still write or delete: a file out of its reach stays as it is. */
module DownloadTouch {
  import opened Utf8
  import opened Naming
  import opened Collision
  import opened DownloadCore
  import opened DownloadPaths
  import opened DownloadRun
  import opened DownloadSafety
  import opened DownloadInvariant
  import opened DownloadSteps
  import opened DownloadMoves
  import opened DownloadSubmission
  import opened DownloadRuns
  import opened DownloadDisjoint

  // ----- one worker's step -----

  /** The step changes nothing under `p`. */
  predicate SameAt(a: map<Path, Owner>, b: map<Path, Owner>, p: Path) {
    (p in a <==> p in b) && (p in a ==> a[p] == b[p])
  }

  ghost predicate Touches(v: View, e: Effect) {
    && (forall p :: p !in Claims(v.job.kind, v.t) && !IsPart(p) ==> SameAt(v.disk, e.disk, p))
    && (forall p :: p in e.drop ==> p in Claims(v.job.kind, v.t))
    && (e.drop != [] ==> v.t.status.Cancelled?)
  }

  /** A worker changes files only under its task's claims, part files aside, and drops its own only once it is cancelled. */
  lemma ActTouches(v: View, o: Oracle, stick: bool)
    requires v.Ok() && v.Can(o) && TaskShape(v.job.kind, v.t) && StageShape(v.job.kind, v.t, v.stage)
    ensures Touches(v, Act(v.job, v.id, v.t, v.stage, o, stick, v.disk, v.shutdown))
  {
    if IsFileStage(v.stage) {
      FilesTouch(v, o, stick);
    } else {
      SectionsDrop(v, o);
    }
  }

  lemma ConvertedClaim(job: Job, t: Task)
    requires ToConvert(job, t)
    ensures OutPath(job, t) in Claims(job.kind, t)
  {
    hide IsZip, Ext, ReplaceExt, FormatExt;
    ReplacedNonempty(t.filePath, FormatExt(job.kind.format));
  }

  lemma ReplacedNonempty(p: Path, e: Bytes)
    requires e != []
    ensures ReplaceExt(p, e) != [] && (IsZip(p) ==> p != [])
  {
  }

  lemma FilesTouch(v: View, o: Oracle, stick: bool)
    requires v.Ok() && v.Can(o) && IsFileStage(v.stage) && StageShape(v.job.kind, v.t, v.stage)
    ensures var e := ActOnFiles(v.job, v.id, v.t, v.stage, o, stick, v.disk, v.shutdown);
      forall p :: p !in Claims(v.job.kind, v.t) && !IsPart(p) ==> SameAt(v.disk, e.disk, p)
  {
    if v.stage.Encode? || v.stage.Encoded? || v.stage.Create? {
      ConvertedClaim(v.job, v.t);
    }
    hide IsZip, Ext, ReplaceExt, FormatExt, FinalPath, PartPath, OutPath, IsPart, StageOk, StageDisk;
  }

  lemma SectionsDrop(v: View, o: Oracle)
    requires v.Ok() && v.Can(o) && !IsFileStage(v.stage)
    ensures var e := ActLocked(v.job, v.t, v.stage, o, v.shutdown);
      (forall p :: p in e.drop ==> p in Claims(v.job.kind, v.t)) && (e.drop != [] ==> v.t.status.Cancelled?)
  {
    hide IsZip, Ext, ReplaceExt, FormatExt, FinalPath, TaskWritten, StageDisk;
    if v.stage.SidecarDone? {
      SidecarDrops(v);
    }
  }

  lemma SidecarDrops(v: View)
    requires v.Ok() && v.stage.SidecarDone?
    ensures var t' := SidecarStatus(SidecarOwned(v.t, v.stage.outcome), v.stage.outcome, v.shutdown);
      && (forall p :: p in TaskWritten(t') ==> p in Claims(v.job.kind, v.t))
      && (t'.status.Cancelled? ==> v.t.status.Cancelled?)
  {
    hide FinalPath, TaskWritten, StageDisk;
  }

  // ----- the reach of the manager -----

  /** Nothing will happen to the task any more: its job is over and no worker has it. */
  ghost predicate Retired(s: State, u: TaskId)
    requires u in s.ix.tasks
  {
    IsOver(s, s.ix.tasks[u].job) && !Held(s, u)
  }

  ghost predicate Claimed(s: State, p: Path) {
    exists u :: u in s.ix.tasks && s.ix.tasks[u].job in s.ix.jobs && !Retired(s, u) && p in ClaimsOf(s.ix, u)
  }

  ghost predicate Scheduled(s: State, p: Path) { exists j: JobId :: Owed(s, j, p) }

  /** A worker is about to fetch to `p`. */
  ghost predicate Aimed(s: State, p: Path) {
    exists w, u :: Placed?(s, w, u) && s.workers[w].stage.Missing? && p in FetchClaims(s, w, u)
  }

  function FetchClaims(s: State, w: WorkerId, u: TaskId): set<Path>
    requires Placed?(s, w, u) && s.workers[w].stage.Missing?
  {
    Claims(s.ix.jobs[s.ix.tasks[u].job].kind, s.ix.tasks[u].(filePath := s.workers[w].stage.path))
  }

  /** The paths the manager can still write to or delete. */
  ghost predicate Reaches(s: State, p: Path) { IsPart(p) || Claimed(s, p) || Scheduled(s, p) || Aimed(s, p) }

  /** Out of reach before, out of reach after, and the file is the same. */
  ghost predicate Spares(s: State, s': State, p: Path) {
    !Reaches(s', p) && p in s.disk && p in s'.disk && s'.disk[p] == s.disk[p]
  }

  /** A step that leaves tasks as they are, or finishes more of them. */
  ghost predicate Narrows(s: State, s': State, p: Path) {
    && (forall u :: u in s'.ix.tasks && s'.ix.tasks[u].job in s'.ix.jobs && !Retired(s', u) && p in ClaimsOf(s'.ix, u) ==>
          u in s.ix.tasks && s.ix.tasks[u].job in s.ix.jobs && !Retired(s, u) && p in ClaimsOf(s.ix, u))
    && (forall w, u :: Placed?(s', w, u) && s'.workers[w].stage.Missing? && p in FetchClaims(s', w, u) ==>
          Placed?(s, w, u) && s.workers[w].stage.Missing? && p in FetchClaims(s, w, u))
    && (forall j: JobId :: Owed(s', j, p) ==> Owed(s, j, p))
    && p in s.disk && p in s'.disk && s'.disk[p] == s.disk[p]
  }

  lemma NarrowsSpares(s: State, s': State, p: Path)
    requires Narrows(s, s', p) && !Reaches(s, p)
    ensures Spares(s, s', p)
  {
    hide Owed, Retired, Claims, IsPart, Placed?;
  }

  // ----- worker steps -----

  lemma WorkSpares(s: State, w: WorkerId, o: Oracle, stick: bool, p: Path)
    requires Inv(s) && WellLinked(s.ix) && Shapes(s) && Enabled(s, Work(w, o, stick)) && p in s.disk && !Reaches(s, p)
    ensures Spares(s, Apply(s, Work(w, o, stick)), p)
  {
    hide Files, Deletions, Events, Store, WellLinked, TaskShape, StageShape, Claims, Reaches, Spares, JobsOk;
    var t := s.workers[w].task;
    assert Placed?(s, w, t);
    var v := ViewOf(s, w, t);
    assert v.Ok() && v.Can(o);
    var e := Act(v.job, v.id, v.t, v.stage, o, stick, v.disk, v.shutdown);
    assert Apply(s, Work(w, o, stick)) == Worked(s, w, e);
    hide Act, CanAct, Apply, TasksOk, WorkersOk, Enabled, Tokens;
    assert TaskShape(v.job.kind, v.t) && StageShape(v.job.kind, v.t, v.stage);
    hide Shapes, View.Ok;
    ActKeeps(v, o, stick);
    ActTouches(v, o, stick);
    ActClaims(v, o, stick);
    KeepsIdentity(v, e);
    MissingNext(v, o, stick);
    hide Keeps, AimsWell;
    WorkTokens(s, w, t, e);
    EffectSpares(s, w, t, e, p);
  }

  ghost predicate AimsWell(v: View, e: Effect) {
    && Claims(v.job.kind, e.task) <= Claims(v.job.kind, if v.stage.Missing? then v.t.(filePath := v.stage.path) else v.t)
    && (e.stage.Missing? ==>
          forall p :: p in Claims(v.job.kind, e.task.(filePath := e.stage.path)) ==> p in Claims(v.job.kind, v.t) || p !in v.disk)
  }

  /** What a task claims next, it claims now or was already aimed at; what it aims at next is not on disk. */
  lemma MissingNext(v: View, o: Oracle, stick: bool)
    requires v.Ok() && v.Can(o) && TaskShape(v.job.kind, v.t) && StageShape(v.job.kind, v.t, v.stage)
    ensures AimsWell(v, Act(v.job, v.id, v.t, v.stage, o, stick, v.disk, v.shutdown))
  {
    hide Claims, FinalPath, Ext, ReplaceExt, IsZip, FormatExt, PartPath, TaskWritten, View.Ok, CanAct, TaskShape, StageShape;
    if v.stage.Missing? {
      ClaimsByPath(v.job.kind, v.t.(filePath := v.stage.path), v.t.(wroteFile := false, filePath := v.stage.path));
    } else if v.stage.ZipStat? {
      ZipStatAims(v, o, stick);
    } else if v.stage.Stat? {
      hide ActLocked;
      assert v.t.(filePath := v.t.filePath) == v.t;
    } else {
      NoAim(v, o, stick);
      ActClaims(v, o, stick);
      hide Act;
    }
  }

  lemma ZipStatAims(v: View, o: Oracle, stick: bool)
    requires v.Ok() && v.Can(o) && TaskShape(v.job.kind, v.t) && StageShape(v.job.kind, v.t, v.stage) && v.stage.ZipStat?
    ensures AimsWell(v, Act(v.job, v.id, v.t, v.stage, o, stick, v.disk, v.shutdown))
  {
    var zip := ReplaceExt(v.t.filePath, ZIP);
    hide Claims, FinalPath, Ext, ReplaceExt, IsZip, FormatExt, PartPath, ActLocked, StageOk, StageDisk;
    FallbackClaims(v.job.kind, v.t);
    ClaimsByPath(v.job.kind, v.t.(wroteFile := false, filePath := zip), v.t.(filePath := zip));
  }

  lemma NoAim(v: View, o: Oracle, stick: bool)
    requires v.Can(o) && !v.stage.Stat? && !v.stage.ZipStat?
    ensures !Act(v.job, v.id, v.t, v.stage, o, stick, v.disk, v.shutdown).stage.Missing?
  {
    hide IsZip, ReplaceExt, PartPath, OutPath, TaskWritten, CanAct, Settled, ResolveCancelled, SidecarStatus, SidecarOwned, HasSidecar, ToConvert;
  }

  lemma ClaimsByPath(kind: Kind, a: Task, b: Task)
    requires a.filePath == b.filePath && a.metadataPath == b.metadataPath
    ensures Claims(kind, a) == Claims(kind, b)
  {
  }

  lemma EffectSpares(s: State, w: WorkerId, t: TaskId, e: Effect, p: Path)
    requires Placed?(s, w, t) && Touches(ViewOf(s, w, t), e) && SameIdentity(e.task, s.ix.tasks[t]) && p in s.disk && !Reaches(s, p)
    requires forall v, u :: Holds(Worked(s, w, e), v, u) <==> Holds(s, v, u)
    requires forall v, u :: Holds(s, v, u) && v != w ==> u != t
    requires AimsWell(ViewOf(s, w, t), e)
    ensures Spares(s, Worked(s, w, e), p)
  {
    hide Claims, Owed, IsPart, Spares, Reaches;
    var s' := Worked(s, w, e);
    var v := ViewOf(s, w, t);
    OutOfReach(s, w, t, p);
    assert SameAt(v.disk, e.disk, p);
    forall j: JobId | Owed(s', j, p) ensures Owed(s, j, p) {
      OwedBefore(s, w, t, e, j, p);
    }
    assert forall u :: u in s.ix.tasks ==> (Held(s', u) <==> Held(s, u));
    hide Holds, Held, Touches, SameAt;
    NarrowsSpares(s, s', p);
  }

  lemma OutOfReach(s: State, w: WorkerId, t: TaskId, p: Path)
    requires Placed?(s, w, t) && !Reaches(s, p)
    ensures !IsPart(p) && p !in ClaimsOf(s.ix, t)
    ensures s.workers[w].stage.Missing? ==> p !in FetchClaims(s, w, t)
  {
    hide Claims, IsPart;
    assert Held(s, t);
  }

  lemma OwedBefore(s: State, w: WorkerId, t: TaskId, e: Effect, j: JobId, p: Path)
    requires Placed?(s, w, t) && Owed(Worked(s, w, e), j, p) && p !in e.drop
    ensures Owed(s, j, p)
  {
  }

  // ----- the other steps -----

  lemma ReportsSpares(s: State, s': State, j: JobId, p: Path)
    requires Reports(s, s', j) && OverStays(s, s') && p in s.disk && !Reaches(s, p)
    requires forall w, t :: Holds(s', w, t) ==> Holds(s, w, t) && s'.workers[w] == s.workers[w]
    ensures Spares(s, s', p)
  {
    hide Claims, IsPart, WellLinked, JobAggregate;
    LinkedJob(s.ix);
    forall u | u in s'.ix.tasks ensures u in s.ix.tasks && ClaimsOf(s'.ix, u) == ClaimsOf(s.ix, u) && (Retired(s, u) ==> Retired(s', u)) {
      ReportedTask(s, s', j, u);
    }
    forall i: JobId | Owed(s', i, p) ensures Owed(s, i, p) {
      ReportedOwed(s, s', j, i, p);
    }
    forall w, u | Placed?(s', w, u) && s'.workers[w].stage.Missing? && p in FetchClaims(s', w, u)
      ensures Placed?(s, w, u) && s.workers[w].stage.Missing? && p in FetchClaims(s, w, u) {
      ReportedFetch(s, s', j, w, u);
    }
    hide Reports, Placed?, Retired, Owed, OverStays;
    NarrowsSpares(s, s', p);
  }

  lemma ReportedTask(s: State, s': State, j: JobId, u: TaskId)
    requires Reports(s, s', j) && OverStays(s, s') && u in s'.ix.tasks
    requires forall t :: t in s.ix.tasks ==> s.ix.tasks[t].job in s.ix.jobs
    requires forall w, t :: Holds(s', w, t) ==> Holds(s, w, t)
    ensures u in s.ix.tasks && s'.ix.tasks[u].job == s.ix.tasks[u].job && s'.ix.tasks[u].job in s'.ix.jobs
    ensures ClaimsOf(s'.ix, u) == ClaimsOf(s.ix, u) && (Retired(s, u) ==> Retired(s', u))
  {
    hide WellLinked, JobAggregate, Get, JobRecorded;
  }

  lemma ReportedFetch(s: State, s': State, j: JobId, w: WorkerId, u: TaskId)
    requires Reports(s, s', j) && Placed?(s', w, u) && s'.workers[w].stage.Missing? && Holds(s, w, u) && s'.workers[w] == s.workers[w]
    requires u in s.ix.tasks && s.ix.tasks[u].job in s.ix.jobs
    ensures Placed?(s, w, u) && s.workers[w].stage.Missing? && FetchClaims(s', w, u) == FetchClaims(s, w, u)
  {
    hide WellLinked, JobAggregate, Get, JobRecorded, FinalPath;
  }

  lemma ReportedOwed(s: State, s': State, j: JobId, i: JobId, p: Path)
    requires Reports(s, s', j) && Owed(s', i, p) && !Reaches(s, p)
    ensures Owed(s, i, p)
  {
    hide WellLinked, JobAggregate, IsPart, Claims, AllOver;
    if Dies(s, s', j) && JobRecorded(s'.ix, j, p) {
      var u :| u in s'.ix.jobs[j].tasks && u in s'.ix.tasks && Recorded(s'.ix.tasks[u], p);
      DyingClaims(s, s', j, u, p);
      assert false;
    }
  }

  lemma DyingClaims(s: State, s': State, j: JobId, u: TaskId, p: Path)
    requires Reports(s, s', j) && Dies(s, s', j) && u in s'.ix.jobs[j].tasks && u in s'.ix.tasks && Recorded(s'.ix.tasks[u], p)
    ensures Claimed(s, p)
  {
    LinkedTasksOf(s.ix, j);
    hide WellLinked, JobAggregate, FinalPath, JobRecorded, Get;
    SameFiles(s.ix.tasks[u], s'.ix.tasks[u], p);
    RecordedClaimed(s.ix.jobs[j].kind, s.ix.tasks[u], p);
    hide Claims, Recorded;
    assert !Retired(s, u);
    assert p in ClaimsOf(s.ix, u);
  }

  lemma LinkedTasksOf(ix: Index, j: JobId)
    requires WellLinked(ix) && j in ix.jobs
    ensures forall t :: t in ix.jobs[j].tasks ==> t in ix.tasks && ix.tasks[t].job == j
  {
  }

  lemma RecordedClaimed(kind: Kind, t: Task, p: Path)
    requires Recorded(t, p)
    ensures p in Claims(kind, t)
  {
  }

  lemma CancelSpares(s: State, j: JobId, p: Path)
    requires Inv(s) && WellLinked(s.ix) && Enabled(s, CancelStep(j)) && p in s.disk && !Reaches(s, p)
    ensures Spares(s, Apply(s, CancelStep(j)), p)
  {
    hide WellLinked, Reports, Spares, Reaches, CancelJob, Tokens, WorkersOk, TasksOk, JobsOk, Files, Deletions, Events, Store, OverStays, Advances;
    CancelReports(s, j);
    CancelProgress(s, j);
    var s' := Apply(s, CancelStep(j));
    assert s'.workers == s.workers;
    hide Apply, Inv;
    ReportsSpares(s, s', j, p);
  }

  lemma ReportSpares(s: State, w: WorkerId, p: Path)
    requires Inv(s) && WellLinked(s.ix) && Enabled(s, ReportStep(w)) && p in s.disk && !Reaches(s, p)
    ensures Spares(s, Apply(s, ReportStep(w)), p)
  {
    hide WellLinked, Reports, Spares, Reaches, TransitionJob, Tokens, WorkersOk, TasksOk, JobsOk, Files, Deletions, Events, Store, OverStays, Advances;
    ReportProgress(s, w);
    var j := s.ix.tasks[s.workers[w].task].job;
    TransitionIndex(s.ix, j);
    var m := Moved(s, j, TransitionJob(s.ix, j));
    TransitionReports(s, j);
    hide Inv, JobRecorded;
    var s' := Apply(s, ReportStep(w));
    assert s' == m.(workers := s'.workers) && s'.workers == s.workers[w := Idle];
    hide Apply;
    ReportsWorkerless(s, m, s', j);
    ReportsSpares(s, s', j, p);
  }

  lemma {:induction false} CheckedFresh(kind: Kind, metadata: bool, ts: seq<Task>, reserved: set<Path>, disk: set<Path>,
                                        random: seq<seq<Bytes>>, i: nat)
    requires Randoms(random, |ts|) && i < |ts| && forall k :: 0 <= k < |ts| ==> Unwritten(kind, metadata, ts[k])
    requires PlaceAll(kind, metadata, ts, reserved, disk, random).checked
    ensures Claims(kind, PlaceAll(kind, metadata, ts, reserved, disk, random).tasks[i]) !! disk
    decreases |ts|
  {
    hide Place, Claims, Unwritten;
    var n := |ts| - 1;
    var front := PlaceAll(kind, metadata, ts[..n], reserved, disk, random[..n]);
    var last := Place(kind, metadata, ts[n], front.reserved, disk, random[n]);
    assert PlaceAll(kind, metadata, ts, reserved, disk, random)
        == Batch(front.tasks + [last.task], last.reserved, front.checked && last.checked);
    hide PlaceAll;
    if i < n {
      CheckedFresh(kind, metadata, ts[..n], reserved, disk, random[..n], i);
    } else {
      PlacedIsFresh(kind, metadata, ts[n], front.reserved, disk, random[n]);
    }
  }

  lemma SubmitSpares(s: State, j: JobId, job: Job, tasks: seq<Task>, random: seq<seq<Bytes>>, p: Path)
    requires Inv(s) && WellLinked(s.ix) && IsSubmission(s, j, job, tasks, random) && p in s.disk && !Reaches(s, p)
    requires PlaceAll(job.kind, job.metadata, tasks, ReservedPaths(s.ix), s.disk.Keys, random).checked
    ensures Spares(s, Apply(s, Submit(j, job, tasks, random)), p)
  {
    hide Inv, WellLinked, ReservedPaths, Claims, Unwritten, Apply, PlaceAll, JoinsApart, IsNewTask, Joins, Spares, Reaches;
    SubmitIs(s, j, job, tasks, random);
    SubmitJoins(s, j, job, tasks, random);
    var ts := PlaceAll(job.kind, job.metadata, tasks, ReservedPaths(s.ix), s.disk.Keys, random).tasks;
    forall i | 0 <= i < |tasks| ensures Unwritten(job.kind, job.metadata, tasks[i]) {
      NewIsUnwritten(j, job, tasks[i]);
    }
    forall i | 0 <= i < |ts| ensures p !in Claims(job.kind, ts[i]) {
      CheckedFresh(job.kind, job.metadata, tasks, ReservedPaths(s.ix), s.disk.Keys, random, i);
    }
    hide IsSubmission;
    JoinSpares(s, Apply(s, Submit(j, job, tasks, random)), j, job, ts, p);
  }

  lemma JoinSpares(s: State, s': State, j: JobId, job: Job, ts: seq<Task>, p: Path)
    requires Inv(s) && Joins(s, s', j, job) && JoinsApart(s.ix, s'.ix, j, job, ts) && p in s.disk && !Reaches(s, p)
    requires forall i :: 0 <= i < |ts| ==> p !in Claims(job.kind, ts[i])
    ensures Spares(s, s', p)
  {
    hide Tokens, WorkersOk, TasksOk, JobsOk, Files, Deletions, Events, Store, Claims, IsPart, Reaches, Spares, JoinsApart, WellLinked;
    InvBasics(s);
    JoinRest(s, s', j, job, p);
    forall u | u in s'.ix.tasks && s'.ix.tasks[u].job in s'.ix.jobs && !Retired(s', u) && p in ClaimsOf(s'.ix, u)
      ensures u in s.ix.tasks && s.ix.tasks[u].job in s.ix.jobs && !Retired(s, u) && p in ClaimsOf(s.ix, u)
    {
      JoinTask(s, s', j, job, ts, u, p);
    }
    hide Joins, Retired, Owed, Placed?;
    NarrowsSpares(s, s', p);
  }

  lemma JoinRest(s: State, s': State, j: JobId, job: Job, p: Path)
    requires Inv(s) && Joins(s, s', j, job) && p in s.disk
    ensures p in s'.disk && s'.disk[p] == s.disk[p]
    ensures forall i: JobId :: Owed(s', i, p) ==> Owed(s, i, p)
    ensures forall w, u :: Placed?(s', w, u) && s'.workers[w].stage.Missing? && p in FetchClaims(s', w, u) ==>
      Placed?(s, w, u) && s.workers[w].stage.Missing? && p in FetchClaims(s, w, u)
  {
    assert WorkersOk(s);
    hide Inv, Claims;
    forall w, u | Placed?(s', w, u) ensures Placed?(s, w, u) && s'.ix.tasks[u] == s.ix.tasks[u] && s'.ix.jobs[s.ix.tasks[u].job] == s.ix.jobs[s.ix.tasks[u].job] {
      assert Holds(s, w, u);
    }
    assert forall i: JobId :: Owed(s', i, p) <==> Owed(s, i, p);
  }

  lemma JoinTask(s: State, s': State, j: JobId, job: Job, ts: seq<Task>, u: TaskId, p: Path)
    requires WellLinked(s.ix) && Joins(s, s', j, job) && JoinsApart(s.ix, s'.ix, j, job, ts)
    requires forall i :: 0 <= i < |ts| ==> p !in Claims(job.kind, ts[i])
    requires u in s'.ix.tasks && s'.ix.tasks[u].job in s'.ix.jobs && !Retired(s', u) && p in ClaimsOf(s'.ix, u)
    ensures u in s.ix.tasks && s.ix.tasks[u].job in s.ix.jobs && !Retired(s, u) && p in ClaimsOf(s.ix, u)
  {
    LinkedJob(s.ix);
    hide WellLinked, Claims;
    if u !in s.ix.tasks {
      NewUnclaimed(s, s', j, job, ts, u, p);
    }
    assert forall w :: Holds(s', w, u) <==> Holds(s, w, u);
  }

  lemma NewUnclaimed(s: State, s': State, j: JobId, job: Job, ts: seq<Task>, u: TaskId, p: Path)
    requires JoinsApart(s.ix, s'.ix, j, job, ts) && u in s'.ix.tasks && u !in s.ix.tasks && s'.ix.tasks[u].job in s'.ix.jobs
    requires forall i :: 0 <= i < |ts| ==> p !in Claims(job.kind, ts[i])
    ensures p !in ClaimsOf(s'.ix, u)
  {
    hide Claims;
    var i :| 0 <= i < |job.tasks| && job.tasks[i] == u;
    assert ClaimsOf(s'.ix, u) == Claims(job.kind, ts[i]);
  }

  lemma LeaseSpares(s: State, w: WorkerId, t: TaskId, p: Path)
    requires Inv(s) && WellLinked(s.ix) && Enabled(s, Lease(w, t)) && p in s.disk && !Reaches(s, p)
    ensures Spares(s, Apply(s, Lease(w, t)), p)
  {
    hide WellLinked, Takes, Spares, Reaches, Tokens, WorkersOk, TasksOk, JobsOk, Files, Deletions, Events, Store;
    var s' := Apply(s, Lease(w, t));
    if s.ix.tasks[t].status.IsTerminal() {
      SameSpares(s, s', p);
    } else {
      LeaseTakes(s, s', w, t);
      LeasedTokens(s, s', w, t);
      hide Apply, Enabled, Inv;
      TakesSpares(s, s', w, t, p);
    }
  }

  lemma TakesSpares(s: State, s': State, w: WorkerId, t: TaskId, p: Path)
    requires Takes(s, s', w, t) && p in s.disk && !Reaches(s, p)
    requires forall v, u :: Holds(s', v, u) <==> Holds(s, v, u) || (v == w && u == t)
    ensures Spares(s, s', p)
  {
    hide Claims, IsPart, Reaches, Spares;
    forall u | u in s'.ix.tasks && s'.ix.tasks[u].job in s'.ix.jobs
      ensures u in s.ix.tasks && s.ix.tasks[u].job in s.ix.jobs && ClaimsOf(s'.ix, u) == ClaimsOf(s.ix, u) && (Retired(s, u) ==> Retired(s', u))
    {
      TakenTask(s, s', w, t, u);
    }
    forall v, u | Placed?(s', v, u) && s'.workers[v].stage.Missing? && p in FetchClaims(s', v, u)
      ensures Placed?(s, v, u) && s.workers[v].stage.Missing? && p in FetchClaims(s, v, u) {
      assert v != w && Holds(s, v, u);
      TakenFetch(s, s', w, t, v, u);
    }
    assert forall i: JobId :: Owed(s', i, p) <==> Owed(s, i, p);
    hide Takes, Owed, Retired, Placed?;
    NarrowsSpares(s, s', p);
  }

  lemma TakenTask(s: State, s': State, w: WorkerId, t: TaskId, u: TaskId)
    requires Takes(s, s', w, t) && u in s'.ix.tasks && s'.ix.tasks[u].job in s'.ix.jobs
    requires forall v, x :: Holds(s', v, x) <==> Holds(s, v, x) || (v == w && x == t)
    ensures u in s.ix.tasks && s.ix.tasks[u].job in s.ix.jobs && ClaimsOf(s'.ix, u) == ClaimsOf(s.ix, u) && (Retired(s, u) ==> Retired(s', u))
  {
    hide FinalPath, Holds;
  }

  lemma TakenFetch(s: State, s': State, w: WorkerId, t: TaskId, v: WorkerId, u: TaskId)
    requires Takes(s, s', w, t) && Placed?(s', v, u) && s'.workers[v].stage.Missing? && Holds(s, v, u) && v != w
    ensures Placed?(s, v, u) && s.workers[v].stage.Missing? && FetchClaims(s', v, u) == FetchClaims(s, v, u)
  {
    hide FinalPath;
  }

  /** Steps that change neither tasks nor jobs nor workers. */
  lemma SameSpares(s: State, s': State, p: Path)
    requires s'.ix.tasks == s.ix.tasks && s'.ix.jobs == s.ix.jobs && s'.workers == s.workers && p in s.disk && !Reaches(s, p)
    requires forall j: JobId :: Owed(s', j, p) ==> Owed(s, j, p)
    requires p in s'.disk && s'.disk[p] == s.disk[p]
    ensures Spares(s, s', p)
  {
    hide Claims, IsPart, Owed, Spares, Reaches;
    assert forall w, u :: Holds(s', w, u) <==> Holds(s, w, u);
    assert forall u :: Held(s', u) <==> Held(s, u);
    assert forall w, u :: Placed?(s', w, u) <==> Placed?(s, w, u);
    hide Holds, Held, Placed?;
    NarrowsSpares(s, s', p);
  }

  /** Files stay if nobody outside touches them and submissions are checked against the disk. */
  predicate Leaves(s: State, step: Step, p: Path)
    requires Enabled(s, step)
  {
    match step
    case Submit(j, job, tasks, random) => PlaceAll(job.kind, job.metadata, tasks, ReservedPaths(s.ix), s.disk.Keys, random).checked
    case Outside(q, _) => q != p
    case _ => true
  }

  lemma StepSpares(s: State, step: Step, p: Path)
    requires Inv(s) && WellLinked(s.ix) && Shapes(s) && Enabled(s, step) && Leaves(s, step, p) && p in s.disk && !Reaches(s, p)
    ensures Spares(s, Apply(s, step), p)
  {
    hide Inv, WellLinked, Shapes, Apply, IsSubmission, CanAct, PlaceAll, ReservedPaths, Spares, Reaches;
    match step {
      case Submit(j, job, tasks, random) => SubmitSpares(s, j, job, tasks, random, p);
      case CancelStep(j) => CancelSpares(s, j, p);
      case Lease(w, t) => LeaseSpares(s, w, t, p);
      case Work(w, o, stick) => WorkSpares(s, w, o, stick, p);
      case ReportStep(w) => ReportSpares(s, w, p);
      case _ => OtherSpares(s, step, p);
    }
  }

  lemma OtherSpares(s: State, step: Step, p: Path)
    requires WellLinked(s.ix) && Enabled(s, step) && Leaves(s, step, p) && p in s.disk && !Reaches(s, p)
    requires step.Remove? || step.BeginSave? || step.BeginSaveFor? || step.EndSave? || step.Delete? || step.Outside? || step.Shutdown?
    ensures Spares(s, Apply(s, step), p)
  {
    hide WellLinked, Spares, Claimed, Aimed, IsPart, Act, Submitted, TransitionJob, CancelJob, Removals, Worked, Moved, Leased, CanAct, IsSubmission, PlaceAll;
    var s' := Apply(s, step);
    assert !Scheduled(s, p);
    assert step.Delete? && step.r.path == p ==> Owed(s, step.r.job, p);
    forall j: JobId | Owed(s', j, p) ensures Owed(s, j, p) {
      if step.BeginSaveFor? {
        assert p in Get(s.staged, step.j) ==> Owed(s, step.j, p);
      }
    }
    assert s'.ix.tasks == s.ix.tasks && s'.ix.jobs == s.ix.jobs && s'.workers == s.workers;
    assert p in s'.disk && s'.disk[p] == s.disk[p];
    hide Apply, Enabled, Owed, Scheduled, Reaches;
    SameSpares(s, s', p);
  }

  ghost predicate LeavesAll(run: seq<State>, steps: seq<Step>, i: nat, k: nat, p: Path)
    requires i <= k <= |steps| < |run|
  {
    forall m :: i <= m < k ==> Enabled(run[m], steps[m]) && Leaves(run[m], steps[m], p)
  }

  /** A file out of the manager's reach stays out of reach and as it is, whatever the manager goes on to do. */
  lemma {:induction false} FileStays(run: seq<State>, steps: seq<Step>, i: nat, k: nat, p: Path)
    requires IsRun(run, steps) && i <= k < |run| == |steps| + 1 && Shapes(run[0])
    requires p in run[i].disk && !Reaches(run[i], p) && LeavesAll(run, steps, i, k, p)
    ensures p in run[k].disk && run[k].disk[p] == run[i].disk[p] && !Reaches(run[k], p)
    decreases k
  {
    hide Inv, WellLinked, Enabled, Apply, IsRun, Shapes, Reaches, Leaves;
    if i < k {
      FileStays(run, steps, i, k - 1, p);
      RunKeeps(run, steps, k - 1);
      RunStep(run, steps, k - 1);
      RunShapes(run, steps, k - 1);
      StepSpares(run[k - 1], steps[k - 1], p);
    }
  }

  /** Another job may still write or delete the path. */
  ghost predicate OthersReach(s: State, j: JobId, p: Path) {
    || IsPart(p)
    || (exists u :: u in s.ix.tasks && s.ix.tasks[u].job in s.ix.jobs && s.ix.tasks[u].job != j && !Retired(s, u) && p in ClaimsOf(s.ix, u))
    || (exists i: JobId :: i != j && Owed(s, i, p))
    || (exists w, u :: Placed?(s, w, u) && s.ix.tasks[u].job != j && s.workers[w].stage.Missing? && p in FetchClaims(s, w, u))
  }

  lemma QuietReach(s: State, j: JobId, p: Path)
    requires IsOver(s, j) && IsQuiet(s, j) && !OthersReach(s, j, p)
    ensures !Reaches(s, p)
  {
    hide Claims, IsPart;
    forall u | u in s.ix.tasks && s.ix.tasks[u].job == j ensures Retired(s, u) {
      assert Held(s, u) ==> Engaged(s, j);
    }
    assert forall w, u :: Placed?(s, w, u) ==> s.ix.tasks[u].job != j;
    assert !Owed(s, j, p);
    hide Retired, Owed, IsQuiet, Placed?;
  }

  /** What all-or-nothing leaves behind stays behind: a file of a job that is over and quiet, out of reach of
      the other jobs, is there for good unless somebody outside touches it. */
  lemma LeftoverStays(run: seq<State>, steps: seq<Step>, i: nat, k: nat, t: TaskId, p: Path)
    requires IsRun(run, steps) && i <= k < |run| == |steps| + 1 && Shapes(run[0])
    requires t in run[i].ix.tasks && IsOver(run[i], run[i].ix.tasks[t].job) && IsQuiet(run[i], run[i].ix.tasks[t].job)
    requires Written(run[i].disk, p, t) && !OthersReach(run[i], run[i].ix.tasks[t].job, p) && LeavesAll(run, steps, i, k, p)
    ensures Written(run[k].disk, p, t)
  {
    hide IsRun, Shapes, Reaches, LeavesAll, OthersReach, IsQuiet, IsOver;
    QuietReach(run[i], run[i].ix.tasks[t].job, p);
    FileStays(run, steps, i, k, p);
  }
}
