/** No two unfinished tasks share an output: every step keeps the claimed paths apart, and the one
    step that can break this does so on an exact condition. */
module DownloadDisjoint {
  import opened Utf8
  import opened Naming
  import opened Collision
  import opened DownloadCore
  import opened DownloadPaths
  import opened DownloadRun
  import opened DownloadSafety
  import opened DownloadInvariant
  import opened DownloadSteps
  import opened DownloadMoves
  import opened DownloadSubmission
  import opened DownloadRuns

  function ClaimsOf(ix: Index, t: TaskId): set<Path>
    requires t in ix.tasks && ix.tasks[t].job in ix.jobs
  {
    Claims(ix.jobs[ix.tasks[t].job].kind, ix.tasks[t])
  }

  predicate IsLive(ix: Index, t: TaskId) {
    t in ix.tasks && ix.tasks[t].job in ix.jobs && !ix.tasks[t].status.IsTerminal()
  }

  /** Distinct unfinished tasks claim disjoint sets of {current path, final path, sidecar path}. */
  ghost predicate Apart(ix: Index) {
    forall t, u :: t != u && IsLive(ix, t) && IsLive(ix, u) ==> ClaimsOf(ix, t) !! ClaimsOf(ix, u)
  }

  /** A task has a path, and a ugoira that is no zip any more carries the extension of its format. */
  predicate TaskShape(kind: Kind, t: Task) {
    t.filePath != [] && (kind.Ugoira? && !kind.format.Keep? && !IsZip(t.filePath) ==> Ext(t.filePath) == FormatExt(kind.format))
  }

  predicate StageShape(kind: Kind, t: Task, stage: Stage) {
    && (stage.Transfer? ==> IsPart(stage.part))
    && (stage.ZipStat? ==> kind.Ugoira? && !IsZip(t.filePath))
    && (stage.Missing? && stage.path != t.filePath ==> kind.Ugoira? && !IsZip(t.filePath) && stage.path == ReplaceExt(t.filePath, ZIP))
    && ((stage.Encode? || stage.Encoded? || stage.Converted?) ==>
      kind.Ugoira? && !kind.format.Keep? && IsZip(t.filePath) && stage.out == ReplaceExt(t.filePath, FormatExt(kind.format)))
  }

  /** No sidecar path without metadata. */
  predicate JobShape(job: Job, t: Task) { TaskShape(job.kind, t) && (!job.metadata ==> t.metadataPath == []) }

  ghost predicate Shapes(s: State) {
    && (forall t :: t in s.ix.tasks && s.ix.tasks[t].job in s.ix.jobs ==> JobShape(s.ix.jobs[s.ix.tasks[t].job], s.ix.tasks[t]))
    && (forall w, t :: Placed?(s, w, t) ==> StageShape(s.ix.jobs[s.ix.tasks[t].job].kind, s.ix.tasks[t], s.workers[w].stage))
  }

  /** `reuseMedia` is about to fall back from a lost converted file to the zip name beside it. */
  predicate FallsBack(v: View) { v.stage.Missing? && v.stage.path != v.t.filePath }

  lemma IsExtOfFormat(f: Format)
    ensures IsExt(FormatExt(f)) && IsExt(ZIP)
  {
  }

  lemma ConvertedShape(kind: Kind, t: Task)
    requires kind.Ugoira? && !kind.format.Keep? && IsZip(t.filePath)
    ensures Ext(ReplaceExt(t.filePath, FormatExt(kind.format))) == FormatExt(kind.format)
    ensures FinalPath(kind, t.filePath) == ReplaceExt(t.filePath, FormatExt(kind.format))
    ensures !IsZip(ReplaceExt(t.filePath, FormatExt(kind.format)))
  {
    IsExtOfFormat(kind.format);
    var x := t.filePath[..|t.filePath| - |Ext(t.filePath)|];
    ReplacedExt(x, FormatExt(kind.format), ZIP);
  }

  lemma FallbackFinal(kind: Kind, p: Path)
    requires kind.Ugoira? && p != [] && !IsZip(p) && (!kind.format.Keep? ==> Ext(p) == FormatExt(kind.format))
    ensures var zip := ReplaceExt(p, ZIP);
      && zip != [] && IsZip(zip) && FinalPath(kind, p) == p
      && FinalPath(kind, zip) == if kind.format.Keep? then zip else p
  {
    ExtShape(p);
    var x := p[..|p| - |Ext(p)|];
    assert p == x + Ext(p) && ReplaceExt(p, ZIP) == x + ZIP;
    IsExtOfFormat(Keep);
    if kind.format.Keep? {
      ReplacedExt(x, ZIP, ZIP);
    } else {
      ReplacedExt(x, ZIP, FormatExt(kind.format));
      hide Ext;
    }
  }

  /** Falling back to the zip adds exactly the zip path to what the task claims. */
  lemma FallbackClaims(kind: Kind, t: Task)
    requires kind.Ugoira? && t.filePath != [] && !IsZip(t.filePath) && TaskShape(kind, t)
    ensures var zip := ReplaceExt(t.filePath, ZIP); var t' := t.(wroteFile := false, filePath := zip);
      && zip in Claims(kind, t') && Claims(kind, t') <= Claims(kind, t) + {zip} && TaskShape(kind, t')
  {
    hide Ext, ReplaceExt, IsZip, FormatExt, FinalPath;
    FallbackFinal(kind, t.filePath);
  }

  /** A worker step keeps the shapes, and claims no new path unless it falls back. */
  lemma ActClaims(v: View, o: Oracle, stick: bool)
    requires v.Ok() && v.Can(o) && TaskShape(v.job.kind, v.t) && StageShape(v.job.kind, v.t, v.stage)
    ensures var e := Act(v.job, v.id, v.t, v.stage, o, stick, v.disk, v.shutdown);
      && TaskShape(v.job.kind, e.task) && StageShape(v.job.kind, e.task, e.stage)
      && (FallsBack(v) || Claims(v.job.kind, e.task) <= Claims(v.job.kind, v.t))
  {
    if FallsBack(v) {
      hide Claims, FinalPath, Ext, ReplaceExt, IsZip, FormatExt;
      FallbackClaims(v.job.kind, v.t);
    } else if v.stage.Converted? {
      ConvertedShape(v.job.kind, v.t);
      hide Ext, ReplaceExt, IsZip, FormatExt;
    } else {
      hide Claims, FinalPath, Ext, ReplaceExt, IsZip, FormatExt, PartPath, TaskWritten;
      UnmovedClaims(v, o, stick);
    }
  }

  /** File actions leave the task alone; a converter picks the final path. */
  lemma FileStageShape(v: View, o: Oracle, stick: bool)
    requires v.Ok() && v.Can(o) && IsFileStage(v.stage) && StageShape(v.job.kind, v.t, v.stage)
    ensures StageShape(v.job.kind, v.t, ActOnFiles(v.job, v.id, v.t, v.stage, o, stick, v.disk, v.shutdown).stage)
  {
    hide Ext, ReplaceExt, IsZip, FormatExt, PartPath, StageOk, StageMore, StageDisk;
  }

  /** Sections under the lock leave the paths alone but for the conversion and the fallback. */
  lemma LockStageShape(v: View, o: Oracle)
    requires v.Ok() && v.Can(o) && !IsFileStage(v.stage) && !FallsBack(v) && !v.stage.Converted?
    requires v.t.wroteFile ==> v.t.filePath != []
    ensures var e := ActLocked(v.job, v.t, v.stage, o, v.shutdown);
      && SamePaths(e.task, v.t) && PlainStage(e.stage)
  {
    hide Ext, ReplaceExt, IsZip, FormatExt, TaskWritten, StageOk, StageDisk, CanAct;
    if !v.stage.Reuse? && !v.stage.Missing? && !v.stage.Irregular? {
      assert v.stage.Renamed? ==> v.t.filePath != [];
      hide FallsBack, View.Ok;
      SettledPaths(v, o);
    }
  }

  predicate PlainStage(stage: Stage) {
    !stage.Transfer? && !stage.Encode? && !stage.Encoded? && !stage.Converted? && !stage.ZipStat? && !stage.Missing?
  }

  lemma SettledPaths(v: View, o: Oracle)
    requires !IsFileStage(v.stage) && !v.stage.Reuse? && !v.stage.Missing? && !v.stage.Irregular? && !v.stage.Converted?
    requires v.t.wroteFile || v.stage.Renamed? ==> v.t.filePath != []
    ensures var e := ActLocked(v.job, v.t, v.stage, o, v.shutdown);
      && SamePaths(e.task, v.t) && PlainStage(e.stage)
  {
    hide TaskWritten, Recorded, Ext, IsZip, ReplaceExt, FormatExt, SamePaths, SidecarStatus, SidecarOwned, Settled, ResolveCancelled, ContextDone;
    OutcomePaths(v.t, v.stage, v.shutdown);
  }

  lemma OutcomePaths(t: Task, stage: Stage, shutdown: bool)
    requires t.wroteFile || stage.Renamed? ==> t.filePath != []
    ensures SamePaths(t, t) && SamePaths(t.(armed := false), t) && SamePaths(ResolveCancelled(t, shutdown), t)
    ensures SamePaths(Settled(t, Failed), t) && SamePaths(Settled(t, Completed), t)
    ensures stage.Renamed? ==> SamePaths(t.(wroteFile := true), t) && SamePaths(Settled(t.(wroteFile := true), Completed), t)
    ensures stage.SidecarDone? ==> SamePaths(SidecarStatus(SidecarOwned(t, stage.outcome), stage.outcome, shutdown), t)
  {
  }

  predicate SamePaths(a: Task, b: Task) {
    a.filePath == b.filePath && a.metadataPath == b.metadataPath && (a.wroteFile ==> a.filePath != [])
  }

  lemma UnmovedClaims(v: View, o: Oracle, stick: bool)
    requires v.Ok() && v.Can(o) && !FallsBack(v) && !v.stage.Converted?
    requires TaskShape(v.job.kind, v.t) && StageShape(v.job.kind, v.t, v.stage)
    ensures var e := Act(v.job, v.id, v.t, v.stage, o, stick, v.disk, v.shutdown);
      && TaskShape(v.job.kind, e.task) && StageShape(v.job.kind, e.task, e.stage)
      && Claims(v.job.kind, e.task) == Claims(v.job.kind, v.t)
  {
    hide Ext, ReplaceExt, IsZip, FormatExt, FinalPath, ActOnFiles, ActLocked, StageOk, StageMore, StageDisk, CanAct, FallsBack;
    if IsFileStage(v.stage) {
      FileStageShape(v, o, stick);
    } else {
      LockStageShape(v, o);
    }
  }

  // ----- the index as a whole -----

  /** Losing unfinished tasks or claims keeps the rest apart. */
  lemma ShrinkApart(a: Index, b: Index)
    requires Apart(a)
    requires forall t :: IsLive(b, t) ==> IsLive(a, t) && ClaimsOf(b, t) <= ClaimsOf(a, t)
    ensures Apart(b)
  {
    hide Claims;
  }

  /** Paths stayed put: the step moved statuses only. */
  ghost predicate StatusOnly(a: Index, b: Index) {
    && a.tasks.Keys == b.tasks.Keys && a.jobs.Keys == b.jobs.Keys
    && (forall j :: j in a.jobs ==> a.jobs[j].kind == b.jobs[j].kind && a.jobs[j].metadata == b.jobs[j].metadata)
    && forall t :: t in a.tasks ==>
         && a.tasks[t].job == b.tasks[t].job && a.tasks[t].filePath == b.tasks[t].filePath
         && a.tasks[t].metadataPath == b.tasks[t].metadataPath && a.tasks[t].wroteFile == b.tasks[t].wroteFile
         && (a.tasks[t].status.IsTerminal() ==> b.tasks[t].status.IsTerminal())
  }

  lemma StatusOnlyApart(a: Index, b: Index)
    requires StatusOnly(a, b)
    ensures Apart(a) ==> Apart(b)
  {
    forall t | IsLive(b, t) ensures IsLive(a, t) && ClaimsOf(b, t) <= ClaimsOf(a, t) {
    }
    if Apart(a) {
      ShrinkApart(a, b);
    }
  }

  lemma StatusOnlyShapes(s: State, s': State)
    requires StatusOnly(s.ix, s'.ix) && Shapes(s)
    requires forall w, t :: Placed?(s', w, t) ==> s'.workers[w].stage.Reuse? || (Placed?(s, w, t) && s'.workers[w] == s.workers[w])
    ensures Shapes(s')
  {
    hide IsZip, Ext, ReplaceExt, FormatExt;
  }

  // ----- a worker's step -----

  lemma EffectApart(s: State, w: WorkerId, t: TaskId, e: Effect)
    requires Apart(s.ix) && Placed?(s, w, t) && Keeps(ViewOf(s, w, t), e)
    requires Claims(s.ix.jobs[s.ix.tasks[t].job].kind, e.task) <= ClaimsOf(s.ix, t)
    ensures Apart(Worked(s, w, e).ix)
  {
    hide Claims;
    assert SameIdentity(e.task, s.ix.tasks[t]);
    ShrinkApart(s.ix, Worked(s, w, e).ix);
  }

  lemma EffectShapes(s: State, w: WorkerId, t: TaskId, e: Effect)
    requires Tokens(s) && Shapes(s) && Placed?(s, w, t) && SameIdentity(e.task, s.ix.tasks[t])
    requires TaskShape(s.ix.jobs[s.ix.tasks[t].job].kind, e.task) && StageShape(s.ix.jobs[s.ix.tasks[t].job].kind, e.task, e.stage)
    ensures Shapes(Worked(s, w, e))
  {
    hide TaskShape, StageShape;
    var s' := Worked(s, w, e);
    forall v, u | Placed?(s', v, u) ensures StageShape(s'.ix.jobs[s'.ix.tasks[u].job].kind, s'.ix.tasks[u], s'.workers[v].stage) {
      if v != w {
        assert Holds(s, v, u) && u != t;
        assert Placed?(s, v, u);
      }
    }
  }

  /** The zip path a fallback would take is claimed by another unfinished task. */
  ghost predicate ZipClaimed(s: State, t: TaskId)
    requires t in s.ix.tasks
  {
    exists u :: u != t && IsLive(s.ix, u) && ReplaceExt(s.ix.tasks[t].filePath, ZIP) in ClaimsOf(s.ix, u)
  }

  /** The task's record at a fallback, and why it fits. */
  lemma FallbackView(s: State, w: WorkerId, o: Oracle, stick: bool)
    requires Inv(s) && Shapes(s) && Enabled(s, Work(w, o, stick)) && FallsBack(ViewOf(s, w, s.workers[w].task))
    ensures var t := s.workers[w].task; var v := ViewOf(s, w, t);
      && Placed?(s, w, t) && TaskShape(v.job.kind, v.t) && v.t.filePath != [] && v.job.kind.Ugoira? && !IsZip(v.t.filePath)
      && Act(v.job, t, v.t, v.stage, o, stick, v.disk, v.shutdown).task
           == v.t.(wroteFile := false, filePath := ReplaceExt(v.t.filePath, ZIP))
  {
    hide Ext, ReplaceExt, IsZip, FormatExt, Tokens, TasksOk, JobsOk, Files, Deletions, Events, Store, StageOk, StageDisk;
    var t := s.workers[w].task;
    assert Holds(s, w, t) && Placed?(s, w, t);
    assert ViewOf(s, w, t).Ok();
  }

  /** The fallback of a leased, unfinished task keeps all claims apart if and only if nobody else
      claims the zip path. */
  lemma FallbackExact(s: State, w: WorkerId, o: Oracle, stick: bool)
    requires Inv(s) && WellLinked(s.ix) && Shapes(s) && Apart(s.ix) && Enabled(s, Work(w, o, stick))
    requires var t := s.workers[w].task; FallsBack(ViewOf(s, w, t)) && !s.ix.tasks[t].status.IsTerminal()
    ensures Apart(Apply(s, Work(w, o, stick)).ix) <==> !ZipClaimed(s, s.workers[w].task)
  {
    hide Inv, WellLinked, Apart, Ext, ReplaceExt, IsZip, FormatExt, FinalPath, Claims, Shapes, Act, TaskShape;
    FallbackView(s, w, o, stick);
    var t := s.workers[w].task;
    var v := ViewOf(s, w, t);
    var e := Act(v.job, v.id, v.t, v.stage, o, stick, v.disk, v.shutdown);
    assert Apply(s, Work(w, o, stick)).ix == s.ix.(tasks := s.ix.tasks[t := e.task]);
    hide Enabled, Apply;
    FallbackClaims(v.job.kind, v.t);
    FallbackIndex(s.ix, s.ix.(tasks := s.ix.tasks[t := e.task]), t, ReplaceExt(v.t.filePath, ZIP));
  }

  lemma FallbackIndex(a: Index, b: Index, t: TaskId, zip: Path)
    requires Apart(a) && IsLive(a, t) && b == a.(tasks := b.tasks) && b.tasks.Keys == a.tasks.Keys
    requires forall u :: u in a.tasks && u != t ==> b.tasks[u] == a.tasks[u]
    requires IsLive(b, t) && b.tasks[t].job == a.tasks[t].job
    requires zip in ClaimsOf(b, t) && ClaimsOf(b, t) <= ClaimsOf(a, t) + {zip}
    ensures Apart(b) <==> !exists u :: u != t && IsLive(a, u) && zip in ClaimsOf(a, u)
  {
    hide Claims;
    if u :| u != t && IsLive(a, u) && zip in ClaimsOf(a, u) {
      assert IsLive(b, u) && zip in ClaimsOf(b, u);
    } else {
      assert forall u :: u != t ==> (IsLive(b, u) <==> IsLive(a, u));
      assert forall u :: u != t && IsLive(b, u) ==> ClaimsOf(b, u) == ClaimsOf(a, u);
    }
  }

  /** A finished task's claims do not matter. */
  lemma FinishedApart(s: State, w: WorkerId, t: TaskId, e: Effect)
    requires Apart(s.ix) && Placed?(s, w, t) && Keeps(ViewOf(s, w, t), e) && s.ix.tasks[t].status.IsTerminal()
    ensures Apart(Worked(s, w, e).ix)
  {
    hide Claims;
    KeepsIdentity(ViewOf(s, w, t), e);
    hide Keeps;
    ShrinkApart(s.ix, Worked(s, w, e).ix);
  }

  lemma KeepsIdentity(v: View, e: Effect)
    requires Keeps(v, e)
    ensures SameIdentity(e.task, v.t) && (v.t.status.IsTerminal() ==> e.task.status == v.t.status)
  {
  }

  lemma WorkShapes(s: State, w: WorkerId, o: Oracle, stick: bool)
    requires Inv(s) && WellLinked(s.ix) && Shapes(s) && Enabled(s, Work(w, o, stick))
    ensures Shapes(Apply(s, Work(w, o, stick)))
  {
    hide JobsOk, Files, Deletions, Events, Store, WellLinked, TaskShape, StageShape, Claims, FallsBack;
    var t := s.workers[w].task;
    assert Placed?(s, w, t);
    var v := ViewOf(s, w, t);
    assert v.Ok() && v.Can(o);
    var e := Act(v.job, v.id, v.t, v.stage, o, stick, v.disk, v.shutdown);
    assert Apply(s, Work(w, o, stick)) == Worked(s, w, e);
    hide Act, CanAct, Apply, Tokens, TasksOk, WorkersOk, Shapes, Enabled, View.Ok;
    ActKeeps(v, o, stick);
    ActClaims(v, o, stick);
    KeepsIdentity(v, e);
    EffectShapes(s, w, t, e);
  }

  /** A worker's step keeps the claims apart, except for a fallback onto a zip path claimed elsewhere. */
  lemma WorkApart(s: State, w: WorkerId, o: Oracle, stick: bool)
    requires Inv(s) && WellLinked(s.ix) && Shapes(s) && Apart(s.ix) && Enabled(s, Work(w, o, stick))
    ensures var t := s.workers[w].task;
      Apart(Apply(s, Work(w, o, stick)).ix) <==> !(FallsBack(ViewOf(s, w, t)) && !s.ix.tasks[t].status.IsTerminal() && ZipClaimed(s, t))
  {
    hide Apart, JobsOk, Files, Deletions, Events, Store, WellLinked, TaskShape, StageShape, Claims, FallsBack, ZipClaimed;
    var t := s.workers[w].task;
    assert Placed?(s, w, t);
    var v := ViewOf(s, w, t);
    assert v.Ok() && v.Can(o);
    var e := Act(v.job, v.id, v.t, v.stage, o, stick, v.disk, v.shutdown);
    assert Apply(s, Work(w, o, stick)) == Worked(s, w, e);
    hide Act, CanAct, Apply, Tokens, TasksOk, WorkersOk, Shapes, Enabled, View.Ok;
    ActKeeps(v, o, stick);
    ActClaims(v, o, stick);
    if s.ix.tasks[t].status.IsTerminal() {
      FinishedApart(s, w, t, e);
    } else if FallsBack(v) {
      FallbackExact(s, w, o, stick);
    } else {
      EffectApart(s, w, t, e);
    }
  }

  // ----- submissions -----

  function AllClaims(kind: Kind, ts: seq<Task>): set<Path> { set i, p | 0 <= i < |ts| && p in Claims(kind, ts[i]) :: p }

  /** The tasks claim nothing of `reserved`, and no path twice. */
  ghost predicate ClearOf(kind: Kind, ts: seq<Task>, reserved: set<Path>) {
    && (forall i :: 0 <= i < |ts| ==> Claims(kind, ts[i]) !! reserved)
    && (forall i, k :: 0 <= i < k < |ts| ==> Claims(kind, ts[i]) !! Claims(kind, ts[k]))
  }

  /** No path given out under an unchecked random suffix had been reserved before. */
  predicate LuckyBatch(kind: Kind, metadata: bool, ts: seq<Task>, reserved: set<Path>, disk: set<Path>, random: seq<seq<Bytes>>)
    requires Randoms(random, |ts|)
    decreases |ts|
  {
    ts == [] ||
      var n := |ts| - 1;
      var front := PlaceAll(kind, metadata, ts[..n], reserved, disk, random[..n]);
      var last := Place(kind, metadata, ts[n], front.reserved, disk, random[n]);
      LuckyBatch(kind, metadata, ts[..n], reserved, disk, random[..n]) && (last.checked || Claims(kind, last.task) !! front.reserved)
  }

  ghost predicate BatchExact(kind: Kind, metadata: bool, b: Batch, reserved: set<Path>, lucky: bool) {
    && (forall i :: 0 <= i < |b.tasks| ==> Unwritten(kind, metadata, b.tasks[i]))
    && b.reserved == reserved + AllClaims(kind, b.tasks)
    && (ClearOf(kind, b.tasks, reserved) <==> lucky)
  }

  /** The tasks of one submission claim unreserved paths and no path twice, if and only if no unchecked
      suffix hit a reserved one. */
  lemma {:induction false} PlaceAllApart(kind: Kind, metadata: bool, ts: seq<Task>, reserved: set<Path>, disk: set<Path>,
                                         random: seq<seq<Bytes>>)
    requires Randoms(random, |ts|) && forall i :: 0 <= i < |ts| ==> Unwritten(kind, metadata, ts[i])
    ensures BatchExact(kind, metadata, PlaceAll(kind, metadata, ts, reserved, disk, random), reserved,
                       LuckyBatch(kind, metadata, ts, reserved, disk, random))
    decreases |ts|
  {
    hide Place, Claims, Unwritten, BatchExact;
    if ts != [] {
      var n := |ts| - 1;
      var front := PlaceAll(kind, metadata, ts[..n], reserved, disk, random[..n]);
      var last := Place(kind, metadata, ts[n], front.reserved, disk, random[n]);
      assert PlaceAll(kind, metadata, ts, reserved, disk, random)
          == Batch(front.tasks + [last.task], last.reserved, front.checked && last.checked);
      assert LuckyBatch(kind, metadata, ts, reserved, disk, random)
        <==> LuckyBatch(kind, metadata, ts[..n], reserved, disk, random[..n]) && (last.checked || Claims(kind, last.task) !! front.reserved);
      hide PlaceAll, LuckyBatch;
      PlaceAllApart(kind, metadata, ts[..n], reserved, disk, random[..n]);
      PlacedClaims(kind, metadata, ts[n], front.reserved, disk, random[n]);
      if last.checked {
        PlacedIsFresh(kind, metadata, ts[n], front.reserved, disk, random[n]);
      }
      BatchAppend(kind, metadata, front, last, reserved, LuckyBatch(kind, metadata, ts[..n], reserved, disk, random[..n]));
    } else {
      hide PlaceAll;
      NothingClear(kind, metadata, reserved);
    }
  }

  lemma BatchAppend(kind: Kind, metadata: bool, front: Batch, last: Placed, reserved: set<Path>, lucky: bool)
    requires BatchExact(kind, metadata, front, reserved, lucky)
    requires Unwritten(kind, metadata, last.task) && last.reserved == front.reserved + Claims(kind, last.task)
    requires last.checked ==> Claims(kind, last.task) !! front.reserved
    ensures BatchExact(kind, metadata, Batch(front.tasks + [last.task], last.reserved, front.checked && last.checked), reserved,
                       lucky && (last.checked || Claims(kind, last.task) !! front.reserved))
  {
    hide Claims, Unwritten, ClearOf, AllClaims;
    ClearAppend(kind, front.tasks, last.task, reserved);
  }

  lemma NothingClear(kind: Kind, metadata: bool, reserved: set<Path>)
    ensures BatchExact(kind, metadata, Batch([], reserved, true), reserved, true)
  {
  }

  lemma ClearAppend(kind: Kind, front: seq<Task>, last: Task, reserved: set<Path>)
    ensures var all := front + [last];
      && AllClaims(kind, all) == AllClaims(kind, front) + Claims(kind, last)
      && (ClearOf(kind, all, reserved) <==> ClearOf(kind, front, reserved) && Claims(kind, last) !! reserved + AllClaims(kind, front))
  {
    hide Claims;
    var all, n := front + [last], |front|;
    assert all[n] == last && forall i :: 0 <= i < n ==> all[i] == front[i];
    if ClearOf(kind, all, reserved) {
      assert forall i, k :: 0 <= i < k < n ==> Claims(kind, all[i]) !! Claims(kind, all[k]);
      forall p | p in AllClaims(kind, front) ensures p !in Claims(kind, last) {
        var i :| 0 <= i < n && p in Claims(kind, front[i]);
        assert Claims(kind, all[i]) !! Claims(kind, all[n]);
      }
    }
  }

  /** Checked suffixes need no luck. */
  lemma {:induction false} CheckedIsLucky(kind: Kind, metadata: bool, ts: seq<Task>, reserved: set<Path>, disk: set<Path>, random: seq<seq<Bytes>>)
    requires Randoms(random, |ts|) && PlaceAll(kind, metadata, ts, reserved, disk, random).checked
    ensures LuckyBatch(kind, metadata, ts, reserved, disk, random)
    decreases |ts|
  {
    hide Place, Claims;
    if ts != [] {
      CheckedIsLucky(kind, metadata, ts[..|ts| - 1], reserved, disk, random[..|ts| - 1]);
    }
  }

  /** With few enough paths around, a submission never needs the random suffix. */
  lemma {:induction false} FewPathsChecked(kind: Kind, metadata: bool, ts: seq<Task>, reserved: set<Path>, disk: set<Path>,
                                           random: seq<seq<Bytes>>)
    requires Randoms(random, |ts|) && |reserved + disk| + 3 * |ts| < 9999
    requires forall i :: 0 <= i < |ts| ==> Unwritten(kind, metadata, ts[i])
    ensures var b := PlaceAll(kind, metadata, ts, reserved, disk, random);
      b.checked && |b.reserved + disk| <= |reserved + disk| + 3 * |ts|
    decreases |ts|
  {
    hide Place, Claims, Unwritten;
    if ts != [] {
      var n := |ts| - 1;
      var front := PlaceAll(kind, metadata, ts[..n], reserved, disk, random[..n]);
      FewPathsChecked(kind, metadata, ts[..n], reserved, disk, random[..n]);
      var last := Place(kind, metadata, ts[n], front.reserved, disk, random[n]);
      assert PlaceAll(kind, metadata, ts, reserved, disk, random)
          == Batch(front.tasks + [last.task], last.reserved, front.checked && last.checked);
      hide PlaceAll;
      PlacedClaims(kind, metadata, ts[n], front.reserved, disk, random[n]);
      FewPlaced(kind, metadata, ts[n], front.reserved, disk, random[n]);
      ClaimsSize(kind, last.task);
      Union(front.reserved + disk, Claims(kind, last.task));
      assert last.reserved + disk == front.reserved + disk + Claims(kind, last.task);
    }
  }

  lemma Union(a: set<Path>, b: set<Path>)
    ensures |a + b| <= |a| + |b|
  {
  }

  lemma ClaimsSize(kind: Kind, t: Task)
    ensures |Claims(kind, t)| <= 3
  {
    var all := {FinalPath(kind, t.filePath), t.filePath, t.metadataPath};
    assert |all| <= 3;
    assert all == all * {[]} + Claims(kind, t);
  }

  lemma FewPlaced(kind: Kind, metadata: bool, t: Task, reserved: set<Path>, disk: set<Path>, random: seq<Bytes>)
    requires IsRandom(random) && |reserved + disk| < 9999
    ensures Place(kind, metadata, t, reserved, disk, random).checked
  {
    hide FinalPath, AltExt, Claims, Chosen, FreeAt, Parts;
    FewChecked(FinalPath(kind, t.filePath), AltExt(kind, t.filePath), metadata, reserved + disk, random);
  }

  lemma FewChecked(base: Bytes, alt: Bytes, metadata: bool, taken: set<Bytes>, random: seq<Bytes>)
    requires IsAlt(alt) && IsRandom(random) && |taken| < 9999
    ensures Checked(base, alt, metadata, taken, random)
  {
    hide FreeAt, Parts;
    if LeastFree(Parts(base), alt, metadata, taken, 0) > 9999 {
      Pigeonhole(Parts(base), alt, metadata, taken, |taken| + 1);
    }
  }

  /** A submission adds fresh claims to those reserved for the unfinished tasks. */
  ghost predicate JoinsApart(a: Index, b: Index, j: JobId, job: Job, ts: seq<Task>) {
    && j !in a.jobs && b.jobs == a.jobs[j := job] && |ts| == |job.tasks|
    && (forall i :: 0 <= i < |ts| ==> job.tasks[i] !in a.tasks && job.tasks[i] in b.tasks && b.tasks[job.tasks[i]] == ts[i] && ts[i].job == j)
    && (forall t :: t in a.tasks ==> t in b.tasks && b.tasks[t] == a.tasks[t])
    && (forall t :: t in b.tasks ==> t in a.tasks || t in job.tasks)
  }

  lemma JoinApart(a: Index, b: Index, j: JobId, job: Job, ts: seq<Task>, reserved: set<Path>)
    requires Apart(a) && JoinsApart(a, b, j, job, ts) && forall t :: t in a.tasks ==> a.tasks[t].job in a.jobs
    requires forall t :: IsLive(a, t) ==> ClaimsOf(a, t) <= reserved
    requires ClearOf(job.kind, ts, reserved)
    ensures Apart(b)
  {
    hide Claims;
    forall t, u | t != u && IsLive(b, t) && IsLive(b, u) ensures ClaimsOf(b, t) !! ClaimsOf(b, u) {
      if t in a.tasks && u in a.tasks {
        OldClaims(a, b, j, job, ts, t);
        OldClaims(a, b, j, job, ts, u);
      } else if t in a.tasks {
        OldClaims(a, b, j, job, ts, t);
        var k := NewClaims(a, b, j, job, ts, u);
      } else if u in a.tasks {
        OldClaims(a, b, j, job, ts, u);
        var i := NewClaims(a, b, j, job, ts, t);
      } else {
        var i := NewClaims(a, b, j, job, ts, t);
        var k := NewClaims(a, b, j, job, ts, u);
      }
    }
  }

  /** Conversely, claims that stay apart were clear. */
  lemma JoinClear(a: Index, b: Index, j: JobId, job: Job, ts: seq<Task>, reserved: set<Path>)
    requires Apart(b) && JoinsApart(a, b, j, job, ts) && forall t :: t in a.tasks ==> a.tasks[t].job in a.jobs
    requires forall p :: p in reserved ==> exists t :: IsLive(a, t) && p in ClaimsOf(a, t)
    requires forall i :: 0 <= i < |ts| ==> !ts[i].status.IsTerminal()
    requires forall i, k :: 0 <= i < k < |ts| ==> job.tasks[i] != job.tasks[k]
    ensures ClearOf(job.kind, ts, reserved)
  {
    hide Claims;
    forall i | 0 <= i < |ts| ensures IsLive(b, job.tasks[i]) && ClaimsOf(b, job.tasks[i]) == Claims(job.kind, ts[i]) {
    }
    forall i, p | 0 <= i < |ts| && p in reserved ensures p !in Claims(job.kind, ts[i]) {
      var t :| IsLive(a, t) && p in ClaimsOf(a, t);
      assert IsLive(b, t) && ClaimsOf(b, t) == ClaimsOf(a, t) && t != job.tasks[i];
    }
  }

  lemma OldClaims(a: Index, b: Index, j: JobId, job: Job, ts: seq<Task>, t: TaskId)
    requires JoinsApart(a, b, j, job, ts) && IsLive(b, t) && t in a.tasks
    requires a.tasks[t].job in a.jobs
    ensures IsLive(a, t) && ClaimsOf(a, t) == ClaimsOf(b, t)
  {
    hide Claims;
  }

  lemma NewClaims(a: Index, b: Index, j: JobId, job: Job, ts: seq<Task>, t: TaskId) returns (i: nat)
    requires JoinsApart(a, b, j, job, ts) && IsLive(b, t) && t !in a.tasks
    ensures i < |ts| && job.tasks[i] == t && ClaimsOf(b, t) == Claims(job.kind, ts[i])
  {
    hide Claims;
    i :| 0 <= i < |ts| && job.tasks[i] == t;
  }

  lemma LiveReserved(s: State, t: TaskId)
    requires TasksOk(s) && IsLive(s.ix, t)
    ensures ClaimsOf(s.ix, t) <= ReservedPaths(s.ix)
  {
    assert TaskOk(s, t);
    hide Claims;
  }

  lemma ReservedLive(ix: Index, p: Path)
    requires WellLinked(ix) && p in ReservedPaths(ix)
    ensures exists t :: IsLive(ix, t) && p in ClaimsOf(ix, t)
  {
    hide Claims;
    var j, t :| j in ix.listed && j in ix.jobs && t in ix.jobs[j].tasks && t in ix.tasks
      && !ix.tasks[t].status.IsTerminal() && p in Claims(ix.jobs[j].kind, ix.tasks[t]);
    assert IsLive(ix, t) && p in ClaimsOf(ix, t);
  }

  /** A submission keeps all claims apart if and only if no unchecked suffix hit a reserved path. */
  lemma SubmitApart(s: State, j: JobId, job: Job, tasks: seq<Task>, random: seq<seq<Bytes>>)
    requires TasksOk(s) && WellLinked(s.ix) && Tokens(s) && Shapes(s) && IsSubmission(s, j, job, tasks, random)
    ensures var s' := Apply(s, Submit(j, job, tasks, random));
      && Shapes(s')
      && (Apart(s.ix) ==> (Apart(s'.ix) <==> LuckyBatch(job.kind, job.metadata, tasks, ReservedPaths(s.ix), s.disk.Keys, random)))
  {
    hide Apart, WellLinked, ReservedPaths, Claims, Unwritten, Apply, Shapes, PlaceAll, JoinsApart, IsNewTask, LuckyBatch, ClearOf, AllClaims, TasksOk, Tokens;
    SubmitIs(s, j, job, tasks, random);
    forall i | 0 <= i < |tasks| ensures Unwritten(job.kind, job.metadata, tasks[i]) {
      NewIsUnwritten(j, job, tasks[i]);
    }
    PlaceAllApart(job.kind, job.metadata, tasks, ReservedPaths(s.ix), s.disk.Keys, random);
    SubmittedApart(s, Apply(s, Submit(j, job, tasks, random)), j, job,
                   PlaceAll(job.kind, job.metadata, tasks, ReservedPaths(s.ix), s.disk.Keys, random).tasks);
  }

  lemma NewIsUnwritten(j: JobId, job: Job, t: Task)
    requires IsNewTask(j, job, t)
    ensures Unwritten(job.kind, job.metadata, t)
  {
  }

  lemma UnwrittenIsLive(kind: Kind, metadata: bool, t: Task)
    requires Unwritten(kind, metadata, t)
    ensures !t.status.IsTerminal()
  {
  }

  lemma SubmittedApart(s: State, s': State, j: JobId, job: Job, ts: seq<Task>)
    requires TasksOk(s) && WellLinked(s.ix) && Tokens(s) && Shapes(s)
    requires JoinsApart(s.ix, s'.ix, j, job, ts) && s'.workers == s.workers
    requires forall i :: 0 <= i < |ts| ==> Unwritten(job.kind, job.metadata, ts[i])
    requires |ts| == |job.tasks| && forall i, k :: 0 <= i < k < |ts| ==> job.tasks[i] != job.tasks[k]
    ensures Apart(s.ix) ==> (Apart(s'.ix) <==> ClearOf(job.kind, ts, ReservedPaths(s.ix)))
    ensures Shapes(s')
  {
    LinkedJob(s.ix);
    assert forall w, t :: Holds(s, w, t) ==> t in s.ix.tasks;
    hide Apart, WellLinked, ReservedPaths, Claims, Unwritten, Shapes, TasksOk, JoinsApart, Tokens, Holds, ClearOf;
    forall t | IsLive(s.ix, t) ensures ClaimsOf(s.ix, t) <= ReservedPaths(s.ix) {
      LiveReserved(s, t);
    }
    if Apart(s.ix) && ClearOf(job.kind, ts, ReservedPaths(s.ix)) {
      JoinApart(s.ix, s'.ix, j, job, ts, ReservedPaths(s.ix));
    }
    if Apart(s'.ix) {
      forall p | p in ReservedPaths(s.ix) ensures exists t :: IsLive(s.ix, t) && p in ClaimsOf(s.ix, t) {
        ReservedLive(s.ix, p);
      }
      forall i | 0 <= i < |ts| ensures !ts[i].status.IsTerminal() {
        UnwrittenIsLive(job.kind, job.metadata, ts[i]);
      }
      JoinClear(s.ix, s'.ix, j, job, ts, ReservedPaths(s.ix));
    }
    JoinShapes(s, s', j, job, ts);
  }

  lemma JoinShapes(s: State, s': State, j: JobId, job: Job, ts: seq<Task>)
    requires Shapes(s) && JoinsApart(s.ix, s'.ix, j, job, ts) && s'.workers == s.workers
    requires forall t :: t in s.ix.tasks ==> s.ix.tasks[t].job in s.ix.jobs
    requires forall w, t :: Holds(s, w, t) ==> t in s.ix.tasks
    requires forall i :: 0 <= i < |ts| ==> Unwritten(job.kind, job.metadata, ts[i])
    ensures Shapes(s')
  {
    hide StageShape, IsZip, Ext, FormatExt;
    forall t | t in s'.ix.tasks && s'.ix.tasks[t].job in s'.ix.jobs ensures TaskShape(s'.ix.jobs[s'.ix.tasks[t].job].kind, s'.ix.tasks[t]) {
      if t !in s.ix.tasks {
        var i :| 0 <= i < |job.tasks| && job.tasks[i] == t;
        assert Unwritten(job.kind, job.metadata, ts[i]);
      }
    }
    forall w, t | Placed?(s', w, t) ensures StageShape(s'.ix.jobs[s'.ix.tasks[t].job].kind, s'.ix.tasks[t], s'.workers[w].stage) {
      assert Holds(s, w, t);
      assert Placed?(s, w, t);
    }
  }

  lemma SubmitIs(s: State, j: JobId, job: Job, tasks: seq<Task>, random: seq<seq<Bytes>>)
    requires WellLinked(s.ix) && IsSubmission(s, j, job, tasks, random)
    ensures var s' := Apply(s, Submit(j, job, tasks, random));
      && s'.workers == s.workers
      && JoinsApart(s.ix, s'.ix, j, job, PlaceAll(job.kind, job.metadata, tasks, ReservedPaths(s.ix), s.disk.Keys, random).tasks)
  {
    hide PlaceAll, ReservedPaths, Unwritten, WellLinked, WithTasks;
    var b := PlaceAll(job.kind, job.metadata, tasks, ReservedPaths(s.ix), s.disk.Keys, random);
    forall i | 0 <= i < |tasks| ensures b.tasks[i].job == j {
      PlaceAllKeepsRest(job.kind, job.metadata, tasks, ReservedPaths(s.ix), s.disk.Keys, random, i);
      assert IsNewTask(j, job, tasks[i]);
    }
    WithTasksAt(s.ix.tasks, job.tasks, b.tasks);
    var s' := Apply(s, Submit(j, job, tasks, random));
    assert s'.ix == Index(s.ix.jobs[j := job], WithTasks(s.ix.tasks, job.tasks, b.tasks), s.ix.listed + {j});
    hide Apply, Submitted, IsNewTask;
  }

  // ----- every step and every run -----

  /** The two places where the code itself does not check: a submission's unchecked suffix hits no
      reserved path, and an unfinished task's fallback finds its zip path unclaimed. */
  ghost predicate Lucky(s: State, step: Step)
    requires WellLinked(s.ix) && Enabled(s, step)
  {
    match step
    case Submit(j, job, tasks, random) => LuckyBatch(job.kind, job.metadata, tasks, ReservedPaths(s.ix), s.disk.Keys, random)
    case Work(w, _, _) =>
      var t := s.workers[w].task;
      !(FallsBack(ViewOf(s, w, t)) && !s.ix.tasks[t].status.IsTerminal() && ZipClaimed(s, t))
    case _ => true
  }

  lemma ReportsStatusOnly(s: State, s': State, j: JobId)
    requires Reports(s, s', j)
    ensures StatusOnly(s.ix, s'.ix)
  {
    hide WellLinked, JobAggregate, JobRecorded, Get, AllTerminal;
  }

  lemma TakesStatusOnly(s: State, s': State, w: WorkerId, t: TaskId)
    requires Takes(s, s', w, t)
    ensures StatusOnly(s.ix, s'.ix)
    ensures forall v, u :: Placed?(s', v, u) ==> s'.workers[v].stage.Reuse? || (Placed?(s, v, u) && s'.workers[v] == s.workers[v])
  {
  }

  lemma ReportApart(s: State, w: WorkerId)
    requires Inv(s) && WellLinked(s.ix) && Shapes(s) && Enabled(s, ReportStep(w))
    ensures var s' := Apply(s, ReportStep(w)); Shapes(s') && (Apart(s.ix) ==> Apart(s'.ix))
  {
    hide WellLinked, Reports, TransitionJob, Shapes, Apart, StatusOnly, Tokens, WorkersOk, TasksOk, JobsOk, Files, Deletions, Events, Store;
    var j := s.ix.tasks[s.workers[w].task].job;
    TransitionIndex(s.ix, j);
    var m := Moved(s, j, TransitionJob(s.ix, j));
    TransitionReports(s, j);
    hide Inv, JobRecorded;
    var s' := Apply(s, ReportStep(w));
    assert s'.ix == m.ix && s'.workers == s.workers[w := Idle];
    ReportsStatusOnly(s, m, j);
    StatusOnlyApart(s.ix, s'.ix);
    StatusOnlyKeys(s.ix, s'.ix);
    hide Apply;
    StatusOnlyShapes(s, s');
  }

  lemma StatusOnlyKeys(a: Index, b: Index)
    requires StatusOnly(a, b)
    ensures a.tasks.Keys == b.tasks.Keys && a.jobs.Keys == b.jobs.Keys && forall t :: t in a.tasks ==> a.tasks[t].job == b.tasks[t].job
  {
  }

  lemma CancelApart(s: State, j: JobId)
    requires Inv(s) && WellLinked(s.ix) && Shapes(s) && Enabled(s, CancelStep(j))
    ensures var s' := Apply(s, CancelStep(j)); Shapes(s') && (Apart(s.ix) ==> Apart(s'.ix))
  {
    hide WellLinked, Reports, Shapes, Apart, StatusOnly, CancelJob, Tokens, WorkersOk, TasksOk, JobsOk, Files, Deletions, Events, Store;
    CancelReports(s, j);
    var s' := Apply(s, CancelStep(j));
    assert s'.workers == s.workers;
    hide Inv, Apply;
    ReportsStatusOnly(s, s', j);
    StatusOnlyKeys(s.ix, s'.ix);
    StatusOnlyApart(s.ix, s'.ix);
    StatusOnlyShapes(s, s');
  }

  lemma LeaseApart(s: State, w: WorkerId, t: TaskId)
    requires Inv(s) && WellLinked(s.ix) && Shapes(s) && Enabled(s, Lease(w, t))
    ensures var s' := Apply(s, Lease(w, t)); Shapes(s') && (Apart(s.ix) ==> Apart(s'.ix))
  {
    hide WellLinked, Takes, Shapes, Apart, StatusOnly, Tokens, WorkersOk, TasksOk, JobsOk, Files, Deletions, Events, Store;
    var s' := Apply(s, Lease(w, t));
    if s.ix.tasks[t].status.IsTerminal() {
      SameIndex(s, s');
    } else {
      LeaseTakes(s, s', w, t);
      TakesStatusOnly(s, s', w, t);
      StatusOnlyApart(s.ix, s'.ix);
      StatusOnlyShapes(s, s');
    }
  }

  lemma SameIndex(s: State, s': State)
    requires s'.ix.jobs == s.ix.jobs && s'.ix.tasks == s.ix.tasks && s'.workers == s.workers && Shapes(s)
    ensures Shapes(s') && (Apart(s.ix) ==> Apart(s'.ix))
  {
    hide TaskShape, StageShape;
    assert forall w, t :: Placed?(s', w, t) <==> Placed?(s, w, t);
    hide Placed?;
    if Apart(s.ix) {
      ShrinkApart(s.ix, s'.ix);
    }
  }

  lemma OtherApart(s: State, step: Step)
    requires WellLinked(s.ix) && Enabled(s, step) && Shapes(s)
    requires step.Remove? || step.BeginSave? || step.BeginSaveFor? || step.EndSave? || step.Delete? || step.Outside? || step.Shutdown?
    ensures var s' := Apply(s, step); Shapes(s') && (Apart(s.ix) ==> Apart(s'.ix))
  {
    hide WellLinked, Shapes, Apart;
    var s' := Apply(s, step);
    assert s'.ix.tasks == s.ix.tasks && s'.ix.jobs == s.ix.jobs && s'.workers == s.workers;
    hide Apply, Enabled;
    SameIndex(s, s');
  }

  /** A step keeps the claims of distinct unfinished tasks disjoint if and only if it is lucky. */
  lemma StepKeepsApart(s: State, step: Step)
    requires Inv(s) && WellLinked(s.ix) && Shapes(s) && Enabled(s, step)
    ensures Apart(s.ix) ==> (Apart(Apply(s, step).ix) <==> Lucky(s, step))
    ensures Shapes(Apply(s, step))
  {
    hide WellLinked, Shapes, Apart, Apply, IsSubmission, CanAct, FallsBack, ZipClaimed, PlaceAll, ReservedPaths, LuckyBatch;
    hide Tokens, WorkersOk, TasksOk, JobsOk, Files, Deletions, Events, Store;
    match step {
      case Submit(j, job, tasks, random) => SubmitApart(s, j, job, tasks, random);
      case CancelStep(j) => CancelApart(s, j);
      case Lease(w, t) => LeaseApart(s, w, t);
      case Work(w, o, stick) =>
        WorkShapes(s, w, o, stick);
        if Apart(s.ix) {
          WorkApart(s, w, o, stick);
        }
      case ReportStep(w) => ReportApart(s, w);
      case _ => OtherApart(s, step);
    }
  }

  ghost predicate LuckyUntil(run: seq<State>, steps: seq<Step>, i: nat)
    requires i <= |steps| < |run|
  {
    forall k :: 0 <= k < i ==> WellLinked(run[k].ix) && Enabled(run[k], steps[k]) && Lucky(run[k], steps[k])
  }

  lemma {:induction false} RunShapes(run: seq<State>, steps: seq<Step>, i: nat)
    requires IsRun(run, steps) && i < |run| && Shapes(run[0])
    ensures Shapes(run[i])
  {
    hide Inv, WellLinked, Enabled, Apply, IsRun, Apart, Shapes, Lucky;
    if i > 0 {
      RunLength(run, steps);
      RunShapes(run, steps, i - 1);
      RunKeeps(run, steps, i - 1);
      RunStep(run, steps, i - 1);
      StepKeepsApart(run[i - 1], steps[i - 1]);
    }
  }

  /** From a disjoint start, no two unfinished tasks ever share an output up to a moment of the run
      if and only if every step before it was lucky. */
  lemma {:induction false} NoSharedOutputs(run: seq<State>, steps: seq<Step>, i: nat)
    requires IsRun(run, steps) && i < |run| && Apart(run[0].ix) && Shapes(run[0])
    ensures |run| == |steps| + 1
    ensures (forall k :: 0 <= k <= i ==> Apart(run[k].ix)) <==> LuckyUntil(run, steps, i)
  {
    hide Inv, WellLinked, Enabled, Apply, IsRun, Apart, Shapes, Lucky;
    RunLength(run, steps);
    if i > 0 {
      NoSharedOutputs(run, steps, i - 1);
      RunShapes(run, steps, i - 1);
      RunKeeps(run, steps, i - 1);
      RunStep(run, steps, i - 1);
      if LuckyUntil(run, steps, i - 1) {
        StepKeepsApart(run[i - 1], steps[i - 1]);
      } else {
        assert !LuckyUntil(run, steps, i);
      }
    }
  }
}
