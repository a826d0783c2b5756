/** From a crash to the next run: what was stored at any moment of a run is a proper start for the
    next one, and nothing that was cleaned up comes back. */
module DownloadRestart {
  import opened Utf8
  import opened Naming
  import opened Collision
  import opened DownloadCore
  import opened DownloadPaths
  import opened DownloadRun
  import opened DownloadInvariant
  import opened DownloadSteps
  import opened DownloadMoves
  import opened DownloadSubmission
  import opened DownloadRuns
  import opened DownloadRecovery
  import opened DownloadDisjoint

  /** Only listed jobs reach the store, with their tasks; cancel handles do not. */
  function Loaded(ix: Index): Index {
    Index(map j | j in ix.jobs && j in ix.listed :: ix.jobs[j],
          map t | t in ix.tasks && ix.tasks[t].job in ix.listed :: ix.tasks[t].(armed := false, cancelled := false),
          ix.listed * ix.jobs.Keys)
  }

  lemma LoadedSound(ix: Index)
    requires Sound(ix)
    ensures Sound(Loaded(ix)) && Loaded(ix).listed == Loaded(ix).jobs.Keys
  {
    LoadedLinks(ix);
    var l := Loaded(ix);
    hide WellLinked;
    forall t | t in l.tasks && l.tasks[t].status.Cancelled? ensures AllTerminal(l, l.jobs[l.tasks[t].job].tasks) {
      assert AllTerminal(ix, ix.jobs[ix.tasks[t].job].tasks);
      LinkedTasks(l, l.tasks[t].job);
    }
  }

  lemma LoadedLinks(ix: Index)
    requires WellLinked(ix)
    ensures WellLinked(Loaded(ix))
    ensures forall t :: t in Loaded(ix).tasks ==> ix.tasks[t].job in ix.jobs
  {
  }

  /** The process state right after `Start`; the store file still holds what was loaded. */
  ghost predicate Starts(ix: Index, order: seq<JobId>, random: seq<seq<seq<Bytes>>>, s: State)
    requires OrderOk(ix, order, random)
  {
    && Loaded(s.stored) == ix && s.ix == Recover(ix, order, s.disk.Keys, random) && Blank(s)
    && s.queue == multiset(Enqueued(ix, order))
    && [] !in s.disk && (forall p :: p in s.disk ==> RestedFile(s, p))
    && (forall j: JobId, p :: (j, p) in s.written <==> JobRecorded(s.ix, j, p))
  }

  lemma RecoverLinks(ix: Index, order: seq<JobId>, disk: set<Path>, random: seq<seq<seq<Bytes>>>)
    requires Sound(ix) && OrderOk(ix, order, random) && Walk(ix, order)
    ensures WellLinked(Recover(ix, order, disk, random))
  {
    assert WellLinked(ix);
    hide RecoverTasks, Sound, Walk, OrderOk, Aggregate, RestAll;
    RecoveredKeys(ix, order, disk, random);
    forall t | t in ix.tasks ensures RecoverTasks(ix, order, disk, random)[t].job == ix.tasks[t].job {
      hide WellLinked;
      RecoveredTask(ix, order, disk, random, t);
    }
    SameLinks(ix, Recover(ix, order, disk, random));
  }

  lemma SameLinks(a: Index, b: Index)
    requires WellLinked(a) && a.tasks.Keys == b.tasks.Keys && a.jobs.Keys == b.jobs.Keys && a.listed == b.listed
    requires forall t :: t in a.tasks ==> b.tasks[t].job == a.tasks[t].job
    requires forall j :: j in a.jobs ==> b.jobs[j].tasks == a.jobs[j].tasks
    ensures WellLinked(b)
  {
  }

  lemma RecoverAggregate(ix: Index, order: seq<JobId>, disk: set<Path>, random: seq<seq<seq<Bytes>>>, j: JobId)
    requires Sound(ix) && OrderOk(ix, order, random) && Walk(ix, order) && j in ix.jobs
    requires WellLinked(Recover(ix, order, disk, random))
    ensures var r := Recover(ix, order, disk, random);
      && r.jobs[j].status == JobAggregate(r, j)
      && (r.jobs[j].status.Cancelled? ==> AllTerminal(r, r.jobs[j].tasks))
  {
    hide RecoverTasks, Walk, Sound, Aggregate, AllTerminal, RestTask;
    LinkedTasks(ix, j);
    var ids := ix.jobs[j].tasks;
    forall t | t in ids
      ensures t in RecoverTasks(ix, order, disk, random)
      ensures RecoverTasks(ix, order, disk, random)[t].status == RestTask(ix.tasks[t]).status
      ensures ix.tasks[t].status.IsTerminal() ==> RecoverTasks(ix, order, disk, random)[t].status.IsTerminal()
    {
      RecoveredTask(ix, order, disk, random, t);
      RestStatus(ix.tasks[t]);
    }
    hide WellLinked;
    StatusesMatch(ix.tasks, RecoverTasks(ix, order, disk, random), ids);
    if Aggregate(StatusesOf(RestAll(ix.tasks, ids))).Cancelled? {
      CancelledJob(ix, j);
      CarriedTerminal(ix, Recover(ix, order, disk, random), ids);
    }
  }

  lemma RestStatus(t: Task)
    ensures RestTask(t).status == if t.status.IsTerminal() then t.status else Queued
  {
  }

  lemma CarriedTerminal(a: Index, b: Index, ids: seq<TaskId>)
    requires AllTerminal(a, ids) && forall t :: t in ids && t in a.tasks && a.tasks[t].status.IsTerminal() ==> t in b.tasks && b.tasks[t].status.IsTerminal()
    ensures AllTerminal(b, ids)
  {
  }

  lemma StatusesMatch(a: map<TaskId, Task>, b: map<TaskId, Task>, ids: seq<TaskId>)
    requires forall t :: t in ids ==> t in a && t in b && b[t].status == RestTask(a[t]).status
    ensures Statuses(b, ids) == StatusesOf(RestAll(a, ids))
  {
    hide RestTask;
    assert forall i :: 0 <= i < |ids| ==> ids[i] in ids;
  }

  lemma CancelledJob(ix: Index, j: JobId)
    requires Sound(ix) && j in ix.jobs && forall t :: t in ix.jobs[j].tasks ==> t in ix.tasks
    requires Aggregate(StatusesOf(RestAll(ix.tasks, ix.jobs[j].tasks))).Cancelled?
    ensures AllTerminal(ix, ix.jobs[j].tasks)
  {
    LinkedTasks(ix, j);
    var ids := ix.jobs[j].tasks;
    var st := StatusesOf(RestAll(ix.tasks, ids));
    assert Cancelled in st;
    var i :| 0 <= i < |st| && st[i] == Cancelled;
    assert ids[i] in ids && ix.tasks[ids[i]].status.Cancelled?;
  }

  lemma StartTasks(ix: Index, order: seq<JobId>, random: seq<seq<seq<Bytes>>>, s: State, t: TaskId)
    requires Sound(ix) && OrderOk(ix, order, random) && Walk(ix, order) && Starts(ix, order, random, s)
    requires t in s.ix.tasks && WellLinked(s.ix)
    ensures RestedTask(s, t)
  {
    LinkedJob(ix);
    assert forall j :: j in order <==> j in ix.jobs;
    hide RestedTask;
    assert s.ix.tasks == RecoverTasks(ix, order, s.disk.Keys, random) && s.queue == multiset(Enqueued(ix, order));
    RecordedPair(s, t);
    hide RecoverTasks, Enqueued, WellLinked, AllTerminal, JobRecorded, Recorded, Starts;
    RecoveredKeys(ix, order, s.disk.Keys, random);
    RecoveredTask(ix, order, s.disk.Keys, random, t);
    EnqueuedOnce(ix, order, t);
    hide Sound, Walk, OrderOk;
    RestedIs(s, t, ix.tasks[t], ix.jobs[ix.tasks[t].job].kind);
  }

  lemma RestedIs(s: State, t: TaskId, a: Task, kind: Kind)
    requires t in s.ix.tasks && Resumed(kind, a, s.ix.tasks[t])
    requires s.ix.tasks[t].status == if a.status.IsTerminal() then a.status else Queued
    requires s.queue[t] == if a.status.IsTerminal() then 0 else 1
    requires forall p :: Recorded(s.ix.tasks[t], p) ==> (s.ix.tasks[t].job, p) in s.written
    ensures RestedTask(s, t)
  {
    hide Recorded;
  }

  lemma RecordedPair(s: State, t: TaskId)
    requires WellLinked(s.ix) && t in s.ix.tasks && (forall j: JobId, p :: (j, p) in s.written <==> JobRecorded(s.ix, j, p))
    ensures forall p :: Recorded(s.ix.tasks[t], p) ==> (s.ix.tasks[t].job, p) in s.written
  {
    forall p | Recorded(s.ix.tasks[t], p) ensures (s.ix.tasks[t].job, p) in s.written {
      assert JobRecorded(s.ix, s.ix.tasks[t].job, p);
    }
  }

  /** Whatever sound snapshot was stored, the process state after `Start` is a proper start of a run. */
  lemma RecoveredInit(ix: Index, order: seq<JobId>, random: seq<seq<seq<Bytes>>>, s: State)
    requires Sound(ix) && ix.listed == ix.jobs.Keys && OrderOk(ix, order, random) && Walk(ix, order) && Starts(ix, order, random, s)
    ensures Init(s)
  {
    RecoverLinks(ix, order, s.disk.Keys, random);
    hide WellLinked, RecoverTasks, Sound, RestedTask, RestedJob, Enqueued, RestedFile, JobRecorded;
    forall t | t in s.ix.tasks ensures RestedTask(s, t) {
      StartTasks(ix, order, random, s, t);
    }
    forall j | j in s.ix.jobs ensures RestedJob(s.ix, j) {
      StartJobs(ix, order, random, s, j);
    }
    StartQueue(ix, order, random, s);
    hide Walk;
  }

  lemma StartJobs(ix: Index, order: seq<JobId>, random: seq<seq<seq<Bytes>>>, s: State, j: JobId)
    requires Sound(ix) && OrderOk(ix, order, random) && Walk(ix, order) && Starts(ix, order, random, s)
    requires WellLinked(s.ix) && j in s.ix.jobs
    ensures RestedJob(s.ix, j)
  {
    hide WellLinked, RecoverTasks, Sound, RestedFile, JobRecorded, JobAggregate, Walk, Enqueued;
    RecoverAggregate(ix, order, s.disk.Keys, random, j);
  }

  lemma StartQueue(ix: Index, order: seq<JobId>, random: seq<seq<seq<Bytes>>>, s: State)
    requires Sound(ix) && OrderOk(ix, order, random) && Walk(ix, order) && Starts(ix, order, random, s)
    ensures forall t :: t in s.queue ==> t in s.ix.tasks
  {
    hide WellLinked, RecoverTasks, Sound, RestedFile, JobRecorded, Enqueued;
    RecoveredKeys(ix, order, s.disk.Keys, random);
    forall t | t in s.queue ensures t in s.ix.tasks {
      EnqueuedKnown(ix, order, t);
    }
  }

  lemma {:induction false} EnqueuedKnown(ix: Index, order: seq<JobId>, t: TaskId)
    requires WellLinked(ix) && (forall j :: j in order ==> j in ix.jobs) && t in Enqueued(ix, order)
    ensures t in ix.tasks
  {
    var n := |order| - 1;
    if t in Enqueued(ix, order[..n]) {
      EnqueuedKnown(ix, order[..n], t);
    } else {
      LinkedTasks(ix, order[n]);
      UnfinishedKnown(ix.tasks, ix.jobs[order[n]].tasks, t);
    }
  }

  lemma {:induction false} UnfinishedKnown(tasks: map<TaskId, Task>, ids: seq<TaskId>, t: TaskId)
    requires (forall u :: u in ids ==> u in tasks) && t in Unfinished(tasks, ids)
    ensures t in ids
  {
    if t in Unfinished(tasks, ids[..|ids| - 1]) {
      UnfinishedKnown(tasks, ids[..|ids| - 1], t);
    }
  }

  // ----- what is stored during a run -----

  ghost predicate DistinctTasks(ix: Index) { forall j :: j in ix.jobs ==> Distinct(ix.jobs[j].tasks) }

  lemma InvSound(s: State)
    requires TasksOk(s) && JobsOk(s) && DistinctTasks(s.ix)
    ensures Sound(s.ix)
  {
    LinkedJob(s.ix);
    hide JobAggregate, AllTerminal, WellLinked;
    forall t | t in s.ix.tasks && s.ix.tasks[t].status.Cancelled? ensures AllTerminal(s.ix, s.ix.jobs[s.ix.tasks[t].job].tasks) {
      assert TaskOk(s, t) && JobOk(s, s.ix.tasks[t].job);
    }
  }

  /** The file only ever takes over the copy of the save in progress, which was the index when it began. */
  lemma StoreStep(s: State, step: Step)
    requires WellLinked(s.ix) && Enabled(s, step)
    ensures var s' := Apply(s, step);
      && s'.stored == (if step == EndSave(true) then s.saving.ix else s.stored)
      && (s'.saving == s.saving || s'.saving.NoSave? || s'.saving.ix == s.ix)
      && (step.EndSave? ==> s.saving.Saving? && s'.saving.NoSave?)
  {
    hide WellLinked, Act, TransitionJob, CancelJob, Submitted, Removals, WithTasks;
  }

  /** Only a submission adds a job, and no step changes a task list. */
  ghost predicate SameLists(a: Index, b: Index) {
    a.jobs.Keys == b.jobs.Keys && forall j :: j in a.jobs ==> b.jobs[j].tasks == a.jobs[j].tasks
  }

  lemma CancelLists(s: State, j: JobId)
    requires WellLinked(s.ix) && Enabled(s, CancelStep(j))
    ensures SameLists(s.ix, Apply(s, CancelStep(j)).ix)
  {
    CancelKeepsLinks(s.ix, j);
    var ix1 := s.ix.(tasks := CancelTasks(s.ix.tasks, s.ix.jobs[j].tasks));
    hide WellLinked, CancelTasks, JobAggregate, TransitionJob, JobRecorded;
    TransitionIndex(ix1, j);
    assert Apply(s, CancelStep(j)).ix == TransitionJob(ix1, j).ix;
  }

  lemma ReportLists(s: State, w: WorkerId)
    requires WellLinked(s.ix) && Enabled(s, ReportStep(w))
    ensures SameLists(s.ix, Apply(s, ReportStep(w)).ix)
  {
    hide WellLinked, JobAggregate, TransitionJob, JobRecorded;
    var j := s.ix.tasks[s.workers[w].task].job;
    TransitionIndex(s.ix, j);
    assert Apply(s, ReportStep(w)).ix == TransitionJob(s.ix, j).ix;
  }

  lemma LeaseLists(s: State, w: WorkerId, t: TaskId)
    requires WellLinked(s.ix) && Enabled(s, Lease(w, t))
    ensures SameLists(s.ix, Apply(s, Lease(w, t)).ix)
  {
    LinkedJob(s.ix);
    hide WellLinked;
    var j := s.ix.tasks[t].job;
    var jobs := Apply(s, Lease(w, t)).ix.jobs;
    assert jobs == s.ix.jobs || jobs == s.ix.jobs[j := s.ix.jobs[j].(status := Running)];
    hide Apply, Enabled;
  }

  lemma OtherLists(s: State, step: Step)
    requires WellLinked(s.ix) && Enabled(s, step) && !step.Submit? && !step.CancelStep? && !step.ReportStep? && !step.Lease?
    ensures SameLists(s.ix, Apply(s, step).ix)
  {
    hide WellLinked, Act, Removals, CanAct, IsSubmission;
    assert Apply(s, step).ix.jobs == s.ix.jobs;
    hide Apply, Enabled;
  }

  lemma JobsJoin(s: State, step: Step)
    requires WellLinked(s.ix) && Enabled(s, step) && step.Submit?
    ensures Distinct(step.job.tasks) && step.j !in s.ix.jobs && Apply(s, step).ix.jobs == s.ix.jobs[step.j := step.job]
  {
    hide WellLinked, WithTasks, IsNewTask, PlaceAll, ReservedPaths;
  }

  ghost predicate ListsStay(a: Index, b: Index) {
    forall j :: j in a.jobs ==> j in b.jobs && b.jobs[j].tasks == a.jobs[j].tasks
  }

  lemma DistinctStays(s: State, step: Step)
    requires WellLinked(s.ix) && Enabled(s, step) && DistinctTasks(s.ix)
    ensures DistinctTasks(Apply(s, step).ix) && ListsStay(s.ix, Apply(s, step).ix)
  {
    hide WellLinked, Apply, Distinct, IsSubmission, CanAct;
    match step {
      case Submit(j, job, tasks, random) => JobsJoin(s, step);
      case CancelStep(j) => CancelLists(s, j);
      case ReportStep(w) => ReportLists(s, w);
      case Lease(w, t) => LeaseLists(s, w, t);
      case _ => OtherLists(s, step);
    }
  }

  lemma NothingSaved(run: seq<State>, steps: seq<Step>)
    requires IsRun(run, steps)
    ensures run[0].saving.NoSave?
  {
    RunStart(run, steps);
  }

  lemma {:induction false} StoredSound(run: seq<State>, steps: seq<Step>, i: nat)
    requires IsRun(run, steps) && i < |run| && DistinctTasks(run[0].ix) && Sound(run[0].stored)
    ensures DistinctTasks(run[i].ix) && Sound(run[i].stored)
    ensures run[i].saving.Saving? ==> Sound(run[i].saving.ix)
  {
    hide WellLinked, Enabled, Apply, IsRun, Sound, DistinctTasks, Tokens, WorkersOk, TasksOk, JobsOk, Files, Deletions, Events, Store;
    if i == 0 {
      NothingSaved(run, steps);
    } else {
      RunLength(run, steps);
      StoredSound(run, steps, i - 1);
      RunKeeps(run, steps, i - 1);
      RunStep(run, steps, i - 1);
      StoreStep(run[i - 1], steps[i - 1]);
      DistinctStays(run[i - 1], steps[i - 1]);
      InvSound(run[i - 1]);
    }
  }

  /** A crash at any moment of a run: recovering from what was stored then starts a new run, so all
      guarantees hold again. */
  lemma CrashRestart(run: seq<State>, steps: seq<Step>, i: nat, order: seq<JobId>, random: seq<seq<seq<Bytes>>>, s: State)
    requires IsRun(run, steps) && i < |run| && DistinctTasks(run[0].ix) && Sound(run[0].stored)
    requires OrderOk(Loaded(run[i].stored), order, random) && Walk(Loaded(run[i].stored), order)
    requires Starts(Loaded(run[i].stored), order, random, s)
    ensures Init(s) && IsRun([s], [])
  {
    StoredSound(run, steps, i);
    LoadedSound(run[i].stored);
    hide Sound, Walk, Starts, IsRun, OrderOk;
    RecoveredInit(Loaded(run[i].stored), order, random, s);
    NewRun(s);
  }

  lemma NewRun(s: State)
    requires Init(s)
    ensures IsRun([s], [])
  {
    hide Init;
  }

  // ----- disjoint outputs across a restart -----

  ghost predicate Shaped(ix: Index) {
    forall t :: t in ix.tasks && ix.tasks[t].job in ix.jobs ==> JobShape(ix.jobs[ix.tasks[t].job], ix.tasks[t])
  }

  /** In a run of lucky steps what is stored is disjoint too. */
  lemma {:induction false} StoredApart(run: seq<State>, steps: seq<Step>, i: nat)
    requires IsRun(run, steps) && i < |run| && Apart(run[0].ix) && Shapes(run[0]) && Apart(run[0].stored) && Shaped(run[0].stored)
    requires |run| == |steps| + 1 && LuckyUntil(run, steps, i)
    ensures Apart(run[i].stored) && Shaped(run[i].stored)
    ensures run[i].saving.Saving? ==> Apart(run[i].saving.ix) && Shaped(run[i].saving.ix)
  {
    hide WellLinked, Enabled, Apply, IsRun, Lucky, IsStep, Apart, TaskShape, StageShape;
    if i == 0 {
      NothingSaved(run, steps);
    } else {
      RunLength(run, steps);
      StoredApart(run, steps, i - 1);
      RunKeeps(run, steps, i - 1);
      RunStep(run, steps, i - 1);
      StoreStep(run[i - 1], steps[i - 1]);
      NoSharedOutputs(run, steps, i - 1);
      RunShapes(run, steps, i - 1);
    }
  }

  /** Proper paths are stored at every moment of any run. */
  lemma {:induction false} StoredShaped(run: seq<State>, steps: seq<Step>, i: nat)
    requires IsRun(run, steps) && i < |run| && Shapes(run[0]) && Shaped(run[0].stored)
    ensures Shaped(run[i].stored) && (run[i].saving.Saving? ==> Shaped(run[i].saving.ix))
  {
    hide WellLinked, Enabled, Apply, IsRun, Shaped, Shapes, Inv;
    if i == 0 {
      NothingSaved(run, steps);
    } else {
      RunLength(run, steps);
      StoredShaped(run, steps, i - 1);
      RunKeeps(run, steps, i - 1);
      RunStep(run, steps, i - 1);
      StoreStep(run[i - 1], steps[i - 1]);
      RunShapes(run, steps, i - 1);
      ShapesShaped(run[i - 1]);
    }
  }

  lemma ShapesShaped(s: State)
    requires Shapes(s)
    ensures Shaped(s.ix)
  {
    hide JobShape, StageShape;
  }

  lemma LoadedApart(ix: Index)
    requires Apart(ix) && Shaped(ix)
    ensures Apart(Loaded(ix)) && Shaped(Loaded(ix))
  {
    hide IsZip, Ext, FormatExt;
    forall t | IsLive(Loaded(ix), t) ensures IsLive(ix, t) && ClaimsOf(Loaded(ix), t) <= ClaimsOf(ix, t) {
    }
    hide Claims;
    ShrinkApart(ix, Loaded(ix));
  }
}
