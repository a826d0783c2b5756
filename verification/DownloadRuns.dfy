/** Runs of the download manager from process start, and what holds in every state of every run. */
module DownloadRuns {
  import opened Utf8
  import opened Naming
  import opened DownloadCore
  import opened DownloadPaths
  import opened DownloadRun
  import opened DownloadSafety
  import opened DownloadInvariant
  import opened DownloadSteps
  import opened DownloadMoves
  import opened DownloadSubmission

  // ----- process start -----

  /** Nothing has been leased, decided or published yet. */
  predicate Blank(s: State) {
    && (forall w :: w in s.workers ==> s.workers[w].Idle?)
    && s.staged == map[] && s.saving == NoSave && s.pending == multiset{} && s.stuck == {} && s.unread == {}
    && s.events == multiset{} && s.cleaned == {}
  }

  ghost predicate RestedTask(s: State, t: TaskId)
    requires t in s.ix.tasks
  {
    var task := s.ix.tasks[t];
    && !task.status.Running? && !task.armed && !task.cancelled
    && (t in s.queue <==> task.status.Queued?) && s.queue[t] <= 1
    && (forall p :: Recorded(task, p) ==> (task.job, p) in s.written)
  }

  /** The aggregate is shown, and a cancelled task has no unfinished sibling. */
  predicate RestedJob(ix: Index, j: JobId)
    requires WellLinked(ix) && j in ix.jobs
  {
    && ix.jobs[j].status == JobAggregate(ix, j)
    && (ix.jobs[j].status.Cancelled? ==> AllTerminal(ix, ix.jobs[j].tasks))
  }

  /** Files from an earlier run count as a task's own only if a live job still records them. */
  predicate RestedFile(s: State, p: Path)
    requires p in s.disk
  {
    s.disk[p].By? ==>
      var t := s.disk[p].task;
      t in s.ix.tasks && s.ix.tasks[t].job in s.ix.jobs && !s.ix.jobs[s.ix.tasks[t].job].Dead() && Recorded(s.ix.tasks[t], p)
  }

  ghost predicate Init(s: State) {
    && WellLinked(s.ix) && s.ix.listed == s.ix.jobs.Keys && Blank(s)
    && (forall t :: t in s.queue ==> t in s.ix.tasks)
    && (forall t :: t in s.ix.tasks ==> RestedTask(s, t))
    && (forall j :: j in s.ix.jobs ==> RestedJob(s.ix, j))
    && [] !in s.disk && (forall p :: p in s.disk ==> RestedFile(s, p))
    && (forall j, p :: (j, p) in s.written ==> JobRecorded(s.ix, j, p))
  }

  lemma InitPeople(s: State)
    requires Init(s)
    ensures Tokens(s) && WorkersOk(s)
  {
    hide WellLinked;
    assert forall w, t :: !Holds(s, w, t);
    forall t | t in s.queue ensures s.queue[t] == 1 && t in s.ix.tasks {
      assert RestedTask(s, t);
    }
  }

  lemma InitTasks(s: State)
    requires Init(s)
    ensures TasksOk(s) && JobsOk(s)
  {
    hide JobAggregate;
    forall t | t in s.ix.tasks ensures TaskOk(s, t) {
      assert RestedTask(s, t);
      var j := s.ix.tasks[t].job;
      assert RestedJob(s.ix, j);
      AggregateFacts(s.ix, j);
    }
    hide WellLinked;
    forall j | j in s.ix.jobs ensures JobOk(s, j) {
      assert RestedJob(s.ix, j);
      AggregateFacts(s.ix, j);
    }
  }

  lemma InitBooks(s: State)
    requires Init(s)
    ensures Files(s) && Deletions(s) && Events(s) && Store(s)
  {
    hide WellLinked, RestedJob, AllTerminal;
    forall p | p in s.disk && s.disk[p].By? ensures FileOk(s, s.disk[p].task, p) {
      assert RestedFile(s, p);
    }
    forall t, p | t in s.ix.tasks && Recorded(s.ix.tasks[t], p) ensures (s.ix.tasks[t].job, p) in s.written {
      assert RestedTask(s, t);
    }
  }

  lemma InitInv(s: State)
    requires Init(s)
    ensures Inv(s)
  {
    InitPeople(s);
    InitTasks(s);
    InitBooks(s);
  }

  // ----- every step keeps the invariant -----

  lemma StepKeeps(s: State, step: Step)
    requires Inv(s) && WellLinked(s.ix) && Enabled(s, step)
    ensures Inv(Apply(s, step)) && WellLinked(Apply(s, step).ix)
  {
    hide Inv, WellLinked, IsSubmission, CanAct;
    match step {
      case Submit(j, job, tasks, random) => SubmitKeeps(s, j, job, tasks, random);
      case CancelStep(j) => CancelKeeps(s, j);
      case Remove(j) => RemoveKeeps(s, j);
      case Lease(w, t) => LeaseKeeps(s, w, t);
      case Work(w, o, stick) => WorkKeeps(s, w, o, stick);
      case ReportStep(w) => ReportKeeps(s, w);
      case BeginSave => BeginSaveKeeps(s);
      case BeginSaveFor(j) => BeginSaveForKeeps(s, j);
      case EndSave(ok) => EndSaveKeeps(s, ok);
      case Delete(r, stick) => DeleteKeeps(s, r, stick);
      case Outside(p, present) => OutsideKeeps(s, p, present);
      case Shutdown => ShutdownKeeps(s);
    }
    hide Apply, Enabled;
    InvBasics(Apply(s, step));
  }

  ghost predicate IsStep(s: State, step: Step, s': State) {
    WellLinked(s.ix) && Enabled(s, step) && s' == Apply(s, step)
  }

  /** A process run: the states passed through and the steps taken. */
  ghost predicate IsRun(run: seq<State>, steps: seq<Step>) {
    |run| == |steps| + 1 && Init(run[0]) && forall i :: 0 <= i < |steps| ==> IsStep(run[i], steps[i], run[i + 1])
  }

  lemma RunLength(run: seq<State>, steps: seq<Step>)
    requires IsRun(run, steps)
    ensures |run| == |steps| + 1
  {
  }

  lemma RunStart(run: seq<State>, steps: seq<Step>)
    requires IsRun(run, steps)
    ensures Init(run[0]) && WellLinked(run[0].ix)
  {
    hide Enabled, Apply;
  }

  lemma RunStep(run: seq<State>, steps: seq<Step>, i: nat)
    requires IsRun(run, steps) && i < |steps|
    ensures WellLinked(run[i].ix) && Enabled(run[i], steps[i]) && run[i + 1] == Apply(run[i], steps[i])
  {
    hide WellLinked, Enabled, Apply, Init;
    assert IsStep(run[i], steps[i], run[i + 1]);
  }

  lemma {:induction false} RunKeeps(run: seq<State>, steps: seq<Step>, i: nat)
    requires IsRun(run, steps) && i < |run|
    ensures Inv(run[i]) && WellLinked(run[i].ix) && |run| == |steps| + 1
  {
    hide Inv, WellLinked, Enabled, Apply, Init;
    if i == 0 {
      RunStart(run, steps);
      InitInv(run[0]);
    } else {
      RunKeeps(run, steps, i - 1);
      RunStep(run, steps, i - 1);
      hide IsRun;
      StepKeeps(run[i - 1], steps[i - 1]);
    }
  }

  /** No run is stuck for a reason of the model: any enabled step extends it. */
  lemma RunExtends(run: seq<State>, steps: seq<Step>, step: Step)
    requires IsRun(run, steps) && Enabled(run[|steps|], step)
    ensures WellLinked(run[|steps|].ix) && IsRun(run + [Apply(run[|steps|], step)], steps + [step])
  {
    RunKeeps(run, steps, |steps|);
    assert IsStep(run[|steps|], step, Apply(run[|steps|], step));
    hide Inv, WellLinked, Enabled, Apply, Init, IsStep;
    Longer(run, steps, step, Apply(run[|steps|], step));
  }

  lemma Longer(run: seq<State>, steps: seq<Step>, step: Step, s': State)
    requires IsRun(run, steps) && IsStep(run[|steps|], step, s')
    ensures IsRun(run + [s'], steps + [step])
  {
    hide Init, IsStep;
    var more, all := run + [s'], steps + [step];
    forall i | 0 <= i < |all| ensures IsStep(more[i], all[i], more[i + 1]) {
      if i < |steps| {
        assert IsStep(run[i], steps[i], run[i + 1]);
      }
    }
  }

  // ----- all or nothing -----

  /** No worker is on the job any more and none of its scheduled removals is outstanding. */
  ghost predicate IsQuiet(s: State, j: JobId) {
    && !Engaged(s, j) && Get(s.staged, j) == [] && (s.saving.Saving? && s.saving.job == j ==> s.saving.paths == [])
    && (forall r :: r in s.pending ==> r.job != j)
  }

  /** Once a job has failed or been cancelled and is quiet, every file one of its tasks wrote last
      is gone, unless a removal of it for this job failed or the task could not read back its own sidecar. */
  lemma AllOrNothing(run: seq<State>, steps: seq<Step>, i: nat, t: TaskId, p: Path)
    requires IsRun(run, steps) && i < |run| && t in run[i].ix.tasks && run[i].ix.tasks[t].job in run[i].ix.jobs
    requires run[i].ix.jobs[run[i].ix.tasks[t].job].Dead() && IsQuiet(run[i], run[i].ix.tasks[t].job)
    requires Written(run[i].disk, p, t)
    ensures (run[i].ix.tasks[t].job, p) in run[i].stuck || (t in run[i].unread && p == run[i].ix.tasks[t].metadataPath)
  {
    RunKeeps(run, steps, i);
    hide WellLinked, IsRun;
    QuietFiles(run[i], t, p);
  }

  lemma QuietFiles(s: State, t: TaskId, p: Path)
    requires Files(s) && t in s.ix.tasks && s.ix.tasks[t].job in s.ix.jobs
    requires s.ix.jobs[s.ix.tasks[t].job].Dead() && IsQuiet(s, s.ix.tasks[t].job) && Written(s.disk, p, t)
    ensures (s.ix.tasks[t].job, p) in s.stuck || (t in s.unread && p == s.ix.tasks[t].metadataPath)
  {
    assert FileOk(s, t, p);
    assert !FlownBy(s, t, p);
  }

  // ----- terminal is final -----

  ghost predicate OverStays(s: State, s': State) {
    forall j :: IsOver(s, j) ==> IsOver(s', j) && s'.ix.jobs[j].status == s.ix.jobs[j].status
  }

  lemma StaysStays(a: State, b: State, c: State)
    requires Advances(a.ix, b.ix) && OverStays(a, b) && Advances(b.ix, c.ix) && OverStays(b, c)
    ensures Advances(a.ix, c.ix) && OverStays(a, c)
  {
  }

  /** What a step never undoes, and when it publishes the terminal event of a job. */
  ghost predicate Progress(s: State, s': State) {
    && Advances(s.ix, s'.ix)
    && OverStays(s, s')
    && (forall j :: j in s'.events <==> j in s.events || (IsOver(s', j) && !IsOver(s, j)))
  }

  lemma EffectProgress(s: State, w: WorkerId, t: TaskId, e: Effect)
    requires Placed?(s, w, t) && Keeps(ViewOf(s, w, t), e)
    ensures Progress(s, Worked(s, w, e))
  {
  }

  lemma WorkProgress(s: State, w: WorkerId, o: Oracle, stick: bool)
    requires Inv(s) && WellLinked(s.ix) && Enabled(s, Work(w, o, stick))
    ensures Progress(s, Apply(s, Work(w, o, stick)))
  {
    var t := s.workers[w].task;
    assert Holds(s, w, t);
    var v := ViewOf(s, w, t);
    assert v.Ok() && v.Can(o);
    var e := Act(v.job, v.id, v.t, v.stage, o, stick, v.disk, v.shutdown);
    ActKeeps(v, o, stick);
    assert Apply(s, Work(w, o, stick)) == Worked(s, w, e);
    hide Keeps, Progress;
    EffectProgress(s, w, t, e);
  }

  lemma ReportsProgress(s: State, s': State, j: JobId)
    requires Reports(s, s', j)
    ensures Progress(s, s')
  {
    hide WellLinked, JobAggregate, JobRecorded, Get;
  }

  lemma ReportProgress(s: State, w: WorkerId)
    requires Inv(s) && WellLinked(s.ix) && Enabled(s, ReportStep(w))
    ensures Progress(s, Apply(s, ReportStep(w)))
  {
    hide WellLinked, Reports, TransitionJob, Progress, Tokens, WorkersOk, TasksOk, JobsOk, Files, Deletions, Events, Store;
    var j := s.ix.tasks[s.workers[w].task].job;
    TransitionIndex(s.ix, j);
    var m := Moved(s, j, TransitionJob(s.ix, j));
    TransitionReports(s, j);
    hide Inv, JobRecorded;
    var s' := Apply(s, ReportStep(w));
    assert s' == m.(workers := s'.workers);
    ReportsWorkerless(s, m, s', j);
    ReportsProgress(s, s', j);
  }

  lemma CancelProgress(s: State, j: JobId)
    requires Inv(s) && WellLinked(s.ix) && Enabled(s, CancelStep(j))
    ensures Progress(s, Apply(s, CancelStep(j)))
  {
    CancelReports(s, j);
    hide Inv, WellLinked, Reports, Apply;
    ReportsProgress(s, Apply(s, CancelStep(j)), j);
  }

  lemma JoinProgress(s: State, s': State, j: JobId, job: Job)
    requires Joins(s, s', j, job)
    ensures Progress(s, s')
  {
  }

  lemma DropProgress(s: State, s': State, t: TaskId)
    requires s' == s.(queue := s.queue - multiset{t})
    ensures Progress(s, s')
  {
  }

  lemma TakesProgress(s: State, s': State, w: WorkerId, t: TaskId)
    requires Takes(s, s', w, t)
    ensures Progress(s, s')
  {
  }

  lemma LeaseProgress(s: State, w: WorkerId, t: TaskId)
    requires Inv(s) && WellLinked(s.ix) && Enabled(s, Lease(w, t))
    ensures Progress(s, Apply(s, Lease(w, t)))
  {
    hide WellLinked, Takes, Progress, Tokens, WorkersOk, TasksOk, JobsOk, Files, Deletions, Events, Store;
    var s' := Apply(s, Lease(w, t));
    if s.ix.tasks[t].status.IsTerminal() {
      DropProgress(s, s', t);
    } else {
      LeaseTakes(s, s', w, t);
      TakesProgress(s, s', w, t);
    }
  }

  lemma StepProgress(s: State, step: Step)
    requires Inv(s) && WellLinked(s.ix) && Enabled(s, step)
    ensures Progress(s, Apply(s, step))
  {
    match step {
      case Submit(j, job, tasks, random) =>
        hide Inv, WellLinked, IsSubmission, Progress, Joins;
        SubmitJoins(s, j, job, tasks, random);
        JoinProgress(s, Apply(s, step), j, job);
      case CancelStep(j) => CancelProgress(s, j);
      case Lease(w, t) => LeaseProgress(s, w, t);
      case Work(w, o, stick) => WorkProgress(s, w, o, stick);
      case ReportStep(w) => ReportProgress(s, w);
      case _ =>
        OtherProgress(s, step);
    }
  }

  lemma OtherProgress(s: State, step: Step)
    requires WellLinked(s.ix) && Enabled(s, step)
    requires step.Remove? || step.BeginSave? || step.BeginSaveFor? || step.EndSave? || step.Delete? || step.Outside? || step.Shutdown?
    ensures Progress(s, Apply(s, step))
  {
    hide WellLinked, Act, TransitionJob, CancelJob, Submitted, Removals, Worked, Moved, Leased, Progress, CanAct, IsSubmission;
    assert Apply(s, step).ix.tasks == s.ix.tasks && Apply(s, step).ix.jobs == s.ix.jobs && Apply(s, step).events == s.events;
    hide Apply, Enabled;
    SameProgress(s, Apply(s, step));
  }

  lemma SameProgress(s: State, s': State)
    requires s'.ix.tasks == s.ix.tasks && s'.ix.jobs == s.ix.jobs && s'.events == s.events
    ensures Progress(s, s')
  {
  }

  /** Over a whole run a finished task and a finished job keep their status. */
  lemma {:induction false} TerminalIsFinal(run: seq<State>, steps: seq<Step>, i: nat, k: nat)
    requires IsRun(run, steps) && i <= k < |run|
    ensures Advances(run[i].ix, run[k].ix)
    ensures OverStays(run[i], run[k])
    decreases k
  {
    hide Inv, WellLinked, Enabled, Apply, IsRun;
    if i < k {
      TerminalIsFinal(run, steps, i, k - 1);
      RunKeeps(run, steps, k - 1);
      RunStep(run, steps, k - 1);
      hide OverStays, Advances;
      StepProgress(run[k - 1], steps[k - 1]);
      StaysStays(run[i], run[k - 1], run[k]);
    }
  }

  /** A job has published its terminal event exactly when it became terminal in this run,
      and then exactly once. */
  lemma {:induction false} OneTerminalEvent(run: seq<State>, steps: seq<Step>, i: nat, j: JobId)
    requires IsRun(run, steps) && i < |run|
    ensures j in run[i].events <==> IsOver(run[i], j) && !IsOver(run[0], j)
    ensures run[i].events[j] <= 1
  {
    hide WellLinked, Enabled, Apply, IsRun, Tokens, WorkersOk, TasksOk, JobsOk, Files, Deletions, Store;
    RunKeeps(run, steps, i);
    if i == 0 {
      RunStart(run, steps);
    } else {
      OneTerminalEvent(run, steps, i - 1, j);
      RunKeeps(run, steps, i - 1);
      TerminalIsFinal(run, steps, 0, i - 1);
      RunStep(run, steps, i - 1);
      StepProgress(run[i - 1], steps[i - 1]);
    }
  }

  /** A finished job has only finished tasks; no task is run twice at once or enqueued while it
      runs; a job nobody works on shows the aggregate of its tasks. */
  lemma EveryState(run: seq<State>, steps: seq<Step>, i: nat)
    requires IsRun(run, steps) && i < |run|
    ensures WellLinked(run[i].ix)
    ensures forall j :: IsOver(run[i], j) ==> AllTerminal(run[i].ix, run[i].ix.jobs[j].tasks)
    ensures forall w, v, t :: Holds(run[i], w, t) && Holds(run[i], v, t) ==> w == v
    ensures forall w, t :: Holds(run[i], w, t) ==> run[i].queue[t] == 0
    ensures forall t :: run[i].queue[t] <= 1
    ensures forall j :: j in run[i].ix.jobs && !Engaged(run[i], j) ==> run[i].ix.jobs[j].status == JobAggregate(run[i].ix, j)
  {
    RunKeeps(run, steps, i);
    hide JobAggregate, WellLinked, IsRun, WorkersOk, Files, Deletions, Events, Store;
    forall j | j in run[i].ix.jobs
      ensures IsOver(run[i], j) ==> AllTerminal(run[i].ix, run[i].ix.jobs[j].tasks)
      ensures !Engaged(run[i], j) ==> run[i].ix.jobs[j].status == JobAggregate(run[i].ix, j)
    {
      assert JobOk(run[i], j);
    }
  }

  // ----- cleanup deletes only what was recorded -----

  lemma ActRecords(v: View, o: Oracle, stick: bool)
    requires v.Ok() && v.Can(o)
    ensures var e := Act(v.job, v.id, v.t, v.stage, o, stick, v.disk, v.shutdown);
      forall p :: p in e.recorded ==> Recorded(e.task, p)
  {
    hide IsZip, ReplaceExt, PartPath, OutPath, TaskWritten;
  }

  lemma WorkRecords(s: State, w: WorkerId, o: Oracle, stick: bool, j: JobId, p: Path)
    requires Inv(s) && WellLinked(s.ix) && Enabled(s, Work(w, o, stick))
    requires (j, p) in Apply(s, Work(w, o, stick)).written && (j, p) !in s.written
    ensures JobRecorded(Apply(s, Work(w, o, stick)).ix, j, p)
  {
    hide JobsOk, Files, Deletions, Events, Store, Act;
    var t := s.workers[w].task;
    assert Holds(s, w, t);
    var v := ViewOf(s, w, t);
    assert v.Ok() && v.Can(o);
    var e := Act(v.job, v.id, v.t, v.stage, o, stick, v.disk, v.shutdown);
    ActRecords(v, o, stick);
    hide TasksOk, WorkersOk, Tokens;
    assert Apply(s, Work(w, o, stick)).ix.tasks[t] == e.task;
    assert j == v.t.job && p in e.recorded;
  }

  lemma StepWrites(s: State, step: Step, j: JobId, p: Path)
    requires Inv(s) && WellLinked(s.ix) && Enabled(s, step) && (j, p) in Apply(s, step).written
    ensures (j, p) in s.written || JobRecorded(Apply(s, step).ix, j, p)
  {
    hide Inv, JobRecorded, WellLinked;
    if step.Work? && (j, p) !in s.written {
      WorkRecords(s, step.w, step.o, step.stick, j, p);
    } else {
      OthersWriteNothing(s, step);
    }
  }

  lemma OthersWriteNothing(s: State, step: Step)
    requires WellLinked(s.ix) && Enabled(s, step)
    ensures step.Work? || Apply(s, step).written == s.written
  {
    hide Act, TransitionJob, CancelJob, WellLinked, Submitted;
  }

  lemma {:induction false} WrittenWasRecorded(run: seq<State>, steps: seq<Step>, i: nat, j: JobId, p: Path) returns (k: nat)
    requires IsRun(run, steps) && i < |run| && (j, p) in run[i].written
    ensures k <= i && JobRecorded(run[k].ix, j, p)
    decreases i
  {
    hide Inv, WellLinked, Enabled, Apply, IsRun, JobRecorded;
    RunKeeps(run, steps, i);
    k := i;
    if i == 0 {
      RunStart(run, steps);
    } else {
      RunKeeps(run, steps, i - 1);
      RunStep(run, steps, i - 1);
      StepWrites(run[i - 1], steps[i - 1], j, p);
      if (j, p) in run[i - 1].written {
        k := WrittenWasRecorded(run, steps, i - 1, j, p);
      }
    }
  }

  /** Every path a removal deletes was recorded as written by a task of that very job
      at some moment of the run. */
  lemma DeletesOnlyRecorded(run: seq<State>, steps: seq<Step>, i: nat) returns (k: nat)
    requires IsRun(run, steps) && i < |steps| && steps[i].Delete?
    ensures k <= i && JobRecorded(run[k].ix, steps[i].r.job, steps[i].r.path)
  {
    hide Tokens, WorkersOk, TasksOk, JobsOk, Files, Store, Events, WellLinked, Apply, IsRun, JobRecorded;
    RunLength(run, steps);
    RunKeeps(run, steps, i);
    RunStep(run, steps, i);
    k := WrittenWasRecorded(run, steps, i, steps[i].r.job, steps[i].r.path);
  }
}
