/** A run in which a failed job keeps a file: its sidecar was there, could not be read back, and was disowned. */
module DownloadLeftover {
  import opened Utf8
  import opened Naming
  import opened DownloadCore
  import opened DownloadPaths
  import opened DownloadRun
  import opened DownloadSafety
  import opened DownloadInvariant
  import opened DownloadSteps
  import opened DownloadRuns
  import opened DownloadDisjoint
  import opened DownloadTouch

  const MEDIA: Path := [0x61]
  const SIDECAR: Path := [0x62]

  function TheTask(status: Status, owned: bool, armed: bool): Task { Task(1, MEDIA, SIDECAR, status, true, owned, armed, false) }

  function TheIndex(job: Status, t: Task): Index { Index(map[1 := Job(Image, true, job, [1])], map[1 := t], {1}) }

  /** A process that has just recovered one job whose media and sidecar are both recorded. */
  const START: State :=
    State(TheIndex(Queued, TheTask(Queued, true, false)), multiset{1}, map[0 := Idle], map[MEDIA := By(1), SIDECAR := By(1)],
          map[], NoSave, multiset{}, {(1, MEDIA), (1, SIDECAR)}, {}, {}, multiset{}, TheIndex(Queued, TheTask(Queued, true, false)), {}, false)

  function At(stage: Stage, t: Task, unread: bool): State {
    START.(ix := TheIndex(Running, t), queue := multiset{}, workers := map[0 := Busy(1, stage)], unread := if unread then {1} else {})
  }

  lemma OneJob(st: Status, t: Task)
    requires t.job == 1
    ensures WellLinked(TheIndex(st, t)) && JobAggregate(TheIndex(st, t), 1) == Aggregate([t.status])
    ensures WrittenPaths(TheIndex(st, t).tasks, [1]) == TaskWritten(t)
  {
    assert Statuses(TheIndex(st, t).tasks, [1]) == [t.status];
    assert [1][1..] == [];
  }

  lemma StartOk()
    ensures Init(START)
  {
    OneJob(Queued, TheTask(Queued, true, false));
    assert RestedJob(START.ix, 1) by { assert Queued in [Queued]; }
    assert RestedTask(START, 1);
    forall j: JobId, p | (j, p) in START.written ensures JobRecorded(START.ix, j, p) {
      assert 1 in START.ix.jobs[1].tasks && Recorded(START.ix.tasks[1], p);
    }
  }

  lemma Leases()
    ensures IsStep(START, Lease(0, 1), At(Reuse, TheTask(Running, true, true), false))
  {
    OneJob(Queued, TheTask(Queued, true, false));
  }

  /** One step of the only worker on its own task, which leaves the disk as it is. */
  lemma Works(stage: Stage, t: Task, unread: bool, o: Oracle, stage': Stage, t': Task, unread': bool)
    requires t.job == 1 && t'.job == 1
    requires CanAct(THE_JOB, 1, t, stage, o, START.disk, false)
    requires Act(THE_JOB, 1, t, stage, o, false, START.disk, false) == Effect(t', stage', START.disk, [], {}, {}, unread')
    ensures IsStep(At(stage, t, unread), Work(0, o, false), At(stage', t', unread || unread'))
  {
    hide Act, CanAct, WellLinked, JobAggregate, WrittenPaths, TaskWritten, Worked;
    OneJob(Running, t);
    var s := At(stage, t, unread);
    var e := Effect(t', stage', START.disk, [], {}, {}, unread');
    assert Apply(s, Work(0, o, false)) == Worked(s, 0, e);
    hide Apply;
    WorkedIs(s, e, stage, t, unread);
  }

  lemma WorkedIs(s: State, e: Effect, stage: Stage, t: Task, unread: bool)
    requires e.disk == START.disk && e.drop == [] && e.recorded == {} && e.stuck == {}
    requires s == At(stage, t, unread) && t.job == 1
    ensures Worked(s, 0, e) == At(e.stage, e.task, unread || e.unread)
  {
    var r := Worked(s, 0, e);
    assert Removals(1, [], false) == multiset{};
    assert r.written == s.written;
    assert r.ix.tasks == map[1 := e.task];
    assert r.workers == map[0 := Busy(1, e.stage)];
  }

  const RUNS: Task := TheTask(Running, true, true)
  const FAILS: Task := TheTask(Failed, false, true)
  const FAILED: Task := TheTask(Failed, false, false)

  const THE_JOB: Job := Job(Image, true, Running, [1])

  /** Up to the sidecar that cannot be read back. */
  lemma Reads()
    ensures IsStep(At(Reuse, RUNS, false), Work(0, Good, false), At(Stat, RUNS, false))
    ensures IsStep(At(Stat, RUNS, false), Work(0, Good, false), At(Sidecar, RUNS, false))
    ensures IsStep(At(Sidecar, RUNS, false), Work(0, Good, false), At(SidecarCheck, RUNS, false))
    ensures IsStep(At(SidecarCheck, RUNS, false), Work(0, Good, false), At(SidecarLook, RUNS, false))
  {
    hide IsStep;
    Works(Reuse, RUNS, false, Good, Stat, RUNS, false);
    Works(Stat, RUNS, false, Good, Sidecar, RUNS, false);
    Works(Sidecar, RUNS, false, Good, SidecarCheck, RUNS, false);
    Works(SidecarCheck, RUNS, false, Good, SidecarLook, RUNS, false);
  }

  /** On to the end of the task. */
  lemma Disowns()
    ensures IsStep(At(SidecarLook, RUNS, false), Work(0, IoError, false), At(SidecarDone(Error), RUNS, true))
    ensures IsStep(At(SidecarDone(Error), RUNS, true), Work(0, Good, false), At(Finish, FAILS, true))
    ensures IsStep(At(Finish, FAILS, true), Work(0, Good, false), At(Report, FAILED, true))
  {
    hide IsStep;
    Works(SidecarLook, RUNS, false, IoError, SidecarDone(Error), RUNS, true);
    Works(SidecarDone(Error), RUNS, true, Good, Finish, FAILS, false);
    Works(Finish, FAILS, true, Good, Report, FAILED, false);
  }

  /** The job has failed; its cleanup is staged, waits for the save, is scheduled and runs. */
  const REPORTED: State :=
    At(Report, FAILED, true).(ix := TheIndex(Failed, FAILED), workers := map[0 := Idle], staged := map[1 := [MEDIA]], events := multiset{1})
  const SAVING: State := REPORTED.(staged := map[], saving := Saving(TheIndex(Failed, FAILED), 1, [MEDIA]))
  const SCHEDULED: State :=
    SAVING.(saving := NoSave, pending := multiset{Removal(1, MEDIA, true)}, stored := TheIndex(Failed, FAILED))
  const CLEANED: State := SCHEDULED.(pending := multiset{}, disk := map[SIDECAR := By(1)], cleaned := {1})

  lemma Transits()
    ensures var s := At(Report, FAILED, true);
      TransitionJob(s.ix, 1) == Transition(TheIndex(Failed, FAILED), [MEDIA], true)
  {
    var s := At(Report, FAILED, true);
    OneJob(Running, FAILED);
    assert Aggregate([Failed]) == Failed by { assert Failed in [Failed]; }
    assert TaskWritten(FAILED) == [MEDIA];
    hide WrittenPaths, TaskWritten, Aggregate, JobAggregate, WellLinked;
    var tr := TransitionJob(s.ix, 1);
    assert tr.ix.jobs == map[1 := Job(Image, true, Failed, [1])];
  }

  lemma Reports()
    ensures IsStep(At(Report, FAILED, true), ReportStep(0), REPORTED)
  {
    OneJob(Running, FAILED);
    Transits();
    var s := At(Report, FAILED, true);
    var tr := TransitionJob(s.ix, 1);
    hide WrittenPaths, TaskWritten, Aggregate, JobAggregate, WellLinked, TransitionJob;
    assert Get(s.staged, 1) + [MEDIA] == [MEDIA];
    assert Moved(s, 1, tr).staged == map[1 := [MEDIA]];
    assert Moved(s, 1, tr).events == multiset{1};
    assert s.workers[0 := Idle] == map[0 := Idle];
  }

  /** A finished job's cleanup of the media: the save may fail, the removal happens anyway. */
  lemma CleansUp(s: State, waiting: State, scheduled: State, cleaned: State, ok: bool)
    requires WellLinked(s.ix) && s.staged == map[1 := [MEDIA]] && s.saving.NoSave? && s.pending == multiset{} && s.cleaned == {}
    requires waiting == s.(staged := map[], saving := Saving(s.ix, 1, [MEDIA]))
    requires scheduled == waiting.(saving := NoSave, pending := multiset{Removal(1, MEDIA, true)}, stored := if ok then s.ix else s.stored)
    requires cleaned == scheduled.(pending := multiset{}, disk := s.disk - {MEDIA}, cleaned := {1})
    ensures IsStep(s, BeginSaveFor(1), waiting) && IsStep(waiting, EndSave(ok), scheduled)
    ensures IsStep(scheduled, Delete(Removal(1, MEDIA, true), false), cleaned)
  {
    hide WellLinked, Removals;
    assert s.staged - {1} == map[];
    assert Removals(1, [MEDIA], true) == multiset{Removal(1, MEDIA, true)} by { OneRemoval(); }
    assert s.pending + multiset{Removal(1, MEDIA, true)} == multiset{Removal(1, MEDIA, true)};
    assert scheduled.pending - multiset{Removal(1, MEDIA, true)} == multiset{};
    assert {} + {1} == {1};
  }

  lemma OneRemoval()
    ensures Removals(1, [MEDIA], true) == multiset{Removal(1, MEDIA, true)}
  {
    assert [MEDIA][1..] == [];
  }

  /** A run in which the task fails on its own, unreadable sidecar. */
  lemma Fails() returns (run: seq<State>, steps: seq<Step>)
    ensures IsRun(run, steps) && |run| == |steps| + 1 && run[|steps|] == At(Report, FAILED, true)
  {
    hide Init, IsStep, WellLinked, IsRun;
    Leases();
    Reads();
    Disowns();
    run, steps := Begins();
    run, steps := Then(run, steps, START, Lease(0, 1), At(Reuse, RUNS, false));
    run, steps := Then(run, steps, At(Reuse, RUNS, false), Work(0, Good, false), At(Stat, RUNS, false));
    run, steps := Then(run, steps, At(Stat, RUNS, false), Work(0, Good, false), At(Sidecar, RUNS, false));
    run, steps := Then(run, steps, At(Sidecar, RUNS, false), Work(0, Good, false), At(SidecarCheck, RUNS, false));
    run, steps := Then(run, steps, At(SidecarCheck, RUNS, false), Work(0, Good, false), At(SidecarLook, RUNS, false));
    run, steps := Then(run, steps, At(SidecarLook, RUNS, false), Work(0, IoError, false), At(SidecarDone(Error), RUNS, true));
    run, steps := Then(run, steps, At(SidecarDone(Error), RUNS, true), Work(0, Good, false), At(Finish, FAILS, true));
    run, steps := Then(run, steps, At(Finish, FAILS, true), Work(0, Good, false), At(Report, FAILED, true));
  }

  lemma CleanedIs()
    ensures CLEANED.ix.jobs[1].Dead() && IsQuiet(CLEANED, 1) && CLEANED.stuck == {}
    ensures Written(CLEANED.disk, SIDECAR, 1) && CLEANED.ix.tasks[1].metadataPath == SIDECAR
  {
  }

  /** The second exception of the all-or-nothing guarantee is real: after this run the job has failed and is
      quiet, no removal failed, and the sidecar its task wrote is still there. */
  lemma SidecarSurvives() returns (run: seq<State>, steps: seq<Step>)
    ensures IsRun(run, steps) && |run| == |steps| + 1 && run[|steps|] == CLEANED
    ensures CLEANED.ix.jobs[1].Dead() && IsQuiet(CLEANED, 1) && CLEANED.stuck == {}
    ensures Written(CLEANED.disk, SIDECAR, 1) && CLEANED.ix.tasks[1].metadataPath == SIDECAR
  {
    hide Init, IsStep, WellLinked, IsRun, IsQuiet, Written;
    run, steps := Fails();
    Reports();
    assert WellLinked(REPORTED.ix) by { OneJob(Failed, FAILED); }
    assert REPORTED.disk - {MEDIA} == map[SIDECAR := By(1)];
    CleansUp(REPORTED, SAVING, SCHEDULED, CLEANED, true);
    run, steps := Then(run, steps, At(Report, FAILED, true), ReportStep(0), REPORTED);
    run, steps := Then(run, steps, REPORTED, BeginSaveFor(1), SAVING);
    run, steps := Then(run, steps, SAVING, EndSave(true), SCHEDULED);
    run, steps := Then(run, steps, SCHEDULED, Delete(Removal(1, MEDIA, true), false), CLEANED);
    CleanedIs();
  }

  lemma OutOfReachNow()
    ensures !Reaches(CLEANED, SIDECAR)
  {
    hide Claims;
    assert forall w, t :: !Holds(CLEANED, w, t);
    assert Retired(CLEANED, 1);
    assert forall j: JobId :: !Owed(CLEANED, j, SIDECAR);
  }

  /** However the process goes on, that sidecar stays unless somebody outside removes or replaces it. */
  lemma SidecarStays(run: seq<State>, steps: seq<Step>, i: nat, k: nat)
    requires IsRun(run, steps) && i <= k < |run| == |steps| + 1 && Shapes(run[0]) && run[i] == CLEANED
    requires LeavesAll(run, steps, i, k, SIDECAR)
    ensures Written(run[k].disk, SIDECAR, 1)
  {
    hide IsRun, Shapes, Reaches, LeavesAll;
    OutOfReachNow();
    FileStays(run, steps, i, k, SIDECAR);
  }

  lemma Begins() returns (run: seq<State>, steps: seq<Step>)
    ensures run == [START] && steps == [] && IsRun(run, steps)
  {
    StartOk();
    run, steps := [START], [];
  }

  /** A run goes on by one step. */
  lemma Then(run: seq<State>, steps: seq<Step>, s: State, step: Step, s': State) returns (more: seq<State>, all: seq<Step>)
    requires IsRun(run, steps) && |run| == |steps| + 1 && run[|steps|] == s && IsStep(s, step, s')
    ensures more == run + [s'] && all == steps + [step] && IsRun(more, all) && |more| == |all| + 1 && more[|all|] == s'
  {
    hide Init, IsStep;
    more, all := run + [s'], steps + [step];
    Longer(run, steps, step, s');
  }
}
