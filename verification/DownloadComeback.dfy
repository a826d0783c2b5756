/** A run in which a cancelled job comes back: the save before its cleanup fails, and the manager deletes anyway. */
module DownloadComeback {
  import opened Utf8
  import opened Naming
  import opened DownloadCore
  import opened DownloadPaths
  import opened DownloadRun
  import opened DownloadSafety
  import opened DownloadInvariant
  import opened DownloadSteps
  import opened DownloadRuns
  import opened DownloadRecovery
  import opened DownloadRestart
  import opened DownloadSaves
  import opened DownloadLeftover

  const WAITS: Task := TheTask(Queued, false, false)
  const GONE: Task := TheTask(Cancelled, false, false)

  /** A process that has just recovered one job whose media is on disk; the store file says the same. */
  const RECOVERED: State :=
    State(TheIndex(Queued, WAITS), multiset{1}, map[0 := Idle], map[MEDIA := By(1)],
          map[], NoSave, multiset{}, {(1, MEDIA)}, {}, {}, multiset{}, TheIndex(Queued, WAITS), {}, false)

  /** The user cancels; the save fails; the cleanup deletes the media. */
  const CANCELLED: State :=
    RECOVERED.(ix := TheIndex(Cancelled, GONE), staged := map[1 := [MEDIA]], events := multiset{1})
  const TRYING: State := CANCELLED.(staged := map[], saving := Saving(CANCELLED.ix, 1, [MEDIA]))
  const UNSAVED: State := TRYING.(saving := NoSave, pending := multiset{Removal(1, MEDIA, true)})
  const DELETED: State := UNSAVED.(pending := multiset{}, disk := map[], cleaned := {1})

  lemma RecoveredOk()
    ensures Init(RECOVERED) && FromStore(RECOVERED) && Sound(RECOVERED.stored) && DistinctTasks(RECOVERED.ix)
  {
    OneJob(Queued, WAITS);
    hide WrittenPaths, TaskWritten;
    assert RestedJob(RECOVERED.ix, 1) by { assert Queued in [Queued]; }
    assert RestedTask(RECOVERED, 1);
    forall j: JobId, p | (j, p) in RECOVERED.written ensures JobRecorded(RECOVERED.ix, j, p) {
      assert 1 in RECOVERED.ix.jobs[1].tasks && Recorded(RECOVERED.ix.tasks[1], p);
    }
    assert !AllTerminal(RECOVERED.stored, [1]) by { assert 1 in [1]; }
  }

  lemma Cancels()
    ensures IsStep(RECOVERED, CancelStep(1), CANCELLED)
  {
    OneJob(Queued, WAITS);
    CancelMakes();
    hide CancelJob, WellLinked, JobAggregate, WrittenPaths, TaskWritten;
    var tr := Transition(TheIndex(Cancelled, GONE), [MEDIA], true);
    assert Apply(RECOVERED, CancelStep(1)) == Moved(RECOVERED, 1, tr);
    hide Apply;
    assert Get(RECOVERED.staged, 1) + [MEDIA] == [MEDIA];
    assert Moved(RECOVERED, 1, tr).staged == map[1 := [MEDIA]];
    assert Moved(RECOVERED, 1, tr).events == multiset{1};
  }

  lemma CancelMakes()
    ensures WellLinked(RECOVERED.ix) && CancelJob(RECOVERED.ix, 1) == Transition(TheIndex(Cancelled, GONE), [MEDIA], true)
  {
    OneJob(Queued, WAITS);
    OneJob(Queued, GONE);
    var tasks := CancelTasks(RECOVERED.ix.tasks, [1]);
    assert tasks == map[1 := GONE];
    assert RECOVERED.ix.(tasks := tasks) == TheIndex(Queued, GONE);
    assert Aggregate([Cancelled]) == Cancelled by { assert Cancelled in [Cancelled]; }
    assert TaskWritten(GONE) == [MEDIA];
    hide WrittenPaths, TaskWritten, Aggregate, JobAggregate, WellLinked, CancelTasks;
    var tr := TransitionJob(TheIndex(Queued, GONE), 1);
    assert tr.ix.jobs == map[1 := Job(Image, true, Cancelled, [1])];
  }

  /** The whole run: cancelled by the user, cleaned up, and still queued in the store file. */
  lemma CleanedUnsaved() returns (run: seq<State>, steps: seq<Step>)
    ensures IsRun(run, steps) && |run| == |steps| + 1 && run[0] == RECOVERED && run[|steps|] == DELETED
    ensures forall m :: 0 <= m < |steps| ==> steps[m] != EndSave(true)
  {
    hide Init, IsStep, WellLinked, IsRun;
    RecoveredOk();
    Cancels();
    assert WellLinked(CANCELLED.ix) by { OneJob(Cancelled, GONE); }
    assert CANCELLED.disk - {MEDIA} == map[];
    CleansUp(CANCELLED, TRYING, UNSAVED, DELETED, false);
    NewRun(RECOVERED);
    run, steps := [RECOVERED], [];
    run, steps := Then(run, steps, RECOVERED, CancelStep(1), CANCELLED);
    run, steps := Then(run, steps, CANCELLED, BeginSaveFor(1), TRYING);
    run, steps := Then(run, steps, TRYING, EndSave(false), UNSAVED);
    run, steps := Then(run, steps, UNSAVED, Delete(Removal(1, MEDIA, true), false), DELETED);
  }

  lemma StoreUnchanged()
    ensures DELETED.cleaned == {1} && DELETED.ix.jobs[1].status == Cancelled
    ensures Loaded(DELETED.stored) == TheIndex(Queued, WAITS) && WellLinked(TheIndex(Queued, WAITS))
  {
    OneJob(Queued, WAITS);
    assert Loaded(DELETED.stored).jobs == map[1 := Job(Image, true, Queued, [1])];
    assert Loaded(DELETED.stored).tasks == map[1 := WAITS];
  }

  /** The store's failure defeats the order "persist, then delete": the user cancelled the job, its file is
      deleted, and every next process downloads it again. */
  lemma CancelledComesBack(order: seq<JobId>, random: seq<seq<seq<Bytes>>>, s: State) returns (run: seq<State>, steps: seq<Step>)
    requires OrderOk(TheIndex(Queued, WAITS), order, random) && Walk(TheIndex(Queued, WAITS), order)
    requires Starts(TheIndex(Queued, WAITS), order, random, s)
    ensures IsRun(run, steps) && |run| == |steps| + 1 && run[|steps|] == DELETED
    ensures DELETED.ix.jobs[1].status == Cancelled && DELETED.cleaned == {1} && Loaded(DELETED.stored) == TheIndex(Queued, WAITS)
    ensures 1 in s.queue
  {
    hide IsRun, Sound, WellLinked, Loaded, Starts, Init, FromStore, DistinctTasks, OrderOk, Walk;
    RecoveredOk();
    StoreUnchanged();
    run, steps := CleanedUnsaved();
    assert TheIndex(Queued, WAITS).jobs[1].tasks == [1];
    NeverResumed(run, steps, |steps|, order, random, s, 1);
    assert !SavedSince(run, steps, |steps|, 1);
  }
}
