/** Saving the store can fail, and the manager goes on regardless: when cleanup still cannot bring a job back,
    and when it does. */
module DownloadSaves {
  import opened Utf8
  import opened Naming
  import opened DownloadCore
  import opened DownloadPaths
  import opened DownloadRun
  import opened DownloadInvariant
  import opened DownloadSteps
  import opened DownloadRuns
  import opened DownloadRecovery
  import opened DownloadRestart

  /** The index shows every task of the job as finished. */
  predicate Done(ix: Index, j: JobId) { j in ix.jobs && AllTerminal(ix, ix.jobs[j].tasks) }

  /** A save that took its copy when the job was finished has succeeded. */
  ghost predicate SavedSince(run: seq<State>, steps: seq<Step>, i: nat, j: JobId)
    requires i <= |steps| < |run|
  {
    exists m :: 0 <= m < i && steps[m] == EndSave(true) && run[m].saving.Saving? && Done(run[m].saving.ix, j)
  }

  /** The run began from what its store file holds. */
  ghost predicate FromStore(s: State) {
    forall j :: j in s.stored.listed && j in s.stored.jobs ==>
      && j in s.ix.jobs && s.ix.jobs[j].tasks == s.stored.jobs[j].tasks
      && (Done(s.stored, j) && s.stored.jobs[j].tasks != [] ==> IsOver(s, j))
  }

  lemma StartsFromStore(ix: Index, order: seq<JobId>, random: seq<seq<seq<Bytes>>>, s: State)
    requires Sound(ix) && ix.listed == ix.jobs.Keys && OrderOk(ix, order, random) && Walk(ix, order) && Starts(ix, order, random, s)
    ensures FromStore(s)
  {
    RecoveredInit(ix, order, random, s);
    RecoverLinks(ix, order, s.disk.Keys, random);
    assert s.ix.jobs == RecoverJobs(ix) && s.ix.tasks == RecoverTasks(ix, order, s.disk.Keys, random) && Loaded(s.stored) == ix;
    hide RecoverTasks, Enqueued, Starts, Init;
    forall j | j in s.stored.listed && j in s.stored.jobs
      ensures j in s.ix.jobs && s.ix.jobs[j].tasks == s.stored.jobs[j].tasks
      ensures Done(s.stored, j) && s.stored.jobs[j].tasks != [] ==> IsOver(s, j)
    {
      assert j in ix.jobs && ix.jobs[j].tasks == s.stored.jobs[j].tasks;
      if Done(s.stored, j) && s.stored.jobs[j].tasks != [] {
        assert AllTerminal(ix, ix.jobs[j].tasks) by { LoadedDone(s.stored, j); }
        hide Loaded, WellLinked, Sound;
        RecoveredOver(ix, j);
      }
    }
  }

  lemma LoadedDone(stored: Index, j: JobId)
    requires Done(stored, j) && j in stored.listed && WellLinked(Loaded(stored))
    ensures AllTerminal(Loaded(stored), stored.jobs[j].tasks)
  {
    assert j in Loaded(stored).jobs;
    LinkedTasks(Loaded(stored), j);
  }

  lemma RecoveredOver(ix: Index, j: JobId)
    requires WellLinked(ix) && Done(ix, j) && ix.jobs[j].tasks != []
    ensures RecoverJobs(ix)[j].status.IsTerminal()
  {
    LinkedTasks(ix, j);
    var ids := ix.jobs[j].tasks;
    var st := StatusesOf(RestAll(ix.tasks, ids));
    hide WellLinked;
    AggregateMeaning(st);
    forall x | x in st ensures x.IsTerminal() {
      var i :| 0 <= i < |st| && st[i] == x;
      assert ids[i] in ids;
    }
  }

  // ----- finished stays finished -----

  lemma DoneStep(a: Index, b: Index, j: JobId)
    requires Advances(a, b) && ListsStay(a, b) && Done(a, j)
    ensures Done(b, j)
  {
  }

  lemma {:induction false} DoneStays(run: seq<State>, steps: seq<Step>, k: nat, i: nat, j: JobId)
    requires IsRun(run, steps) && k <= i < |run| && DistinctTasks(run[0].ix) && Sound(run[0].stored) && Done(run[k].ix, j)
    ensures Done(run[i].ix, j) && run[i].ix.jobs[j].tasks == run[k].ix.jobs[j].tasks
    decreases i
  {
    hide Inv, WellLinked, Enabled, Apply, IsRun, Done, Sound, DistinctTasks, Advances, OverStays, ListsStay;
    if k < i {
      RunLength(run, steps);
      DoneStays(run, steps, k, i - 1, j);
      TasksStay(run, steps, i - 1);
      TerminalIsFinal(run, steps, i - 1, i);
      DoneStep(run[i - 1].ix, run[i].ix, j);
      SameTasks(run[i - 1].ix, run[i].ix, j);
    }
  }

  lemma SameTasks(a: Index, b: Index, j: JobId)
    requires ListsStay(a, b) && Done(a, j)
    ensures j in b.jobs && j in a.jobs && b.jobs[j].tasks == a.jobs[j].tasks
  {
  }

  lemma TasksStay(run: seq<State>, steps: seq<Step>, i: nat)
    requires IsRun(run, steps) && i < |steps| && DistinctTasks(run[0].ix) && Sound(run[0].stored)
    ensures |run| == |steps| + 1 && ListsStay(run[i].ix, run[i + 1].ix)
  {
    hide Inv, WellLinked, Enabled, Apply, IsRun, Sound, DistinctTasks, ListsStay;
    RunLength(run, steps);
    StoredSound(run, steps, i);
    RunKeeps(run, steps, i);
    RunStep(run, steps, i);
    DistinctStays(run[i], steps[i]);
  }

  lemma StoreMoves(run: seq<State>, steps: seq<Step>, i: nat)
    requires IsRun(run, steps) && i < |steps|
    ensures |run| == |steps| + 1
    ensures run[i + 1].stored == if steps[i] == EndSave(true) then run[i].saving.ix else run[i].stored
    ensures run[i + 1].saving == run[i].saving || run[i + 1].saving.NoSave? || run[i + 1].saving.ix == run[i].ix
    ensures steps[i].EndSave? ==> run[i].saving.Saving? && run[i + 1].saving.NoSave?
  {
    hide Inv, WellLinked, Enabled, Apply, IsRun;
    RunLength(run, steps);
    RunKeeps(run, steps, i);
    RunStep(run, steps, i);
    StoreStep(run[i], steps[i]);
  }

  /** The copy a save works on was the index at a moment after every earlier save had ended. */
  lemma {:induction false} Taken(run: seq<State>, steps: seq<Step>, i: nat) returns (b: nat)
    requires IsRun(run, steps) && i < |run| && run[i].saving.Saving?
    ensures |run| == |steps| + 1 && b <= i && run[i].saving.ix == run[b].ix
    ensures forall m :: b <= m < i ==> !steps[m].EndSave?
  {
    hide Inv, WellLinked, IsRun;
    RunLength(run, steps);
    if i == 0 {
      NothingSaved(run, steps);
      assert false;
    } else {
      StoreMoves(run, steps, i - 1);
      if run[i].saving == run[i - 1].saving {
        b := Taken(run, steps, i - 1);
      } else {
        b := i - 1;
      }
    }
  }

  // ----- what the store shows -----

  /** A save since the job was finished has succeeded exactly when the store shows it, unless the file is
      still the one the process started from. */
  lemma {:induction false} StoreShows(run: seq<State>, steps: seq<Step>, i: nat, j: JobId)
    requires IsRun(run, steps) && i < |run| && DistinctTasks(run[0].ix) && Sound(run[0].stored)
    ensures |run| == |steps| + 1
    ensures SavedSince(run, steps, i, j) ==> Done(run[i].stored, j)
    ensures Done(run[i].stored, j) ==> SavedSince(run, steps, i, j) || run[i].stored == run[0].stored
  {
    hide IsRun, Done, Sound, DistinctTasks;
    RunLength(run, steps);
    if i > 0 {
      StoreMoves(run, steps, i - 1);
      StoreShows(run, steps, i - 1, j);
      if steps[i - 1] == EndSave(true) {
        assert Done(run[i].stored, j) ==> Done(run[i - 1].saving.ix, j) && run[i - 1].saving.Saving?;
        if SavedSince(run, steps, i, j) {
          LaterCopy(run, steps, i - 1, j);
        }
      }
    }
  }

  /** The copy of the latest save shows what an earlier one showed as finished. */
  lemma LaterCopy(run: seq<State>, steps: seq<Step>, i: nat, j: JobId)
    requires IsRun(run, steps) && |run| == |steps| + 1 && i < |steps| && DistinctTasks(run[0].ix) && Sound(run[0].stored)
    requires run[i].saving.Saving? && SavedSince(run, steps, i + 1, j)
    ensures Done(run[i].saving.ix, j)
  {
    hide IsRun, Done, Sound, DistinctTasks;
    var m :| 0 <= m < i + 1 && steps[m] == EndSave(true) && run[m].saving.Saving? && Done(run[m].saving.ix, j);
    if m < i {
      var a := Taken(run, steps, m);
      var b := Taken(run, steps, i);
      DoneStays(run, steps, a, b, j);
    }
  }

  /** A job that became terminal in this run and that the store knows is shown there as finished if and
      only if a save has succeeded since it was finished. */
  lemma SavedExactly(run: seq<State>, steps: seq<Step>, i: nat, j: JobId)
    requires IsRun(run, steps) && i < |run| && DistinctTasks(run[0].ix) && Sound(run[0].stored) && FromStore(run[0])
    requires j in run[i].events && j in run[i].stored.listed
    ensures |run| == |steps| + 1 && j in run[i].stored.jobs
    ensures Done(run[i].stored, j) <==> SavedSince(run, steps, i, j)
  {
    StoreShows(run, steps, i, j);
    OneTerminalEvent(run, steps, i, j);
    StoredSound(run, steps, i);
    assert WellLinked(run[i].stored);
    if Done(run[i].stored, j) && run[i].stored == run[0].stored {
      RunKeeps(run, steps, 0);
      OverHasTasks(run, steps, i, j);
    }
  }

  lemma OverHasTasks(run: seq<State>, steps: seq<Step>, i: nat, j: JobId)
    requires IsRun(run, steps) && i < |run| && DistinctTasks(run[0].ix) && Sound(run[0].stored)
    requires IsOver(run[i], j) && j in run[0].ix.jobs
    ensures run[0].ix.jobs[j].tasks != []
  {
    hide Inv, WellLinked, Sound, DistinctTasks, IsRun;
    ListsFromStart(run, steps, i, j);
    RunKeeps(run, steps, i);
    OverTasks(run[i], j);
  }

  lemma {:induction false} ListsFromStart(run: seq<State>, steps: seq<Step>, i: nat, j: JobId)
    requires IsRun(run, steps) && i < |run| && DistinctTasks(run[0].ix) && Sound(run[0].stored) && j in run[0].ix.jobs
    ensures j in run[i].ix.jobs && run[i].ix.jobs[j].tasks == run[0].ix.jobs[j].tasks
  {
    hide IsRun, Sound, DistinctTasks;
    RunLength(run, steps);
    if i > 0 {
      ListsFromStart(run, steps, i - 1, j);
      TasksStay(run, steps, i - 1);
    }
  }

  lemma OverTasks(s: State, j: JobId)
    requires Inv(s) && IsOver(s, j)
    ensures s.ix.jobs[j].tasks != []
  {
    assert JobOk(s, j);
    NoTasksQueued(s.ix, j);
  }

  lemma NoTasksQueued(ix: Index, j: JobId)
    requires WellLinked(ix) && j in ix.jobs
    ensures ix.jobs[j].tasks == [] ==> JobAggregate(ix, j) == Queued
  {
    assert ix.jobs[j].tasks == [] ==> Statuses(ix.tasks, ix.jobs[j].tasks) == [];
  }

  // ----- cleanup follows a save -----

  /** A save that began once the job was finished has been tried. */
  ghost predicate TriedSince(run: seq<State>, steps: seq<Step>, i: nat, j: JobId)
    requires i <= |steps| < |run|
  {
    exists m :: 0 <= m < i && steps[m].EndSave? && run[m].saving.Saving? && Done(run[m].saving.ix, j)
  }

  /** The save a cleanup waits for began when its job was finished. */
  ghost predicate WaitsDone(s: State) { s.saving.Saving? && s.saving.paths != [] ==> Done(s.saving.ix, s.saving.job) }

  lemma StagedDone(s: State, j: JobId)
    requires Inv(s) && j in s.staged && s.staged[j] != []
    ensures Done(s.ix, j)
  {
    assert Get(s.staged, j) != [];
    hide JobAggregate, WellLinked;
    assert IsOver(s, j) && JobOk(s, j);
  }

  lemma WaitStep(s: State, step: Step)
    requires Inv(s) && WellLinked(s.ix) && Enabled(s, step) && WaitsDone(s)
    ensures WaitsDone(Apply(s, step))
    ensures var s' := Apply(s, step);
      forall r :: r in s'.pending && r.cleanup ==>
        r in s.pending || (step.EndSave? && s.saving.Saving? && s.saving.paths != [] && r.job == s.saving.job)
    ensures var s' := Apply(s, step);
      forall j :: j in s'.cleaned ==> j in s.cleaned || (step.Delete? && step.r in s.pending && step.r.cleanup && step.r.job == j)
  {
    hide Tokens, WorkersOk, TasksOk, Files, Deletions, Act, TransitionJob, CancelJob, Submitted, WithTasks, Aggregate, JobAggregate;
    if step.BeginSaveFor? && s.staged[step.j] != [] {
      StagedDone(s, step.j);
    }
    hide JobsOk, WellLinked, Events, Store;
  }

  /** Every cleanup removal comes after an attempt to save the job as finished. */
  lemma {:induction false} CleanupAfterPersist(run: seq<State>, steps: seq<Step>, i: nat)
    requires IsRun(run, steps) && i < |run|
    ensures |run| == |steps| + 1 && WaitsDone(run[i])
    ensures forall r :: r in run[i].pending && r.cleanup ==> TriedSince(run, steps, i, r.job)
    ensures forall j :: j in run[i].cleaned ==> TriedSince(run, steps, i, j)
  {
    hide Inv, WellLinked, IsRun, TriedSince, Done;
    RunLength(run, steps);
    if i == 0 {
      RunStart(run, steps);
    } else {
      CleanupAfterPersist(run, steps, i - 1);
      CleanupMoves(run, steps, i - 1);
      TriedStays(run, steps, i);
      hide WaitsDone;
      forall r | r in run[i].pending && r.cleanup ensures TriedSince(run, steps, i, r.job) {
        if r in run[i - 1].pending {
          assert TriedSince(run, steps, i - 1, r.job);
        }
      }
    }
  }

  lemma CleanupMoves(run: seq<State>, steps: seq<Step>, i: nat)
    requires IsRun(run, steps) && i < |steps| && i < |run| && WaitsDone(run[i])
    ensures i + 1 < |run| && WaitsDone(run[i + 1])
    ensures forall r :: r in run[i + 1].pending && r.cleanup ==>
      r in run[i].pending || (steps[i].EndSave? && run[i].saving.Saving? && Done(run[i].saving.ix, r.job) && r.job == run[i].saving.job)
    ensures forall j :: j in run[i + 1].cleaned ==> j in run[i].cleaned || exists r :: r in run[i].pending && r.cleanup && r.job == j
  {
    hide Inv, WellLinked, Enabled, Apply, IsRun, Done;
    RunLength(run, steps);
    RunKeeps(run, steps, i);
    RunStep(run, steps, i);
    WaitStep(run[i], steps[i]);
  }

  lemma TriedStays(run: seq<State>, steps: seq<Step>, i: nat)
    requires 0 < i <= |steps| < |run|
    ensures forall j :: TriedSince(run, steps, i - 1, j) ==> TriedSince(run, steps, i, j)
    ensures steps[i - 1].EndSave? && run[i - 1].saving.Saving? && Done(run[i - 1].saving.ix, run[i - 1].saving.job)
      ==> TriedSince(run, steps, i, run[i - 1].saving.job)
  {
    hide Done;
  }

  // ----- what the next process does -----

  lemma CleanedOver(run: seq<State>, steps: seq<Step>, i: nat, j: JobId)
    requires IsRun(run, steps) && i < |run| && j in run[i].cleaned
    ensures IsOver(run[i], j) && j in run[i].events
  {
    hide Tokens, WorkersOk, TasksOk, JobsOk, Files, Deletions, WellLinked, Apply, IsRun;
    RunKeeps(run, steps, i);
  }

  /** Cleanup of a job has run and the process dies. If the store still knows the job, the next process
      enqueues none of its tasks and changes none if and only if a save has succeeded since the job was finished. */
  lemma NeverResumed(run: seq<State>, steps: seq<Step>, i: nat, order: seq<JobId>, random: seq<seq<seq<Bytes>>>, s: State, j: JobId)
    requires IsRun(run, steps) && i < |run| && DistinctTasks(run[0].ix) && Sound(run[0].stored) && FromStore(run[0])
    requires OrderOk(Loaded(run[i].stored), order, random) && Walk(Loaded(run[i].stored), order)
    requires Starts(Loaded(run[i].stored), order, random, s)
    requires j in run[i].cleaned && j in Loaded(run[i].stored).jobs
    ensures |run| == |steps| + 1
    ensures SavedSince(run, steps, i, j) <==> forall t :: t in Loaded(run[i].stored).jobs[j].tasks ==> t !in s.queue
    ensures SavedSince(run, steps, i, j) ==>
      forall t :: t in Loaded(run[i].stored).jobs[j].tasks ==> t in s.ix.tasks && s.ix.tasks[t] == Loaded(run[i].stored).tasks[t]
  {
    var stored := run[i].stored;
    CleanedOver(run, steps, i, j);
    StoredSound(run, steps, i);
    assert WellLinked(stored);
    LoadedSound(stored);
    hide IsRun;
    LoadedJob(stored, j);
    SavedExactly(run, steps, i, j);
    hide Sound, Loaded, WellLinked, FromStore;
    NextQueue(Loaded(stored), order, random, s, j);
  }

  lemma LoadedJob(stored: Index, j: JobId)
    requires WellLinked(stored) && j in Loaded(stored).jobs
    ensures j in stored.listed && WellLinked(Loaded(stored))
    ensures Done(stored, j) <==> Done(Loaded(stored), j)
  {
    LoadedLinks(stored);
    LinkedTasks(stored, j);
    LinkedTasks(Loaded(stored), j);
  }

  lemma NextQueue(ix: Index, order: seq<JobId>, random: seq<seq<seq<Bytes>>>, s: State, j: JobId)
    requires Sound(ix) && OrderOk(ix, order, random) && Walk(ix, order) && Starts(ix, order, random, s) && j in ix.jobs
    ensures Done(ix, j) <==> forall t :: t in ix.jobs[j].tasks ==> t !in s.queue
    ensures Done(ix, j) ==> forall t :: t in ix.jobs[j].tasks ==> t in s.ix.tasks && s.ix.tasks[t] == ix.tasks[t]
  {
    hide Loaded, WellLinked, RecoverTasks, Enqueued, AllTerminal, RestedFile, JobRecorded, Blank;
    LinkedTasks(ix, j);
    PlainLoaded(s.stored);
    assert Distinct(order) && (forall i :: i in order <==> i in ix.jobs) && s.queue == multiset(Enqueued(ix, order));
    assert s.ix.tasks == RecoverTasks(ix, order, s.disk.Keys, random) && StoredPlain(ix);
    hide Sound, Starts;
    forall t | t in ix.jobs[j].tasks
      ensures t in s.queue <==> !ix.tasks[t].status.IsTerminal()
      ensures ix.tasks[t].status.IsTerminal() ==> t in s.ix.tasks && s.ix.tasks[t] == ix.tasks[t]
    {
      RecoveredTask(ix, order, s.disk.Keys, random, t);
      EnqueuedOnce(ix, order, t);
    }
    QueueDone(ix, s, j);
  }

  lemma QueueDone(ix: Index, s: State, j: JobId)
    requires j in ix.jobs && forall t :: t in ix.jobs[j].tasks ==> t in ix.tasks && (t in s.queue <==> !ix.tasks[t].status.IsTerminal())
    ensures Done(ix, j) <==> forall t :: t in ix.jobs[j].tasks ==> t !in s.queue
  {
  }

  predicate StoredPlain(ix: Index) { forall t :: t in ix.tasks ==> !ix.tasks[t].armed && !ix.tasks[t].cancelled }

  lemma PlainLoaded(stored: Index)
    ensures StoredPlain(Loaded(stored))
  {
  }
}
