/** The remaining steps of the download manager keep its invariant. */
module DownloadSteps {
  import opened Utf8
  import opened Naming
  import opened DownloadCore
  import opened DownloadPaths
  import opened DownloadRun
  import opened DownloadSafety
  import opened DownloadInvariant

  // ----- job transitions -----

  /** A job's own status never matters to its workers. */
  lemma StatusIrrelevant(v: View, status: Status)
    requires v.Ok()
    ensures v.(job := v.job.(status := status)).Ok()
  {
  }

  /** Cancelling a leased task leaves its worker in a position it can handle. */
  lemma CancelledView(v: View)
    requires v.Ok()
    ensures v.(t := CancelledTask(v.t)).Ok()
  {
  }

  lemma TransitionLinks(ix: Index, j: JobId)
    requires WellLinked(ix) && j in ix.jobs
    ensures WellLinked(TransitionJob(ix, j).ix)
  {
  }

  /** The aggregate is "cancelled" or terminal exactly when the tasks say so. */
  lemma AggregateFacts(ix: Index, j: JobId)
    requires WellLinked(ix) && j in ix.jobs
    ensures forall t :: t in ix.jobs[j].tasks && ix.tasks[t].status.Cancelled? ==> JobAggregate(ix, j).Cancelled?
    ensures JobAggregate(ix, j).IsTerminal() && !JobAggregate(ix, j).Cancelled? ==> AllTerminal(ix, ix.jobs[j].tasks)
  {
    var ids := ix.jobs[j].tasks;
    var st := Statuses(ix.tasks, ids);
    if ids != [] {
      AggregateMeaning(st);
    }
    forall t | t in ids ensures ix.tasks[t].status in st {
      var i :| 0 <= i < |ids| && ids[i] == t;
      assert st[i] == ix.tasks[t].status;
    }
  }

  /** What both transitions of a job share: the worker map only loses idle holders, tasks move
      forward, and the status of `j` becomes the aggregate. */
  ghost predicate Shifts(s: State, s': State, j: JobId) {
    && WellLinked(s.ix) && WellLinked(s'.ix) && j in s.ix.jobs && j in s'.ix.jobs
    && s'.ix.jobs == s.ix.jobs[j := s.ix.jobs[j].(status := JobAggregate(s'.ix, j))]
    && s'.ix.listed == s.ix.listed && s'.ix.tasks.Keys == s.ix.tasks.Keys
    && (forall t :: t in s.ix.tasks && s.ix.tasks[t].job != j ==> s'.ix.tasks[t] == s.ix.tasks[t])
    && (forall t :: t in s.ix.tasks && s.ix.tasks[t].job == j ==>
          s'.ix.tasks[t] == s.ix.tasks[t] || s'.ix.tasks[t] == CancelledTask(s.ix.tasks[t]))
    && (s.ix.jobs[j].status.IsTerminal() ==> s'.ix.jobs[j].status == s.ix.jobs[j].status && s'.ix.tasks == s.ix.tasks)
    && AllOver(s'.ix, j)
  }

  predicate AllOver(ix: Index, j: JobId)
    requires j in ix.jobs
  {
    ix.jobs[j].status.IsTerminal() ==> AllTerminal(ix, ix.jobs[j].tasks)
  }

  lemma ShiftTasks(s: State, s': State, j: JobId)
    requires Shifts(s, s', j) && TasksOk(s)
    requires forall t :: t in s'.ix.tasks && s'.ix.tasks[t].status.Running? ==> Held(s, t) ==> Held(s', t)
    ensures TasksOk(s')
  {
    hide WellLinked, Held, JobAggregate;
    LinkedJob(s.ix);
    AggregateFacts(s'.ix, j);
    forall t | t in s'.ix.tasks ensures TaskOk(s', t) {
      assert TaskOk(s, t);
      if s'.ix.tasks[t].job == j {
        assert s'.ix.tasks[t].status.Cancelled? ==> JobAggregate(s'.ix, j).Cancelled?;
      }
    }
  }

  lemma LinkedJob(ix: Index)
    requires WellLinked(ix)
    ensures forall t :: t in ix.tasks ==> ix.tasks[t].job in ix.jobs && t in ix.jobs[ix.tasks[t].job].tasks
  {
  }

  lemma ShiftJobs(s: State, s': State, j: JobId)
    requires Shifts(s, s', j) && JobsOk(s)
    requires forall w, t :: t in s.ix.tasks && s.ix.tasks[t].job != j ==> (Holds(s, w, t) ==> Holds(s', w, t))
    ensures JobsOk(s')
  {
    hide JobAggregate, Holds;
    forall i | i in s'.ix.jobs ensures JobOk(s', i) {
      if i != j {
        assert JobOk(s, i);
        SameStatuses(s.ix, s'.ix, i);
        if Engaged(s, i) {
          var v, u :| Holds(s, v, u) && u in s.ix.tasks && s.ix.tasks[u].job == i;
          assert Holds(s', v, u);
        }
      }
    }
  }

  /** Staging the cleanup of a job that just died accounts for every file its tasks recorded. */
  lemma ShiftFile(s: State, s': State, j: JobId, t: TaskId, p: Path)
    requires Shifts(s, s', j) && FileOk(s, t, p) && p != []
    requires s'.pending == s.pending && s'.saving == s.saving && s'.stuck == s.stuck && s'.unread == s.unread
    requires forall i, q :: q in Get(s.staged, i) ==> q in Get(s'.staged, i)
    requires s'.ix.jobs[j].Dead() && !s.ix.jobs[j].Dead() ==>
      forall u, q :: u in s'.ix.jobs[j].tasks && Recorded(s'.ix.tasks[u], q) ==> q in Get(s'.staged, j)
    requires forall w :: Holds(s, w, t) && !s.workers[w].stage.Report? ==> Holds(s', w, t) && s'.workers[w] == s.workers[w]
    ensures FileOk(s', t, p)
  {
    hide Get, JobAggregate, WellLinked;
    var a, b := s.ix.tasks[t], s'.ix.tasks[t];
    SameFiles(a, b, p);
    if FlownBy(s, t, p) {
      FlightKept(s, s', t, p);
    } else if !s.ix.jobs[a.job].Dead() && Recorded(a, p) {
      LinkedJob(s'.ix);
      hide Recorded, FlownBy, Owed;
      if s'.ix.jobs[b.job].Dead() {
        assert a.job == j && p in Get(s'.staged, j);
        OwedByStaging(s', j, p);
      }
    }
  }

  lemma SameFiles(a: Task, b: Task, p: Path)
    requires b == a || b == CancelledTask(a)
    ensures Recorded(a, p) <==> Recorded(b, p)
    ensures a.job == b.job && a.filePath == b.filePath && a.metadataPath == b.metadataPath
  {
  }

  lemma FlightKept(s: State, s': State, t: TaskId, p: Path)
    requires t in s.ix.tasks && t in s'.ix.tasks && FlownBy(s, t, p)
    requires s.ix.tasks[t].filePath == s'.ix.tasks[t].filePath && s.ix.tasks[t].metadataPath == s'.ix.tasks[t].metadataPath
    requires forall w :: Holds(s, w, t) && !s.workers[w].stage.Report? ==> Holds(s', w, t) && s'.workers[w] == s.workers[w]
    ensures FlownBy(s', t, p)
  {
    var w :| Holds(s, w, t) && InFlight(s.workers[w].stage, s.ix.tasks[t], p);
    assert InFlight(s'.workers[w].stage, s'.ix.tasks[t], p);
  }

  lemma OwedByStaging(s: State, j: JobId, p: Path)
    requires p in Get(s.staged, j)
    ensures Owed(s, j, p)
  {
  }

  /** Terminal jobs stay as they are, so events and cleanup bookkeeping carry over. */
  lemma ShiftBooks(s: State, s': State, j: JobId)
    requires Shifts(s, s', j) && Events(s) && Store(s)
    requires s'.pending == s.pending && s'.cleaned == s.cleaned && s'.saving == s.saving
    requires forall i :: i != j ==> Get(s'.staged, i) == Get(s.staged, i)
    requires Get(s'.staged, j) != [] ==> Get(s.staged, j) != [] || j in s'.events
    requires s'.events == if !s.ix.jobs[j].status.IsTerminal() && s'.ix.jobs[j].status.IsTerminal() then s.events + multiset{j} else s.events
    ensures Events(s') && Store(s')
  {
    hide Get, JobAggregate, WellLinked;
    assert forall i :: IsOver(s, i) ==> IsOver(s', i);
  }

  ghost predicate JobRecorded(ix: Index, j: JobId, q: Path) {
    j in ix.jobs && exists u :: u in ix.jobs[j].tasks && u in ix.tasks && Recorded(ix.tasks[u], q)
  }

  predicate Dies(s: State, s': State, j: JobId) {
    j in s.ix.jobs && j in s'.ix.jobs && !s.ix.jobs[j].Dead() && s'.ix.jobs[j].Dead()
  }

  /** The index part of a job transition, and which paths it returns for removal:
      exactly the recorded ones when the job has just failed or been cancelled, else none. */
  lemma TransitionIndex(ix: Index, j: JobId)
    requires WellLinked(ix) && j in ix.jobs
    ensures var r := TransitionJob(ix, j);
      && WellLinked(r.ix) && r.ix.tasks == ix.tasks && r.ix.listed == ix.listed
      && r.ix.jobs == ix.jobs[j := ix.jobs[j].(status := JobAggregate(r.ix, j))]
      && (r.changed <==> ix.jobs[j].status != r.ix.jobs[j].status)
      && (forall q :: q in r.cleanup <==> r.changed && r.ix.jobs[j].Dead() && JobRecorded(r.ix, j, q))
  {
    TransitionLinks(ix, j);
    var r := TransitionJob(ix, j);
    SameStatuses(ix, r.ix, j);
    hide JobAggregate, Recorded;
    assert r.changed && r.ix.jobs[j].Dead() ==> r.cleanup == WrittenPaths(r.ix.tasks, r.ix.jobs[j].tasks);
  }

  /** A section that recomputes job `j`: it stages cleanup and counts the event accordingly. */
  ghost predicate Reports(s: State, s': State, j: JobId) {
    && Shifts(s, s', j)
    && s'.disk == s.disk && s'.pending == s.pending && s'.stuck == s.stuck && s'.unread == s.unread
    && s'.written == s.written && s'.cleaned == s.cleaned && s'.stored == s.stored && s'.saving == s.saving && s'.shutdown == s.shutdown
    && s'.queue == s.queue
    && (forall i :: i != j ==> Get(s'.staged, i) == Get(s.staged, i))
    && (forall i :: i in s'.staged ==> i in s.staged || i == j)
    && (forall q :: q in Get(s'.staged, j) <==> q in Get(s.staged, j) || (Dies(s, s', j) && JobRecorded(s'.ix, j, q)))
    && s'.events == (if !s.ix.jobs[j].status.IsTerminal() && s'.ix.jobs[j].status.IsTerminal() then s.events + multiset{j} else s.events)
  }

  lemma ReportsFiles(s: State, s': State, j: JobId)
    requires Reports(s, s', j) && Files(s) && Deletions(s)
    requires forall w, t :: Holds(s, w, t) && !s.workers[w].stage.Report? ==> Holds(s', w, t) && s'.workers[w] == s.workers[w]
    ensures Files(s')
  {
    hide JobAggregate, WellLinked, FileOk;
    if Dies(s, s', j) {
      forall u, q | u in s'.ix.jobs[j].tasks && Recorded(s'.ix.tasks[u], q) ensures q in Get(s'.staged, j) {
        assert JobRecorded(s'.ix, j, q);
      }
    }
    forall p | p in s'.disk && s'.disk[p].By? ensures FileOk(s', s'.disk[p].task, p) {
      assert FileOk(s, s.disk[p].task, p);
      ShiftFile(s, s', j, s.disk[p].task, p);
    }
  }

  lemma ReportsDeletions(s: State, s': State, j: JobId)
    requires Reports(s, s', j) && Deletions(s)
    ensures Deletions(s')
  {
    hide JobAggregate;
    forall t, p | t in s'.ix.tasks && Recorded(s'.ix.tasks[t], p) ensures (s'.ix.tasks[t].job, p) in s'.written {
      SameFiles(s.ix.tasks[t], s'.ix.tasks[t], p);
    }
    forall i, p | i in s'.staged && p in s'.staged[i] ensures (i, p) in s'.written {
      assert p in Get(s'.staged, i);
      if p in Get(s.staged, i) {
        assert i in s.staged;
      } else {
        assert i == j;
        var u :| u in s'.ix.jobs[j].tasks && u in s'.ix.tasks && Recorded(s'.ix.tasks[u], p);
        assert s'.ix.tasks[u].job == j;
      }
    }
  }

  lemma ReportsBooks(s: State, s': State, j: JobId)
    requires Reports(s, s', j) && Events(s) && Store(s)
    ensures Events(s') && Store(s')
  {
    hide JobAggregate, WellLinked, Recorded;
    if Get(s'.staged, j) != [] {
      assert Get(s'.staged, j)[0] in Get(s'.staged, j);
      assert Get(s.staged, j) != [] || (Dies(s, s', j) && !s.ix.jobs[j].status.IsTerminal());
    }
    ShiftBooks(s, s', j);
  }

  // ----- Cancel -----

  lemma CancelShifts(s: State, j: JobId)
    requires TasksOk(s) && Enabled(s, CancelStep(j))
    ensures Shifts(s, Apply(s, CancelStep(j)), j)
  {
    hide JobAggregate, TransitionJob, Recorded, CancelTasks, CancelledTask, AllTerminal, JobRecorded, WrittenPaths, TaskOk;
    var ix1 := s.ix.(tasks := CancelTasks(s.ix.tasks, s.ix.jobs[j].tasks));
    CancelledIndex(s.ix, j);
    hide WellLinked;
    TransitionIndex(ix1, j);
    assert Apply(s, CancelStep(j)).ix == TransitionJob(ix1, j).ix;
    AllTerminalByTasks(ix1, TransitionJob(ix1, j).ix, s.ix.jobs[j].tasks);
  }

  lemma AllTerminalByTasks(a: Index, b: Index, ids: seq<TaskId>)
    requires a.tasks == b.tasks && AllTerminal(a, ids)
    ensures AllTerminal(b, ids)
  {
  }

  lemma CancelledIndex(ix: Index, j: JobId)
    requires WellLinked(ix) && j in ix.jobs
    ensures var ix1 := ix.(tasks := CancelTasks(ix.tasks, ix.jobs[j].tasks));
      && WellLinked(ix1) && AllTerminal(ix1, ix.jobs[j].tasks)
      && forall t :: t in ix.tasks ==> ix1.tasks[t] == if ix.tasks[t].job == j then CancelledTask(ix.tasks[t]) else ix.tasks[t]
  {
    CancelKeepsLinks(ix, j);
    assert forall t :: t in ix.tasks ==> (ix.tasks[t].job == j <==> t in ix.jobs[j].tasks);
  }

  lemma CancelReports(s: State, j: JobId)
    requires TasksOk(s) && Enabled(s, CancelStep(j))
    ensures Reports(s, Apply(s, CancelStep(j)), j)
  {
    hide JobAggregate, TransitionJob, Recorded, JobRecorded, Shifts;
    CancelShifts(s, j);
    var ix1 := s.ix.(tasks := CancelTasks(s.ix.tasks, s.ix.jobs[j].tasks));
    CancelKeepsLinks(s.ix, j);
    TransitionIndex(ix1, j);
    hide WellLinked;
    ReportsMoved(s, j, TransitionJob(ix1, j));
  }

  lemma ReportsMoved(s: State, j: JobId, tr: Transition)
    requires j in s.ix.jobs && j in tr.ix.jobs && Shifts(s, Moved(s, j, tr), j)
    requires tr.changed <==> s.ix.jobs[j].status != tr.ix.jobs[j].status
    requires forall q :: q in tr.cleanup <==> tr.changed && tr.ix.jobs[j].Dead() && JobRecorded(tr.ix, j, q)
    ensures Reports(s, Moved(s, j, tr), j)
  {
    hide JobRecorded, Recorded, WellLinked, JobAggregate;
    assert Get(Moved(s, j, tr).staged, j) == Get(s.staged, j) + tr.cleanup;
  }

  lemma ShiftView(s: State, s': State, j: JobId, w: WorkerId, t: TaskId)
    requires Shifts(s, s', j) && Placed?(s, w, t) && Placed?(s', w, t) && s'.workers[w] == s.workers[w]
    requires s'.disk == s.disk && s'.stuck == s.stuck && s'.unread == s.unread && s'.shutdown == s.shutdown
    requires ViewOf(s, w, t).Ok()
    ensures ViewOf(s', w, t).Ok()
  {
    hide JobAggregate, WellLinked, StageOk, StageMore, StageDisk;
    var v := ViewOf(s, w, t);
    CancelledView(v);
    var u := if s'.ix.tasks[t] == s.ix.tasks[t] then v else v.(t := CancelledTask(v.t));
    StatusIrrelevant(u, s'.ix.jobs[s'.ix.tasks[t].job].status);
    assert ViewOf(s', w, t) == u.(job := u.job.(status := s'.ix.jobs[s'.ix.tasks[t].job].status));
  }

  lemma ReportsKeep(s: State, s': State, j: JobId)
    requires Inv(s) && Reports(s, s', j)
    requires forall w, t :: Holds(s', w, t) ==> Holds(s, w, t) && s'.workers[w] == s.workers[w]
    requires forall w, t :: Holds(s, w, t) && !s.workers[w].stage.Report? ==> Holds(s', w, t)
    requires forall w, t :: Holds(s, w, t) && t in s.ix.tasks && s.ix.tasks[t].job != j ==> Holds(s', w, t)
    requires forall t :: t in s'.ix.tasks && s'.ix.tasks[t].status.Running? && Held(s, t) ==> Held(s', t)
    ensures Inv(s')
  {
    hide JobAggregate, WellLinked;
    assert forall w, t :: Holds(s, w, t) && !s.workers[w].stage.Report? ==> Holds(s', w, t) && s'.workers[w] == s.workers[w];
    ReportsFiles(s, s', j);
    ReportsDeletions(s, s', j);
    ReportsBooks(s, s', j);
    ShiftTasks(s, s', j);
    ShiftJobs(s, s', j);
    ReportsWorkers(s, s', j);
  }

  lemma ReportsWorkers(s: State, s': State, j: JobId)
    requires Reports(s, s', j) && WorkersOk(s) && Tokens(s)
    requires forall w, t :: Holds(s', w, t) ==> Holds(s, w, t) && s'.workers[w] == s.workers[w]
    ensures WorkersOk(s') && Tokens(s')
  {
    hide JobAggregate, WellLinked;
    forall w, t | Holds(s', w, t) ensures Placed?(s', w, t) && ViewOf(s', w, t).Ok() {
      assert Holds(s, w, t) && Placed?(s, w, t);
      ShiftView(s, s', j, w, t);
    }
  }

  lemma CancelKeeps(s: State, j: JobId)
    requires Inv(s) && Enabled(s, CancelStep(j))
    ensures Inv(Apply(s, CancelStep(j)))
  {
    var s' := Apply(s, CancelStep(j));
    CancelReports(s, j);
    hide JobAggregate, WellLinked, CancelJob, Reports, Inv;
    assert s'.workers == s.workers;
    assert forall w, t :: Holds(s', w, t) <==> Holds(s, w, t);
    assert forall t :: Held(s, t) ==> Held(s', t);
    ReportsKeep(s, s', j);
  }

  // ----- the end of executeTask -----

  /** Once its tasks say so a job is over for good, and never before. */
  lemma OverByAggregate(s: State, j: JobId)
    requires TasksOk(s) && JobsOk(s) && j in s.ix.jobs
    ensures JobAggregate(s.ix, j).IsTerminal() ==> AllTerminal(s.ix, s.ix.jobs[j].tasks)
    ensures s.ix.jobs[j].status.IsTerminal() ==> s.ix.jobs[j].status == JobAggregate(s.ix, j)
  {
    assert JobOk(s, j);
    AggregateFacts(s.ix, j);
    hide JobAggregate, TaskOk, WellLinked;
    if JobAggregate(s.ix, j).Cancelled? {
      CancelledSomewhere(s, j);
    }
  }

  lemma TransitionShifts(s: State, j: JobId)
    requires WellLinked(s.ix) && j in s.ix.jobs
    requires JobAggregate(s.ix, j).IsTerminal() ==> AllTerminal(s.ix, s.ix.jobs[j].tasks)
    requires s.ix.jobs[j].status.IsTerminal() ==> s.ix.jobs[j].status == JobAggregate(s.ix, j)
    ensures Shifts(s, Moved(s, j, TransitionJob(s.ix, j)), j)
  {
    TransitionIndex(s.ix, j);
    var tr := TransitionJob(s.ix, j);
    SameStatuses(s.ix, tr.ix, j);
    hide TransitionJob, Recorded, WellLinked, JobAggregate, AllTerminal, JobRecorded, WrittenPaths;
    if tr.ix.jobs[j].status.IsTerminal() {
      AllTerminalByTasks(s.ix, tr.ix, s.ix.jobs[j].tasks);
    }
  }

  /** A job whose aggregate is "cancelled" was already marked cancelled by the caller of Cancel. */
  lemma CancelledSomewhere(s: State, j: JobId)
    requires TasksOk(s) && JobsOk(s) && j in s.ix.jobs && JobAggregate(s.ix, j).Cancelled?
    ensures s.ix.jobs[j].status.Cancelled? && AllTerminal(s.ix, s.ix.jobs[j].tasks)
  {
    var ids := s.ix.jobs[j].tasks;
    var st := Statuses(s.ix.tasks, ids);
    AggregateMeaning(st);
    var i :| 0 <= i < |st| && st[i] == Cancelled;
    assert TaskOk(s, ids[i]);
    assert JobOk(s, j);
  }

  lemma TransitionReports(s: State, j: JobId)
    requires TasksOk(s) && JobsOk(s) && j in s.ix.jobs
    ensures Reports(s, Moved(s, j, TransitionJob(s.ix, j)), j)
  {
    OverByAggregate(s, j);
    assert WellLinked(s.ix);
    hide JobAggregate, TransitionJob, Recorded, JobRecorded, Shifts, WellLinked, TasksOk, JobsOk, AllTerminal;
    TransitionShifts(s, j);
    TransitionIndex(s.ix, j);
    ReportsMoved(s, j, TransitionJob(s.ix, j));
  }

  lemma ReportsWorkerless(s: State, m: State, s': State, j: JobId)
    requires Reports(s, m, j) && s' == m.(workers := s'.workers)
    ensures Reports(s, s', j)
  {
    hide JobAggregate, WellLinked, JobRecorded;
  }

  lemma ReportKeeps(s: State, w: WorkerId)
    requires Inv(s) && Enabled(s, ReportStep(w))
    ensures Inv(Apply(s, ReportStep(w)))
  {
    var t := s.workers[w].task;
    ReporterDone(s, w);
    assert Tokens(s) && TasksOk(s) && JobsOk(s);
    LeaveKeeps(s, w, t);
  }

  lemma LeaveKeeps(s: State, w: WorkerId, t: TaskId)
    requires Inv(s) && Placed?(s, w, t) && s.workers[w].stage.Report? && !s.ix.tasks[t].status.Running?
    ensures var j := s.ix.tasks[t].job;
      Inv(Moved(s, j, TransitionJob(s.ix, j)).(workers := s.workers[w := Idle]))
  {
    var j := s.ix.tasks[t].job;
    var m := Moved(s, j, TransitionJob(s.ix, j));
    var s' := m.(workers := s.workers[w := Idle]);
    TransitionReports(s, j);
    ReportsWorkerless(s, m, s', j);
    TransitionIndex(s.ix, j);
    assert s'.ix.tasks == s.ix.tasks;
    LeftAlone(s, s', w, t);
    hide JobAggregate, WellLinked, TransitionJob, Reports, Inv, JobRecorded, Moved, Holds, Held;
    ReportsKeep(s, s', j);
  }

  /** When the holder of a task that is not running leaves, every other holder stays. */
  lemma LeftAlone(s: State, s': State, w: WorkerId, t: TaskId)
    requires Tokens(s) && Placed?(s, w, t) && s.workers[w].stage.Report? && !s.ix.tasks[t].status.Running?
    requires s'.workers == s.workers[w := Idle] && s'.ix.tasks == s.ix.tasks
    ensures forall v, u :: Holds(s', v, u) ==> Holds(s, v, u) && s'.workers[v] == s.workers[v]
    ensures forall v, u :: Holds(s, v, u) && !s.workers[v].stage.Report? ==> Holds(s', v, u)
    ensures forall v, u :: Holds(s, v, u) && u in s.ix.tasks && s.ix.tasks[u].job != s.ix.tasks[t].job ==> Holds(s', v, u)
    ensures forall u :: u in s'.ix.tasks && s'.ix.tasks[u].status.Running? && Held(s, u) ==> Held(s', u)
  {
    forall u | u in s'.ix.tasks && s'.ix.tasks[u].status.Running? && Held(s, u) ensures Held(s', u) {
      var v :| Holds(s, v, u);
      assert Holds(s', v, u);
    }
  }

  lemma ReporterDone(s: State, w: WorkerId)
    requires WorkersOk(s) && Enabled(s, ReportStep(w))
    ensures !s.ix.tasks[s.workers[w].task].status.Running?
  {
    assert Holds(s, w, s.workers[w].task);
    assert ViewOf(s, w, s.workers[w].task).Ok();
  }
}
