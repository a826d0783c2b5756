/** The invariant of a process run of the download manager, and its preservation by every step. */
module DownloadInvariant {
  import opened Utf8
  import opened Naming
  import opened Collision
  import opened DownloadCore
  import opened DownloadPaths
  import opened DownloadRun
  import opened DownloadSafety

  predicate Placed?(s: State, w: WorkerId, t: TaskId) {
    Holds(s, w, t) && t in s.ix.tasks && s.ix.tasks[t].job in s.ix.jobs
  }

  function ViewOf(s: State, w: WorkerId, t: TaskId): View
    requires Placed?(s, w, t)
  {
    View(s.ix.jobs[s.ix.tasks[t].job], t, s.ix.tasks[t], s.workers[w].stage, s.disk, s.shutdown, StuckOf(s, s.ix.tasks[t].job), t in s.unread)
  }

  ghost predicate Held(s: State, t: TaskId) { exists w :: Holds(s, w, t) }

  ghost predicate Engaged(s: State, j: JobId) {
    exists w, t :: Holds(s, w, t) && t in s.ix.tasks && s.ix.tasks[t].job == j
  }

  /** Each task is enqueued at most once and never while a worker has it; no two workers share one. */
  ghost predicate Tokens(s: State) {
    && (forall w, t :: Holds(s, w, t) ==> t !in s.queue && t in s.ix.tasks)
    && (forall w, v, t :: Holds(s, w, t) && Holds(s, v, t) ==> w == v)
    && (forall t :: t in s.queue ==> s.queue[t] == 1 && t in s.ix.tasks)
  }

  ghost predicate WorkersOk(s: State) {
    forall w, t :: Holds(s, w, t) ==> Placed?(s, w, t) && ViewOf(s, w, t).Ok()
  }

  ghost predicate TaskOk(s: State, t: TaskId)
    requires t in s.ix.tasks && s.ix.tasks[t].job in s.ix.jobs
  {
    var task := s.ix.tasks[t];
    && (task.status.Running? ==> Held(s, t))
    && (task.status.Cancelled? ==> s.ix.jobs[task.job].status.Cancelled?)
    && (task.cancelled ==> task.status.Cancelled?)
    && (!task.status.IsTerminal() ==> task.job in s.ix.listed)
  }

  ghost predicate TasksOk(s: State) {
    && WellLinked(s.ix)
    && forall t :: t in s.ix.tasks ==> TaskOk(s, t)
  }

  predicate AllTerminal(ix: Index, ids: seq<TaskId>) {
    forall t :: t in ids ==> t in ix.tasks && ix.tasks[t].status.IsTerminal()
  }

  /** A terminal job has only terminal tasks; a job no worker is engaged on shows its aggregate. */
  ghost predicate JobOk(s: State, j: JobId)
    requires WellLinked(s.ix) && j in s.ix.jobs
  {
    && (s.ix.jobs[j].status.IsTerminal() ==> AllTerminal(s.ix, s.ix.jobs[j].tasks))
    && (s.ix.jobs[j].status.IsTerminal() || !Engaged(s, j) ==> s.ix.jobs[j].status == JobAggregate(s.ix, j))
  }

  ghost predicate JobsOk(s: State)
    requires WellLinked(s.ix)
  {
    forall j :: j in s.ix.jobs ==> JobOk(s, j)
  }

  /** A save in progress has this cleanup waiting for it. */
  predicate AwaitsSave(saving: Saving, j: JobId, p: Path) {
    saving.Saving? && saving.job == j && p in saving.paths
  }

  predicate Owed(s: State, j: JobId, p: Path) {
    || p in Get(s.staged, j) || Removal(j, p, true) in s.pending || Removal(j, p, false) in s.pending
    || AwaitsSave(s.saving, j, p)
  }

  ghost predicate FlownBy(s: State, t: TaskId, p: Path)
    requires t in s.ix.tasks
  {
    exists w :: Holds(s, w, t) && InFlight(s.workers[w].stage, s.ix.tasks[t], p)
  }

  /** Why a file written by task `t` may exist. */
  ghost predicate FileOk(s: State, t: TaskId, p: Path) {
    && t in s.ix.tasks && s.ix.tasks[t].job in s.ix.jobs
    && var task := s.ix.tasks[t];
       || (!s.ix.jobs[task.job].Dead() && Recorded(task, p))
       || FlownBy(s, t, p)
       || Owed(s, task.job, p)
       || (task.job, p) in s.stuck
       || (t in s.unread && p == task.metadataPath)
  }

  ghost predicate Files(s: State) {
    && [] !in s.disk
    && forall p :: p in s.disk && s.disk[p].By? ==> FileOk(s, s.disk[p].task, p)
  }

  ghost predicate Deletions(s: State) {
    && (forall r :: r in s.pending ==> (r.job, r.path) in s.written)
    && (forall j, p :: j in s.staged && p in s.staged[j] ==> (j, p) in s.written)
    && (forall j: JobId, p :: AwaitsSave(s.saving, j, p) ==> (j, p) in s.written)
    && (forall t, p :: t in s.ix.tasks && Recorded(s.ix.tasks[t], p) ==> (s.ix.tasks[t].job, p) in s.written)
  }

  predicate IsOver(s: State, j: JobId) { j in s.ix.jobs && s.ix.jobs[j].status.IsTerminal() }

  ghost predicate Events(s: State) {
    forall j :: j in s.events ==> s.events[j] == 1 && IsOver(s, j)
  }

  /** Cleanup is decided only when a job becomes terminal, as its event is published. */
  ghost predicate Store(s: State) {
    && (forall j :: Get(s.staged, j) != [] ==> j in s.events)
    && (s.saving.Saving? && s.saving.paths != [] ==> s.saving.job in s.events)
    && (forall r :: r in s.pending && r.cleanup ==> r.job in s.events)
    && (forall j :: j in s.cleaned ==> j in s.events)
  }

  ghost predicate Inv(s: State) {
    Tokens(s) && WorkersOk(s) && TasksOk(s) && JobsOk(s) && Files(s) && Deletions(s) && Events(s) && Store(s)
  }

  // ----- a step of one worker -----

  lemma WorkTokens(s: State, w: WorkerId, t: TaskId, e: Effect)
    requires Tokens(s) && Placed?(s, w, t) && Keeps(ViewOf(s, w, t), e)
    ensures Tokens(Worked(s, w, e))
    ensures forall v, u :: Holds(Worked(s, w, e), v, u) <==> Holds(s, v, u)
  {
    hide Keeps;
    var s' := Worked(s, w, e);
    assert forall v, u :: Holds(s', v, u) <==> Holds(s, v, u);
  }

  lemma WorkLinks(s: State, w: WorkerId, t: TaskId, e: Effect)
    requires WellLinked(s.ix) && Placed?(s, w, t) && Keeps(ViewOf(s, w, t), e)
    ensures WellLinked(Worked(s, w, e).ix)
  {
  }

  /** Another worker's view survives: it loses at most files that are not its own. */
  lemma OtherView(v: View, disk: map<Path, Owner>, stuck: set<Path>)
    requires v.Ok() && v.stuck <= stuck && [] !in disk
    requires forall p :: Written(disk, p, v.id) ==> Written(v.disk, p, v.id)
    ensures v.(disk := disk, stuck := stuck).Ok()
  {
  }

  lemma WorkWorkers(s: State, w: WorkerId, t: TaskId, e: Effect)
    requires Tokens(s) && WorkersOk(s) && Placed?(s, w, t) && Keeps(ViewOf(s, w, t), e)
    ensures WorkersOk(Worked(s, w, e))
  {
    hide StageOk, StageMore, StageDisk;
    var s' := Worked(s, w, e);
    forall v, u | Holds(s', v, u) ensures Placed?(s', v, u) && ViewOf(s', v, u).Ok() {
      assert Holds(s, v, u);
      if v != w {
        assert u != t;
        forall p ensures Written(e.disk, p, u) ==> Written(s.disk, p, u) {
          assert OwnWrite(ViewOf(s, w, t), e, p);
        }
        var stuck := StuckOf(s', s.ix.tasks[u].job);
        OtherView(ViewOf(s, v, u), e.disk, stuck);
        assert ViewOf(s', v, u) == ViewOf(s, v, u).(disk := e.disk, stuck := stuck);
      } else {
        assert ViewOf(s', w, t) == ViewOf(s, w, t).Next(e);
      }
    }
  }

  lemma WorkTasks(s: State, w: WorkerId, t: TaskId, e: Effect)
    requires Tokens(s) && TasksOk(s) && WorkersOk(s) && Placed?(s, w, t) && Keeps(ViewOf(s, w, t), e)
    ensures TasksOk(Worked(s, w, e))
  {
    WorkTokens(s, w, t, e);
    WorkLinks(s, w, t, e);
    var s' := Worked(s, w, e);
    forall u | u in s'.ix.tasks ensures TaskOk(s', u) {
      assert TaskOk(s, u);
      if u == t {
        assert Holds(s', w, t);
      } else if s.ix.tasks[u].status.Running? {
        var v :| Holds(s, v, u);
        assert Holds(s', v, u);
      }
    }
  }

  /** Tasks only move forward: terminal ones keep their status. */
  ghost predicate Advances(a: Index, b: Index) {
    forall t :: t in a.tasks ==> t in b.tasks && (a.tasks[t].status.IsTerminal() ==> b.tasks[t].status == a.tasks[t].status)
  }

  lemma StillTerminal(a: Index, b: Index, ids: seq<TaskId>)
    requires Advances(a, b) && AllTerminal(a, ids)
    ensures AllTerminal(b, ids)
  {
  }

  lemma WorkJobs(s: State, w: WorkerId, t: TaskId, e: Effect)
    requires Tokens(s) && WellLinked(s.ix) && JobsOk(s) && Placed?(s, w, t) && Keeps(ViewOf(s, w, t), e)
    requires WellLinked(Worked(s, w, e).ix)
    ensures JobsOk(Worked(s, w, e))
  {
    WorkTokens(s, w, t, e);
    var s' := Worked(s, w, e);
    assert Advances(s.ix, s'.ix) && s'.ix.tasks[t].job == s.ix.tasks[t].job;
    hide Keeps, WellLinked, JobOk, Tokens, Advances;
    forall j | j in s'.ix.jobs ensures JobOk(s', j) {
      if j == s.ix.tasks[t].job {
        assert Holds(s', w, t);
        EngagedJob(s, s', j);
      } else {
        OtherJob(s, s', j, t);
      }
    }
  }

  lemma EngagedJob(s: State, s': State, j: JobId)
    requires WellLinked(s.ix) && WellLinked(s'.ix) && j in s.ix.jobs && s'.ix.jobs == s.ix.jobs
    requires Advances(s.ix, s'.ix) && JobOk(s, j) && Engaged(s', j)
    ensures JobOk(s', j)
  {
    hide JobAggregate, Advances;
    if s.ix.jobs[j].status.IsTerminal() {
      StillTerminal(s.ix, s'.ix, s.ix.jobs[j].tasks);
      TerminalAggregate(s.ix, s'.ix, j);
    }
  }

  lemma TerminalAggregate(a: Index, b: Index, j: JobId)
    requires WellLinked(a) && WellLinked(b) && j in a.jobs && j in b.jobs && a.jobs[j].tasks == b.jobs[j].tasks
    requires Advances(a, b) && AllTerminal(a, a.jobs[j].tasks)
    ensures JobAggregate(a, j) == JobAggregate(b, j)
  {
    SameStatuses(a, b, j);
  }

  /** A job none of whose tasks moved keeps its aggregate and its workers. */
  lemma OtherJob(s: State, s': State, j: JobId, t: TaskId)
    requires WellLinked(s.ix) && WellLinked(s'.ix) && j in s.ix.jobs && s'.ix.jobs == s.ix.jobs
    requires t in s.ix.tasks && s.ix.tasks[t].job != j
    requires s'.ix.tasks == s.ix.tasks[t := s'.ix.tasks[t]]
    requires forall v, u :: u != t && Holds(s, v, u) ==> Holds(s', v, u)
    requires JobOk(s, j)
    ensures JobOk(s', j)
  {
    assert t !in s.ix.jobs[j].tasks;
    hide JobAggregate, WellLinked;
    SameStatuses(s.ix, s'.ix, j);
    if Engaged(s, j) {
      var v, u :| Holds(s, v, u) && u in s.ix.tasks && s.ix.tasks[u].job == j;
      assert Holds(s', v, u);
    }
  }

  lemma SameStatuses(a: Index, b: Index, j: JobId)
    requires WellLinked(a) && WellLinked(b) && j in a.jobs && j in b.jobs && a.jobs[j].tasks == b.jobs[j].tasks
    requires forall t :: t in a.jobs[j].tasks ==> a.tasks[t].status == b.tasks[t].status
    ensures JobAggregate(a, j) == JobAggregate(b, j)
  {
    assert Statuses(a.tasks, a.jobs[j].tasks) == Statuses(b.tasks, b.jobs[j].tasks);
  }

  lemma WorkFiles(s: State, w: WorkerId, t: TaskId, e: Effect)
    requires Tokens(s) && TasksOk(s) && JobsOk(s) && Files(s) && Placed?(s, w, t) && Keeps(ViewOf(s, w, t), e)
    ensures Files(Worked(s, w, e))
  {
    var s' := Worked(s, w, e);
    WorkTokens(s, w, t, e);
    assert forall p :: OwnWrite(ViewOf(s, w, t), e, p);
    hide Keeps, TasksOk, JobsOk, FileOk, Tokens, Holds, FlownBy, Owed;
    forall p | p in s'.disk && s'.disk[p].By? ensures FileOk(s', s'.disk[p].task, p) {
      var u := s'.disk[p].task;
      assert OwnWrite(ViewOf(s, w, t), e, p);
      if u == t {
        OwnFile(s, w, t, e, p);
      } else {
        assert FileOk(s, u, p);
        WorkOther(s, w, t, e, u, p);
      }
    }
  }

  lemma WorkOther(s: State, w: WorkerId, t: TaskId, e: Effect, u: TaskId, p: Path)
    requires Placed?(s, w, t) && u != t && FileOk(s, u, p)
    ensures FileOk(Worked(s, w, e), u, p)
  {
    hide FileOk;
    var s' := Worked(s, w, e);
    assert u in s.ix.tasks by { FileOkTask(s, u, p); }
    assert forall v :: Holds(s, v, u) ==> v != w;
    OtherFile(s, s', u, p);
  }

  lemma FileOkTask(s: State, u: TaskId, p: Path)
    requires FileOk(s, u, p)
    ensures u in s.ix.tasks
  {
  }

  lemma OwnFile(s: State, w: WorkerId, t: TaskId, e: Effect, p: Path)
    requires Tokens(s) && TasksOk(s) && JobsOk(s) && Files(s) && Placed?(s, w, t) && Keeps(ViewOf(s, w, t), e)
    requires p != [] && Written(e.disk, p, t)
    ensures FileOk(Worked(s, w, e), t, p)
  {
    var s' := Worked(s, w, e);
    var v := ViewOf(s, w, t);
    var j := s.ix.tasks[t].job;
    var dead := s.ix.jobs[j].Dead();
    assert dead ==> AllTerminal(s.ix, s.ix.jobs[j].tasks);
    assert StaysExplained(v, e, dead, p);
    assert SameIdentity(e.task, v.t);
    hide Keeps, JobsOk, TasksOk, Files;
    if Written(s.disk, p, t) {
      OwnBefore(s, w, t, p);
    }
    OwnAfter(s, w, t, e, p);
  }

  lemma OwnBefore(s: State, w: WorkerId, t: TaskId, p: Path)
    requires Tokens(s) && Placed?(s, w, t) && FileOk(s, t, p)
    ensures ViewOf(s, w, t).Explained(s.ix.jobs[s.ix.tasks[t].job].Dead(), p) || Owed(s, s.ix.tasks[t].job, p)
  {
    hide Owed;
    if FlownBy(s, t, p) {
      OwnFlight(s, w, t, p);
    }
  }

  lemma OwnAfter(s: State, w: WorkerId, t: TaskId, e: Effect, p: Path)
    requires Placed?(s, w, t) && SameIdentity(e.task, s.ix.tasks[t])
    requires var j := s.ix.tasks[t].job;
      ViewOf(s, w, t).Next(e).Explained(s.ix.jobs[j].Dead(), p) || p in e.drop || Owed(s, j, p)
    ensures FileOk(Worked(s, w, e), t, p)
  {
    hide Recorded;
    var s' := Worked(s, w, e);
    var j := s.ix.tasks[t].job;
    assert Holds(s', w, t);
    if p in e.drop {
      assert Removal(j, p, false) in Removals(j, e.drop, false);
    }
    assert p in e.drop || Owed(s, j, p) ==> Owed(s', j, p);
  }

  lemma OwnFlight(s: State, w: WorkerId, t: TaskId, p: Path)
    requires Tokens(s) && Placed?(s, w, t) && FlownBy(s, t, p)
    ensures InFlight(s.workers[w].stage, s.ix.tasks[t], p)
  {
  }

  /** A file of a task that did not move stays explained while removals only accumulate. */
  lemma OtherFile(s: State, s': State, u: TaskId, p: Path)
    requires FileOk(s, u, p)
    requires u in s'.ix.tasks && s'.ix.tasks[u] == s.ix.tasks[u] && s'.ix.jobs == s.ix.jobs
    requires forall v :: Holds(s, v, u) ==> Holds(s', v, u) && s'.workers[v] == s.workers[v]
    requires Owed(s, s.ix.tasks[u].job, p) ==> Owed(s', s.ix.tasks[u].job, p)
    requires s.stuck <= s'.stuck && s.unread <= s'.unread
    ensures FileOk(s', u, p)
  {
    if FlownBy(s, u, p) {
      var v :| Holds(s, v, u) && InFlight(s.workers[v].stage, s.ix.tasks[u], p);
      assert Holds(s', v, u);
    }
  }

  lemma WorkDeletions(s: State, w: WorkerId, t: TaskId, e: Effect)
    requires Tokens(s) && TasksOk(s) && Deletions(s) && Placed?(s, w, t) && Keeps(ViewOf(s, w, t), e)
    ensures Deletions(Worked(s, w, e))
  {
    hide StageOk, StageMore, StageDisk;
    var s' := Worked(s, w, e);
    var v := ViewOf(s, w, t);
    var j := s.ix.tasks[t].job;
    forall p | p != [] && (Recorded(e.task, p) || p in e.drop) ensures (j, p) in s'.written {
      assert StaysRecorded(v, e, p);
    }
  }

  lemma WorkStore(s: State, w: WorkerId, t: TaskId, e: Effect)
    requires Store(s) && Events(s) && Placed?(s, w, t)
    ensures Store(Worked(s, w, e)) && Events(Worked(s, w, e))
  {
    var s' := Worked(s, w, e);
    assert forall j :: IsOver(s, j) <==> IsOver(s', j);
  }
}
