/** A submission keeps the invariant; the runs of the manager and what holds throughout them. */
module DownloadSubmission {
  import opened Utf8
  import opened Naming
  import opened DownloadCore
  import opened DownloadPaths
  import opened DownloadRun
  import opened DownloadSafety
  import opened DownloadInvariant

  predicate IsFreshTask(j: JobId, t: Task) {
    t.job == j && t.status.Queued? && !t.wroteFile && !t.wroteMetadata && !t.armed && !t.cancelled
  }

  /** What a submission adds: one queued job with its own unwritten, enqueued tasks. */
  ghost predicate Joins(s: State, s': State, j: JobId, job: Job) {
    && j !in s.ix.jobs && job.status.Queued? && job.tasks != []
    && s'.ix.jobs == s.ix.jobs[j := job] && s'.ix.listed == s.ix.listed + {j}
    && (forall t :: t in job.tasks ==> t !in s.ix.tasks && t in s'.ix.tasks && IsFreshTask(j, s'.ix.tasks[t]))
    && (forall t :: t in s.ix.tasks ==> t in s'.ix.tasks && s'.ix.tasks[t] == s.ix.tasks[t])
    && (forall t :: t in s'.ix.tasks ==> t in s.ix.tasks || t in job.tasks)
    && (forall t :: t in job.tasks ==> multiset(job.tasks)[t] == 1)
    && s' == s.(ix := s'.ix, queue := s.queue + multiset(job.tasks))
  }

  lemma {:induction false} WithTasksAt(tasks: map<TaskId, Task>, ids: seq<TaskId>, ts: seq<Task>)
    requires |ids| == |ts|
    requires forall i, k :: 0 <= i < k < |ids| ==> ids[i] != ids[k]
    ensures WithTasks(tasks, ids, ts).Keys == tasks.Keys + set t | t in ids
    ensures forall i :: 0 <= i < |ids| ==> ids[i] in WithTasks(tasks, ids, ts) && WithTasks(tasks, ids, ts)[ids[i]] == ts[i]
    ensures forall t :: t in tasks && t !in ids ==> t in WithTasks(tasks, ids, ts) && WithTasks(tasks, ids, ts)[t] == tasks[t]
  {
    if ids != [] {
      var n := |ids| - 1;
      var m := WithTasks(tasks, ids[..n], ts[..n]);
      WithTasksAt(tasks, ids[..n], ts[..n]);
      var r := WithTasks(tasks, ids, ts);
      assert r == m[ids[n] := ts[n]];
      hide WithTasks;
      assert ids == ids[..n] + [ids[n]] && ts == ts[..n] + [ts[n]];
      WithTasksStep(tasks, ids[..n], ts[..n], m, ids[n], ts[n]);
    }
  }

  lemma WithTasksStep(tasks: map<TaskId, Task>, front: seq<TaskId>, ts: seq<Task>, m: map<TaskId, Task>, id: TaskId, last: Task)
    requires |front| == |ts| && id !in front
    requires m.Keys == tasks.Keys + set t | t in front
    requires forall i :: 0 <= i < |front| ==> front[i] in m && m[front[i]] == ts[i]
    requires forall t :: t in tasks && t !in front ==> t in m && m[t] == tasks[t]
    ensures var r, ids := m[id := last], front + [id];
      && r.Keys == tasks.Keys + (set t | t in ids)
      && (forall i :: 0 <= i < |ids| ==> ids[i] in r && r[ids[i]] == (ts + [last])[i])
      && (forall t :: t in tasks && t !in ids ==> t in r && r[t] == tasks[t])
  {
  }

  lemma {:induction false} PlaceAllKeepsRest(kind: Kind, metadata: bool, ts: seq<Task>, reserved: set<Path>, disk: set<Path>,
                                             random: seq<seq<Bytes>>, i: nat)
    requires Randoms(random, |ts|) && i < |ts|
    ensures OnlyPathsDiffer(PlaceAll(kind, metadata, ts, reserved, disk, random).tasks[i], ts[i])
    decreases |ts|
  {
    hide Place, OnlyPathsDiffer;
    var n := |ts| - 1;
    var front := PlaceAll(kind, metadata, ts[..n], reserved, disk, random[..n]);
    var last := Place(kind, metadata, ts[n], front.reserved, disk, random[n]);
    assert PlaceAll(kind, metadata, ts, reserved, disk, random).tasks == front.tasks + [last.task];
    hide PlaceAll;
    if i < n {
      PlaceAllKeepsRest(kind, metadata, ts[..n], reserved, disk, random[..n], i);
    }
  }

  lemma {:induction false} DistinctOnce(ids: seq<TaskId>)
    requires forall i, k :: 0 <= i < k < |ids| ==> ids[i] != ids[k]
    ensures forall t :: t in ids ==> multiset(ids)[t] == 1
  {
    if ids != [] {
      var n := |ids| - 1;
      DistinctOnce(ids[..n]);
      assert ids == ids[..n] + [ids[n]];
      assert forall i :: 0 <= i < n ==> ids[..n][i] == ids[i];
      assert ids[n] !in ids[..n];
    }
  }

  lemma SubmitJoins(s: State, j: JobId, job: Job, tasks: seq<Task>, random: seq<seq<Bytes>>)
    requires WellLinked(s.ix) && IsSubmission(s, j, job, tasks, random)
    ensures Joins(s, Apply(s, Submit(j, job, tasks, random)), j, job)
  {
    hide PlaceAll, ReservedPaths, Unwritten, WellLinked, WithTasks;
    var b := PlaceAll(job.kind, job.metadata, tasks, ReservedPaths(s.ix), s.disk.Keys, random);
    forall i | 0 <= i < |tasks| ensures IsFreshTask(j, b.tasks[i]) {
      PlaceAllKeepsRest(job.kind, job.metadata, tasks, ReservedPaths(s.ix), s.disk.Keys, random, i);
      NewIsFresh(j, job, tasks[i], b.tasks[i]);
    }
    WithTasksAt(s.ix.tasks, job.tasks, b.tasks);
    DistinctOnce(job.tasks);
    var s' := Apply(s, Submit(j, job, tasks, random));
    assert s'.ix == Index(s.ix.jobs[j := job], WithTasks(s.ix.tasks, job.tasks, b.tasks), s.ix.listed + {j});
    assert s' == s.(ix := s'.ix, queue := s.queue + multiset(job.tasks));
    hide Apply, Submitted, IsNewTask;
    NewTasksJoin(s, s', j, job, b.tasks);
  }

  lemma NewTasksJoin(s: State, s': State, j: JobId, job: Job, ts: seq<Task>)
    requires j !in s.ix.jobs && job.status == Queued && |ts| == |job.tasks| >= 1
    requires forall i :: 0 <= i < |ts| ==> job.tasks[i] !in s.ix.tasks && IsFreshTask(j, ts[i])
    requires forall t :: t in job.tasks ==> multiset(job.tasks)[t] == 1
    requires s' == s.(ix := s'.ix, queue := s.queue + multiset(job.tasks))
    requires s'.ix.jobs == s.ix.jobs[j := job] && s'.ix.listed == s.ix.listed + {j}
    requires s'.ix.tasks.Keys == s.ix.tasks.Keys + set t | t in job.tasks
    requires forall i :: 0 <= i < |ts| ==> job.tasks[i] in s'.ix.tasks && s'.ix.tasks[job.tasks[i]] == ts[i]
    requires forall t :: t in s.ix.tasks && t !in job.tasks ==> t in s'.ix.tasks && s'.ix.tasks[t] == s.ix.tasks[t]
    ensures Joins(s, s', j, job)
  {
    hide IsFreshTask;
  }

  lemma NewIsFresh(j: JobId, job: Job, a: Task, b: Task)
    requires IsNewTask(j, job, a) && OnlyPathsDiffer(b, a)
    ensures IsFreshTask(j, b)
  {
  }

  lemma JoinLinks(s: State, s': State, j: JobId, job: Job)
    requires WellLinked(s.ix) && Joins(s, s', j, job)
    ensures WellLinked(s'.ix)
  {
  }

  lemma JoinTokens(s: State, s': State, j: JobId, job: Job)
    requires Tokens(s) && WorkersOk(s) && Joins(s, s', j, job)
    ensures Tokens(s') && WorkersOk(s')
  {
    assert forall w, t :: Holds(s', w, t) <==> Holds(s, w, t);
    forall w, t | Holds(s', w, t) ensures Placed?(s', w, t) && ViewOf(s', w, t).Ok() {
      assert Holds(s, w, t) && Placed?(s, w, t);
      assert ViewOf(s', w, t) == ViewOf(s, w, t);
    }
    forall t | t in s'.queue ensures s'.queue[t] == 1 && t in s'.ix.tasks {
      assert t in s.queue || t in job.tasks;
    }
  }

  lemma JoinTasks(s: State, s': State, j: JobId, job: Job)
    requires TasksOk(s) && WellLinked(s'.ix) && Joins(s, s', j, job)
    ensures TasksOk(s')
  {
    assert forall w, t :: Holds(s', w, t) <==> Holds(s, w, t);
    assert forall t :: Held(s, t) ==> Held(s', t);
    forall t | t in s'.ix.tasks ensures TaskOk(s', t) {
      if t in s.ix.tasks {
        assert TaskOk(s, t);
      }
    }
  }

  lemma JoinJobs(s: State, s': State, j: JobId, job: Job)
    requires WellLinked(s.ix) && WellLinked(s'.ix) && JobsOk(s) && Joins(s, s', j, job)
    ensures JobsOk(s')
  {
    hide JobOk, Joins;
    forall i | i in s'.ix.jobs ensures JobOk(s', i) {
      if i == j {
        JoinNewJob(s, s', j, job);
      } else {
        JoinKnown(s, s', j, job, i);
        assert JobOk(s, i);
        JoinOldJob(s, s', j, job, i);
      }
    }
  }

  lemma JoinKnown(s: State, s': State, j: JobId, job: Job, i: JobId)
    requires Joins(s, s', j, job) && i in s'.ix.jobs && i != j
    ensures i in s.ix.jobs
  {
  }

  lemma JoinNewJob(s: State, s': State, j: JobId, job: Job)
    requires WellLinked(s'.ix) && Joins(s, s', j, job)
    ensures JobOk(s', j)
  {
    hide WellLinked;
    var st := Statuses(s'.ix.tasks, job.tasks);
    assert job.tasks[0] in job.tasks;
    assert forall i :: 0 <= i < |st| ==> st[i] == Queued by {
      assert forall i :: 0 <= i < |st| ==> job.tasks[i] in job.tasks;
    }
    assert st[0] in st;
  }

  lemma JoinOldJob(s: State, s': State, j: JobId, job: Job, i: JobId)
    requires WellLinked(s.ix) && WellLinked(s'.ix) && Joins(s, s', j, job)
    requires i in s.ix.jobs && i in s'.ix.jobs && JobOk(s, i)
    ensures JobOk(s', i)
  {
    assert forall t :: t in s.ix.jobs[i].tasks ==> t in s.ix.tasks;
    SameStatuses(s.ix, s'.ix, i);
    hide WellLinked, JobAggregate;
    assert forall w, t :: Holds(s', w, t) <==> Holds(s, w, t);
    if Engaged(s, i) {
      var v, u :| Holds(s, v, u) && u in s.ix.tasks && s.ix.tasks[u].job == i;
      assert Holds(s', v, u);
    }
  }

  lemma JoinFiles(s: State, s': State, j: JobId, job: Job)
    requires Files(s) && Joins(s, s', j, job)
    ensures Files(s')
  {
    assert forall w, t :: Holds(s', w, t) <==> Holds(s, w, t);
    assert forall i, p :: Owed(s, i, p) <==> Owed(s', i, p);
    hide Owed;
    forall p | p in s'.disk && s'.disk[p].By? ensures FileOk(s', s'.disk[p].task, p) {
      var t := s.disk[p].task;
      assert FileOk(s, t, p);
      assert s'.ix.jobs[s'.ix.tasks[t].job] == s.ix.jobs[s.ix.tasks[t].job];
      if FlownBy(s, t, p) {
        var v :| Holds(s, v, t) && InFlight(s.workers[v].stage, s.ix.tasks[t], p);
        assert Holds(s', v, t);
      }
    }
  }

  lemma JoinBooks(s: State, s': State, j: JobId, job: Job)
    requires Deletions(s) && Events(s) && Store(s) && Joins(s, s', j, job)
    ensures Deletions(s') && Events(s') && Store(s')
  {
    assert forall i :: IsOver(s, i) ==> IsOver(s', i);
    hide IsOver;
    assert forall u :: u in job.tasks ==> !s'.ix.tasks[u].wroteFile && !s'.ix.tasks[u].wroteMetadata;
    forall u, p | u in s'.ix.tasks && Recorded(s'.ix.tasks[u], p) ensures (s'.ix.tasks[u].job, p) in s'.written {
      assert u in s.ix.tasks && Recorded(s.ix.tasks[u], p);
    }
  }

  lemma JoinKeeps(s: State, s': State, j: JobId, job: Job)
    requires Inv(s) && WellLinked(s.ix) && Joins(s, s', j, job)
    ensures Inv(s')
  {
    hide Tokens, WorkersOk, TasksOk, JobsOk, Files, Deletions, Events, Store, WellLinked, Joins;
    JoinLinks(s, s', j, job);
    JoinTokens(s, s', j, job);
    JoinTasks(s, s', j, job);
    JoinJobs(s, s', j, job);
    JoinFiles(s, s', j, job);
    JoinBooks(s, s', j, job);
  }

  lemma SubmitKeeps(s: State, j: JobId, job: Job, tasks: seq<Task>, random: seq<seq<Bytes>>)
    requires Inv(s) && WellLinked(s.ix) && IsSubmission(s, j, job, tasks, random)
    ensures Inv(Apply(s, Submit(j, job, tasks, random)))
  {
    hide Inv, Joins, IsSubmission;
    SubmitJoins(s, j, job, tasks, random);
    hide Apply, WellLinked;
    JoinKeeps(s, Apply(s, Submit(j, job, tasks, random)), j, job);
  }
}
