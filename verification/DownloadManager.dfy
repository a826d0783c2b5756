/** The sections of internal/download/manager.go and metadata.go that run under `Manager.mu`, in
    their own imperative form. Each is proved to have exactly the effect the transition system gives it. */
module DownloadManager {
  import opened Utf8
  import opened Naming
  import opened Collision
  import opened DownloadCore
  import opened DownloadPaths
  import opened DownloadRun
  import opened DownloadInvariant
  import opened DownloadSteps
  import opened DownloadSubmission
  import opened DownloadRecovery

  datatype Reply = Accepted | NotFound | AlreadyTerminal | StillRunning

  class Manager {
    var jobs: map<JobId, Job>
    var tasks: map<TaskId, Task>
    var listed: set<JobId>

    constructor ()
      ensures Ix() == Index(map[], map[], {})
    {
      jobs, tasks, listed := map[], map[], {};
    }

    function Ix(): Index
      reads this
    {
      Index(jobs, tasks, listed)
    }

    /** `writtenPaths`. */
    method WrittenPathsOf(ids: seq<TaskId>) returns (out: seq<Path>)
      requires forall t :: t in ids ==> t in tasks
      ensures out == WrittenPaths(tasks, ids)
    {
      hide Recorded, TaskWritten;
      out := [];
      for i := 0 to |ids|
        invariant out + WrittenPaths(tasks, ids[i..]) == WrittenPaths(tasks, ids)
      {
        WrittenHead(tasks, ids[i..]);
        assert ids[i..][1..] == ids[i + 1..];
        var t := tasks[ids[i]];
        ghost var before := out;
        if t.wroteFile && t.filePath != [] {
          out := out + [t.filePath];
        }
        if t.wroteMetadata && t.metadataPath != [] {
          out := out + [t.metadataPath];
        }
        WrittenTail(t, before, out, WrittenPaths(tasks, ids[i + 1..]));
      }
      assert ids[|ids|..] == [];
    }

    method TransitionJobLocked(j: JobId) returns (cleanup: seq<Path>, changed: bool)
      requires WellLinked(Ix()) && j in jobs
      modifies this`jobs
      ensures Transition(Ix(), cleanup, changed) == TransitionJob(old(Ix()), j)
    {
      var status := jobs[j].status;
      var to := AggregateStatus(Statuses(tasks, jobs[j].tasks));
      jobs := jobs[j := jobs[j].(status := to)];
      if status == to {
        return [], false;
      }
      changed := true;
      cleanup := [];
      if to.Failed? || to.Cancelled? {
        cleanup := WrittenPathsOf(jobs[j].tasks);
      }
    }

    method Cancel(j: JobId) returns (reply: Reply, cleanup: seq<Path>, changed: bool)
      requires WellLinked(Ix())
      modifies this`jobs, this`tasks
      ensures reply == if j !in listed then NotFound else if old(jobs[j]).status.IsTerminal() then AlreadyTerminal else Accepted
      ensures reply.Accepted? ==> Transition(Ix(), cleanup, changed) == CancelJob(old(Ix()), j)
      ensures !reply.Accepted? ==> Ix() == old(Ix()) && cleanup == [] && !changed
    {
      if j !in listed {
        return NotFound, [], false;
      }
      if jobs[j].status.IsTerminal() {
        return AlreadyTerminal, [], false;
      }
      var ids := jobs[j].tasks;
      ghost var was := tasks;
      for i := 0 to |ids|
        invariant tasks.Keys == was.Keys && jobs == old(jobs)
        invariant forall t :: t in was ==> tasks[t] == if t in ids[..i] then CancelledTask(was[t]) else was[t]
      {
        assert ids[..i + 1] == ids[..i] + [ids[i]];
        var t := tasks[ids[i]];
        if !t.status.IsTerminal() {
          t := t.(status := Cancelled);
          if t.armed {
            t := t.(cancelled := true);
          }
          tasks := tasks[ids[i] := t];
        }
      }
      assert ids[..|ids|] == ids;
      assert tasks == CancelTasks(was, ids);
      CancelKeepsLinks(old(Ix()), j);
      cleanup, changed := TransitionJobLocked(j);
      reply := Accepted;
    }

    method Remove(j: JobId) returns (reply: Reply)
      requires WellLinked(Ix())
      modifies this`listed
      ensures reply == if j !in old(listed) then NotFound else if jobs[j].status.IsTerminal() then Accepted else StillRunning
      ensures Ix() == if reply.Accepted? then old(Ix()).(listed := old(listed) - {j}) else old(Ix())
    {
      if j !in listed {
        return NotFound;
      }
      if !jobs[j].status.IsTerminal() {
        return StillRunning;
      }
      listed := listed - {j};
      reply := Accepted;
    }

    method LeaseTask(t: TaskId) returns (leased: bool)
      requires WellLinked(Ix()) && t in tasks
      modifies this`jobs, this`tasks
      ensures leased == !old(tasks[t]).status.IsTerminal()
      ensures Ix() == if leased then Leased(old(Ix()), t) else old(Ix())
    {
      LinkedJob(Ix());
      hide WellLinked;
      if tasks[t].status.IsTerminal() {
        return false;
      }
      var j := tasks[t].job;
      tasks := tasks[t := tasks[t].(armed := true)];
      tasks := tasks[t := tasks[t].(status := Running)];
      assert tasks == old(tasks)[t := old(tasks[t]).(status := Running, armed := true)];
      if j in listed && !jobs[j].status.Running? {
        jobs := jobs[j := jobs[j].(status := Running)];
      }
      assert jobs == (if j in listed then old(jobs)[j := old(jobs)[j].(status := Running)] else old(jobs));
      leased := true;
    }

    /** `transitionTaskTerminalLocked`: refuses a task that is already terminal. */
    method TransitionTaskTerminal(id: TaskId, to: Status) returns (moved: bool)
      requires id in tasks
      modifies this`tasks
      ensures moved == !old(tasks[id]).status.IsTerminal() && tasks == old(tasks)[id := Settled(old(tasks[id]), to)]
    {
      if tasks[id].status.IsTerminal() {
        assert tasks == tasks[id := tasks[id]];
        return false;
      }
      tasks := tasks[id := tasks[id].(status := to)];
      moved := true;
    }

    /** `resolveCancelled`. */
    method ResolveCancelledLocked(id: TaskId, shutdown: bool)
      requires id in tasks
      modifies this`tasks
      ensures tasks == old(tasks)[id := ResolveCancelled(old(tasks[id]), shutdown)]
    {
      if tasks[id].status.IsTerminal() {
        assert tasks == tasks[id := tasks[id]];
      } else if shutdown {
        tasks := tasks[id := tasks[id].(status := Queued)];
      } else {
        tasks := tasks[id := tasks[id].(status := Cancelled)];
      }
    }

    /** `runDownloadWithRetries` after a finished transfer: ownership first, then the status. */
    method AcceptDownload(id: TaskId) returns (drop: seq<Path>)
      requires id in tasks && tasks[id].job in jobs
      modifies this`tasks
      ensures var e := ActLocked(jobs[old(tasks[id]).job], old(tasks[id]), Renamed, Good, false);
        tasks == old(tasks)[id := e.task] && drop == e.drop
    {
      var job := jobs[tasks[id].job];
      tasks := tasks[id := tasks[id].(wroteFile := true)];
      var accepted := !tasks[id].status.IsTerminal();
      if !(job.kind.Ugoira? || job.metadata) {
        accepted := TransitionTaskTerminal(id, Completed);
      }
      drop := if accepted then [] else [tasks[id].filePath];
    }

    /** The settling section of `runUgoiraPostProcessing`. */
    method SettleConversion(id: TaskId, outcome: Outcome, shutdown: bool) returns (drop: seq<Path>)
      requires id in tasks && tasks[id].job in jobs
      modifies this`tasks
      ensures var e := ActLocked(jobs[old(tasks[id]).job], old(tasks[id]), Settle(outcome), Good, shutdown);
        tasks == old(tasks)[id := e.task] && drop == e.drop
    {
      drop := [];
      match outcome {
        case Done =>
          var orphan := tasks[id].filePath;
          var accepted := !tasks[id].status.IsTerminal();
          if !jobs[tasks[id].job].metadata {
            accepted := TransitionTaskTerminal(id, Completed);
          } else {
            assert tasks == tasks[id := tasks[id]];
          }
          if !accepted {
            drop := [orphan];
          }
        case Abort => ResolveCancelledLocked(id, shutdown);
        case Error => var _ := TransitionTaskTerminal(id, Failed);
      }
    }

    /** `finishMetadata`: a sidecar that was written is recorded even if cancellation has won. */
    method FinishMetadata(id: TaskId, outcome: Outcome, shutdown: bool) returns (drop: seq<Path>)
      requires id in tasks && tasks[id].job in jobs
      modifies this`tasks
      ensures var e := ActLocked(jobs[old(tasks[id]).job], old(tasks[id]), SidecarDone(outcome), Good, shutdown);
        tasks == old(tasks)[id := e.task] && drop == e.drop
    {
      hide TaskWritten, Recorded, ActLocked, SidecarOwned, Settled, ResolveCancelled, WrittenPaths;
      SidecarEffect(jobs[tasks[id].job], tasks[id], outcome, shutdown);
      if outcome.Done? {
        tasks := tasks[id := tasks[id].(wroteMetadata := true)];
      } else if !outcome.Abort? {
        tasks := tasks[id := tasks[id].(wroteMetadata := false)];
      }
      OwnedIs(old(tasks[id]), outcome);
      assert tasks == old(tasks)[id := SidecarOwned(old(tasks[id]), outcome)];
      if outcome.Abort? || ContextDone(tasks[id], shutdown) {
        ResolveCancelledLocked(id, shutdown);
      } else if outcome.Error? {
        var _ := TransitionTaskTerminal(id, Failed);
      } else {
        var _ := TransitionTaskTerminal(id, Completed);
      }
      drop := [];
      if tasks[id].status.Cancelled? {
        drop := WrittenPathsOf([id]);
        WrittenSingle(tasks, id);
      }
    }

    /** `reservedPathsLocked`: the jobs map is walked in any order. */
    method ReservedPathsLocked() returns (out: set<Path>)
      requires WellLinked(Ix())
      ensures out == ReservedPaths(Ix())
    {
      hide ReservedBy, ReservedPaths;
      out := {};
      var left := listed;
      while left != {}
        invariant left <= listed
        invariant forall p :: p in out <==> exists j :: j in listed - left && ReservedBy(Ix(), j, |jobs[j].tasks|, p)
        decreases |left|
      {
        var j :| j in left;
        out := ReserveJob(j, out);
        left := left - {j};
        assert listed - left == listed - (left + {j}) + {j};
      }
      assert listed - left == listed;
      ReservedAll(Ix());
    }

    method ReserveJob(j: JobId, before: set<Path>) returns (out: set<Path>)
      requires WellLinked(Ix()) && j in jobs
      ensures forall p :: p in out <==> p in before || ReservedBy(Ix(), j, |jobs[j].tasks|, p)
    {
      LinkedTasks(Ix(), j);
      hide WellLinked, FinalPath;
      out := before;
      var ids := jobs[j].tasks;
      for i := 0 to |ids|
        invariant forall p :: p in out <==> p in before || ReservedBy(Ix(), j, i, p)
      {
        assert ids[i] in ids;
        var t := tasks[ids[i]];
        if !t.status.IsTerminal() {
          var was := out;
          out := Keep(Keep(Keep(was, t.filePath), FinalPath(jobs[j].kind, t.filePath)), t.metadataPath);
          KeptClaims(jobs[j].kind, t, was, out);
        }
        ReservedStep(Ix(), j, i);
      }
    }

    /** `resolveJobCollisionsLocked` on a job's tasks. */
    static method ResolveCollisions(kind: Kind, metadata: bool, ts: seq<Task>, reserved: set<Path>, disk: set<Path>,
                                    random: seq<seq<Bytes>>) returns (b: Batch)
      requires Randoms(random, |ts|)
      ensures b == PlaceAll(kind, metadata, ts, reserved, disk, random)
    {
      hide Place;
      b := Batch([], reserved, true);
      for i := 0 to |ts|
        invariant b == PlaceAll(kind, metadata, ts[..i], reserved, disk, random[..i])
      {
        var r := ResolveTask(kind, metadata, ts[i], b.reserved, disk, random[i]);
        b := Batch(b.tasks + [r.task], r.reserved, b.checked && r.checked);
        assert ts[..i + 1][..i] == ts[..i] && random[..i + 1][..i] == random[..i];
      }
      assert ts[..|ts|] == ts && random[..|ts|] == random;
    }

    /** The body of its loop. */
    static method ResolveTask(kind: Kind, metadata: bool, t: Task, reserved: set<Path>, disk: set<Path>, random: seq<Bytes>)
      returns (r: Placed)
      requires IsRandom(random)
      ensures r == Place(kind, metadata, t, reserved, disk, random)
    {
      hide Resolved, Checked, FinalPath, AltExt, Parts, PathsFor, Chosen, Claims, ShortStem, Ext, IsZip;
      if t.status.IsTerminal() {
        return Placed(t, reserved, true);
      }
      var candidate := FinalPath(kind, t.filePath);
      if t.wroteFile || t.wroteMetadata {
        var kept := Keep(reserved, t.filePath);
        kept := Keep(kept, candidate);
        kept := Keep(kept, t.metadataPath);
        KeptClaims(kind, t, reserved, kept);
        return Placed(t, kept, true);
      }
      if candidate == [] {
        return Placed(t, reserved, true);
      }
      var alt := AltExt(kind, t.filePath);
      var paths := ResolveOutputPaths(candidate, alt, metadata, reserved, disk, random);
      OfferedCount(candidate, alt, metadata, reserved + disk, random);
      var all := ReserveAll(reserved, paths);
      var placed := t.(filePath := paths[0]);
      if alt != [] {
        placed := placed.(filePath := paths[1]);
      }
      if metadata {
        placed := placed.(metadataPath := paths[|paths| - 1]);
      }
      r := Placed(placed, all, Checked(candidate, alt, metadata, reserved + disk, random));
    }

    /** `reserved[p] = struct{}{}` unless `p` is empty. */
    static function Keep(reserved: set<Path>, p: Path): set<Path> {
      if p == [] then reserved else reserved + {p}
    }

    static method ReserveAll(reserved: set<Path>, paths: seq<Path>) returns (all: set<Path>)
      ensures all == reserved + set p | p in paths
    {
      all := reserved;
      for i := 0 to |paths|
        invariant all == reserved + set p | p in paths[..i]
      {
        assert paths[..i + 1] == paths[..i] + [paths[i]];
        all := all + {paths[i]};
      }
      assert paths[..|paths|] == paths;
    }

    method WriteBack(ids: seq<TaskId>, ts: seq<Task>)
      requires |ids| == |ts|
      modifies this`tasks
      ensures tasks == WithTasks(old(tasks), ids, ts)
    {
      for i := 0 to |ids|
        invariant tasks == WithTasks(old(tasks), ids[..i], ts[..i])
      {
        assert ids[..i + 1][..i] == ids[..i] && ts[..i + 1][..i] == ts[..i];
        tasks := tasks[ids[i] := ts[i]];
      }
      assert ids[..|ids|] == ids && ts[..|ts|] == ts;
    }

    /** The locked section of `Submit`. */
    method Submit(j: JobId, job: Job, ts: seq<Task>, disk: set<Path>, random: seq<seq<Bytes>>)
      requires WellLinked(Ix()) && j !in jobs && |ts| == |job.tasks| && Randoms(random, |ts|)
      modifies this
      ensures Ix() == Submitted(old(Ix()), j, job, ts, disk, random)
    {
      hide PlaceAll, WithTasks, ReservedPaths, WellLinked;
      var reserved := ReservedPathsLocked();
      var b := ResolveCollisions(job.kind, job.metadata, ts, reserved, disk, random);
      jobs := jobs[j := job];
      WriteBack(job.tasks, b.tasks);
      listed := listed + {j};
    }

    /** The first half of a turn in `Start`: running tasks start over. */
    method ResetTasks(ids: seq<TaskId>) returns (ts: seq<Task>, unfinished: bool, queue: seq<TaskId>)
      requires Distinct(ids) && forall t :: t in ids ==> t in tasks
      modifies this`tasks
      ensures ts == RestAll(old(tasks), ids) && (unfinished <==> HasUnfinished(ts))
      ensures tasks == WithTasks(old(tasks), ids, ts) && queue == Unfinished(old(tasks), ids)
    {
      hide WithTasks, Unfinished, RestTask, HasUnfinished;
      ts, unfinished, queue := [], false, [];
      NothingYet(tasks);
      for i := 0 to |ids|
        invariant ts == RestAll(old(tasks), ids[..i])
        invariant tasks == WithTasks(old(tasks), ids[..i], ts)
        invariant queue == Unfinished(old(tasks), ids[..i])
        invariant unfinished <==> HasUnfinished(ts)
      {
        assert ids[i] in ids;
        NotYet(old(tasks), ids, ts, i);
        var t := tasks[ids[i]].(armed := false, cancelled := false);
        if t.status.Running? {
          t := t.(status := Queued);
        }
        if t.status.Queued? {
          queue := queue + [ids[i]];
        }
        if !t.status.IsTerminal() {
          unfinished := true;
        }
        RestedIs(old(tasks)[ids[i]], t);
        RestedMore(old(tasks), ids, ts, t, i);
        ts := ts + [t];
        tasks := tasks[ids[i] := t];
      }
      assert ids[..|ids|] == ids;
    }

    /** One turn of the loop in `Start`. */
    method RestartJob(j: JobId, reserved: set<Path>, disk: set<Path>, random: seq<seq<Bytes>>) returns (kept: set<Path>, queue: seq<TaskId>)
      requires j in jobs && Randoms(random, |jobs[j].tasks|) && Distinct(jobs[j].tasks)
      requires forall t :: t in jobs[j].tasks ==> t in tasks
      modifies this`jobs, this`tasks
      ensures var job := old(jobs[j]); var ts := RestAll(old(tasks), job.tasks);
        && jobs == old(jobs)[j := job.(status := Aggregate(StatusesOf(ts)))]
        && kept == Placing(job, ts, reserved, disk, random).reserved
        && tasks == WithTasks(old(tasks), job.tasks, Placing(job, ts, reserved, disk, random).tasks)
        && queue == Unfinished(old(tasks), job.tasks)
    {
      hide WithTasks, Unfinished, RestTask, HasUnfinished, PlaceAll, Aggregate;
      var ids := jobs[j].tasks;
      var ts, unfinished;
      ts, unfinished, queue := ResetTasks(ids);
      var status := AggregateStatus(StatusesOf(ts));
      jobs := jobs[j := jobs[j].(status := status)];
      kept := reserved;
      if unfinished {
        var b := ResolveCollisions(jobs[j].kind, jobs[j].metadata, ts, reserved, disk, random);
        kept := b.reserved;
        WriteBack(ids, b.tasks);
        Overwritten(old(tasks), ids, ts, b.tasks);
      }
    }

    /** The locked section of `Start`: one turn per job, newest first. */
    method Start(order: seq<JobId>, disk: set<Path>, random: seq<seq<seq<Bytes>>>) returns (queue: seq<TaskId>)
      requires Sound(Ix()) && OrderOk(Ix(), order, random) && Walk(Ix(), order)
      modifies this
      ensures Ix() == Recover(old(Ix()), order, disk, random)
      ensures queue == Enqueued(old(Ix()), order)
    {
      ghost var ix := Ix();
      var reserved: set<Path> := {};
      queue := [];
      hide Turned, Placing, RestAll, Unfinished, WithTasks, Sound, Aggregate, WellLinked;
      NoTurns(ix, order, disk, random);
      for k := 0 to |order|
        invariant Turned(ix, order, disk, random, k, Ix(), reserved, queue)
      {
        TurnNext(ix, order, disk, random, k, Ix(), reserved, queue);
        ghost var was := Ix();
        var kept, more := RestartJob(order[k], reserved, disk, random[k]);
        TurnDone(ix, order, disk, random, k, was, reserved, queue, Ix(), kept, more);
        reserved, queue := kept, queue + more;
      }
      TurnsOver(ix, order, disk, random, Ix(), reserved, queue);
    }
  }

  /** Where `Start` stands after `k` turns. */
  ghost predicate Turned(ix: Index, order: seq<JobId>, disk: set<Path>, random: seq<seq<seq<Bytes>>>, k: nat, r: Index,
                         reserved: set<Path>, queue: seq<TaskId>)
    requires OrderOk(ix, order, random) && k <= |order|
  {
    && reserved == Reserve(ix, order[..k], disk, random[..k])
    && queue == Enqueued(ix, order[..k])
    && r.tasks == RecoverTasks(ix, order[..k], disk, random[..k])
    && r.listed == ix.listed && r.jobs.Keys == ix.jobs.Keys
    && forall j :: j in ix.jobs ==> r.jobs[j] == if j in order[..k] then RecoverJobs(ix)[j] else ix.jobs[j]
  }

  lemma NoTurns(ix: Index, order: seq<JobId>, disk: set<Path>, random: seq<seq<seq<Bytes>>>)
    requires OrderOk(ix, order, random)
    ensures Turned(ix, order, disk, random, 0, ix, {}, [])
  {
    assert order[..0] == [] && random[..0] == [];
  }

  lemma TurnNext(ix: Index, order: seq<JobId>, disk: set<Path>, random: seq<seq<seq<Bytes>>>, k: nat, r: Index,
                 reserved: set<Path>, queue: seq<TaskId>)
    requires Sound(ix) && OrderOk(ix, order, random) && Walk(ix, order) && k < |order| && Turned(ix, order, disk, random, k, r, reserved, queue)
    ensures order[k] in r.jobs && r.jobs[order[k]] == ix.jobs[order[k]] && Randoms(random[k], |r.jobs[order[k]].tasks|)
    ensures Distinct(r.jobs[order[k]].tasks)
    ensures forall t :: t in r.jobs[order[k]].tasks ==> t in r.tasks && t in ix.tasks && r.tasks[t] == ix.tasks[t]
  {
    StillStored(ix, order, disk, random, k);
    LinkedTasks(ix, order[k]);
    hide Sound, WellLinked, Walk, RecoverTasks, Reserve, Enqueued;
  }

  lemma TurnDone(ix: Index, order: seq<JobId>, disk: set<Path>, random: seq<seq<seq<Bytes>>>, k: nat, was: Index,
                 reserved: set<Path>, queue: seq<TaskId>, r: Index, kept: set<Path>, more: seq<TaskId>)
    requires OrderOk(ix, order, random) && k < |order| && Turned(ix, order, disk, random, k, was, reserved, queue)
    requires r.listed == was.listed && Turning(ix.jobs[order[k]], order[k], was, r, reserved, disk, random[k], kept, more)
    requires forall t :: t in ix.jobs[order[k]].tasks ==> t in was.tasks && t in ix.tasks && was.tasks[t] == ix.tasks[t]
    ensures Turned(ix, order, disk, random, k + 1, r, kept, queue + more)
  {
    hide RestAll, Unfinished, Placing, RestJob, WithTasks, WellLinked, Aggregate, Reserve, Enqueued, RecoverTasks;
    RestartIs(ix, was.tasks, order, disk, random, k, reserved);
    TurnEquations(ix, order, disk, random, k);
    TurnJobs(ix, order, random, k, was.jobs, r.jobs);
  }

  /** What one turn makes of the index. */
  ghost predicate Turning(job: Job, j: JobId, was: Index, r: Index, reserved: set<Path>, disk: set<Path>, random: seq<seq<Bytes>>,
                          kept: set<Path>, more: seq<TaskId>)
  {
    && Randoms(random, |job.tasks|) && (forall t :: t in job.tasks ==> t in was.tasks)
    && var ts := RestAll(was.tasks, job.tasks);
       && r.jobs == was.jobs[j := job.(status := Aggregate(StatusesOf(ts)))]
       && kept == Placing(job, ts, reserved, disk, random).reserved
       && r.tasks == WithTasks(was.tasks, job.tasks, Placing(job, ts, reserved, disk, random).tasks)
       && more == Unfinished(was.tasks, job.tasks)
  }

  lemma TurnEquations(ix: Index, order: seq<JobId>, disk: set<Path>, random: seq<seq<seq<Bytes>>>, k: nat)
    requires OrderOk(ix, order, random) && k < |order|
    ensures var before := Reserve(ix, order[..k], disk, random[..k]); var b := RestJob(ix, order[k], before, disk, random[k]);
      && Reserve(ix, order[..k + 1], disk, random[..k + 1]) == b.reserved
      && RecoverTasks(ix, order[..k + 1], disk, random[..k + 1])
           == WithTasks(RecoverTasks(ix, order[..k], disk, random[..k]), ix.jobs[order[k]].tasks, b.tasks)
    ensures Enqueued(ix, order[..k + 1]) == Enqueued(ix, order[..k]) + Unfinished(ix.tasks, ix.jobs[order[k]].tasks)
  {
    var head, rand := order[..k + 1], random[..k + 1];
    assert head != [] && head[..k] == order[..k] && rand[..k] == random[..k] && rand[k] == random[k] && head[k] == order[k];
    hide RestJob, WithTasks, Unfinished, WellLinked;
  }

  lemma TurnJobs(ix: Index, order: seq<JobId>, random: seq<seq<seq<Bytes>>>, k: nat, was: map<JobId, Job>, jobs: map<JobId, Job>)
    requires OrderOk(ix, order, random) && k < |order| && was.Keys == ix.jobs.Keys
    requires forall j :: j in ix.jobs ==> was[j] == if j in order[..k] then RecoverJobs(ix)[j] else ix.jobs[j]
    requires jobs == was[order[k] := RecoverJobs(ix)[order[k]]]
    ensures forall j :: j in ix.jobs ==> jobs[j] == if j in order[..k + 1] then RecoverJobs(ix)[j] else ix.jobs[j]
  {
    hide WellLinked, Aggregate, RestAll;
    assert order[..k + 1] == order[..k] + [order[k]];
  }

  lemma TurnsOver(ix: Index, order: seq<JobId>, disk: set<Path>, random: seq<seq<seq<Bytes>>>, r: Index,
                  reserved: set<Path>, queue: seq<TaskId>)
    requires OrderOk(ix, order, random) && Walk(ix, order) && Turned(ix, order, disk, random, |order|, r, reserved, queue)
    ensures r == Recover(ix, order, disk, random) && queue == Enqueued(ix, order)
  {
    assert order[..|order|] == order && random[..|order|] == random;
    hide WellLinked, RecoverTasks, Reserve, Enqueued, RestAll;
    assert r.jobs == RecoverJobs(ix);
  }

  /** `RestJob` once the tasks are reset. */
  function Placing(job: Job, ts: seq<Task>, reserved: set<Path>, disk: set<Path>, random: seq<seq<Bytes>>): (b: Batch)
    requires Randoms(random, |ts|)
    ensures |b.tasks| == |ts|
  {
    if HasUnfinished(ts) then PlaceAll(job.kind, job.metadata, ts, reserved, disk, random) else Batch(ts, reserved, true)
  }

  lemma NotYet(before: map<TaskId, Task>, ids: seq<TaskId>, ts: seq<Task>, i: nat)
    requires i < |ids| && |ts| == i && Distinct(ids) && ids[i] in before
    ensures ids[i] in WithTasks(before, ids[..i], ts) && WithTasks(before, ids[..i], ts)[ids[i]] == before[ids[i]]
  {
    assert forall k :: 0 <= k < i ==> ids[..i][k] == ids[k];
    WithTasksAt(before, ids[..i], ts);
    assert ids[i] !in ids[..i];
  }

  lemma RestedIs(a: Task, t: Task)
    requires t == a.(armed := false, cancelled := false, status := if a.status.Running? then Queued else a.status)
    ensures t == RestTask(a)
  {
  }

  lemma NothingYet(before: map<TaskId, Task>)
    ensures WithTasks(before, [], []) == before && Unfinished(before, []) == [] && !HasUnfinished([])
  {
  }

  lemma RestedMore(before: map<TaskId, Task>, ids: seq<TaskId>, ts: seq<Task>, t: Task, i: nat)
    requires (forall u :: u in ids ==> u in before) && i < |ids| && ts == RestAll(before, ids[..i]) && t == RestTask(before[ids[i]])
    ensures ts + [t] == RestAll(before, ids[..i + 1])
    ensures WithTasks(before, ids[..i + 1], ts + [t]) == WithTasks(before, ids[..i], ts)[ids[i] := t]
    ensures Unfinished(before, ids[..i + 1]) == Unfinished(before, ids[..i]) + (if t.status.Queued? then [ids[i]] else [])
    ensures HasUnfinished(ts + [t]) <==> HasUnfinished(ts) || !t.status.IsTerminal()
  {
    UnfinishedGrows(ts, t);
    hide HasUnfinished, RestTask;
    assert ids[..i + 1][..i] == ids[..i] && (ts + [t])[..i] == ts && ids[i] in ids;
  }

  lemma UnfinishedGrows(ts: seq<Task>, t: Task)
    ensures HasUnfinished(ts + [t]) <==> HasUnfinished(ts) || !t.status.IsTerminal()
  {
    if !t.status.IsTerminal() {
      assert (ts + [t])[|ts|] == t;
    }
    if i :| 0 <= i < |ts| && !ts[i].status.IsTerminal() {
      assert (ts + [t])[i] == ts[i];
    }
  }

  /** Writing the resolved tasks over the reset ones is writing them once. */
  lemma Overwritten(before: map<TaskId, Task>, ids: seq<TaskId>, ts: seq<Task>, us: seq<Task>)
    requires |ids| == |ts| == |us| && Distinct(ids)
    ensures WithTasks(WithTasks(before, ids, ts), ids, us) == WithTasks(before, ids, us)
  {
    hide WithTasks;
    var mid := WithTasks(before, ids, ts);
    WithTasksAt(before, ids, ts);
    WithTasksAt(mid, ids, us);
    WithTasksAt(before, ids, us);
    var a, b := WithTasks(mid, ids, us), WithTasks(before, ids, us);
    forall t | t in a ensures a[t] == b[t] {
      if t in ids {
        var i :| 0 <= i < |ids| && ids[i] == t;
      }
    }
  }

  /** Jobs still to come hold their tasks as stored. */
  lemma StillStored(ix: Index, order: seq<JobId>, disk: set<Path>, random: seq<seq<seq<Bytes>>>, k: nat)
    requires Sound(ix) && OrderOk(ix, order, random) && Distinct(order) && k < |order|
    ensures order[k] in ix.jobs && order[k] !in order[..k] && Distinct(ix.jobs[order[k]].tasks)
    ensures var m := RecoverTasks(ix, order[..k], disk, random[..k]);
      forall t :: t in ix.jobs[order[k]].tasks ==> t in m && m[t] == ix.tasks[t]
  {
    LinkedTasks(ix, order[k]);
    var ids := ix.jobs[order[k]].tasks;
    hide WellLinked, RecoverTasks;
    forall t | t in ids ensures var m := RecoverTasks(ix, order[..k], disk, random[..k]); t in m && m[t] == ix.tasks[t] {
      Untouched(ix, order[..k], disk, random[..k], t);
    }
  }

  lemma {:induction false} Untouched(ix: Index, order: seq<JobId>, disk: set<Path>, random: seq<seq<seq<Bytes>>>, t: TaskId)
    requires Sound(ix) && OrderOk(ix, order, random) && t in ix.tasks && ix.tasks[t].job !in order
    ensures var m := RecoverTasks(ix, order, disk, random); t in m && m[t] == ix.tasks[t]
  {
    hide RestJob, WithTasks, AllTerminal;
    if order != [] {
      var n := |order| - 1;
      var before := RecoverTasks(ix, order[..n], disk, random[..n]);
      var ids := ix.jobs[order[n]].tasks;
      Untouched(ix, order[..n], disk, random[..n], t);
      WithTasksAt(before, ids, Turn(ix, order, disk, random, n).tasks);
      assert t !in ids;
      hide RestJob;
    }
  }

  lemma RestartIs(ix: Index, before: map<TaskId, Task>, order: seq<JobId>, disk: set<Path>, random: seq<seq<seq<Bytes>>>, k: nat, reserved: set<Path>)
    requires OrderOk(ix, order, random) && k < |order| && order[k] in ix.jobs
    requires forall t :: t in ix.jobs[order[k]].tasks ==> t in before && t in ix.tasks && before[t] == ix.tasks[t]
    ensures RestAll(before, ix.jobs[order[k]].tasks) == RestAll(ix.tasks, ix.jobs[order[k]].tasks)
    ensures Unfinished(before, ix.jobs[order[k]].tasks) == Unfinished(ix.tasks, ix.jobs[order[k]].tasks)
    ensures Placing(ix.jobs[order[k]], RestAll(ix.tasks, ix.jobs[order[k]].tasks), reserved, disk, random[k]) == RestJob(ix, order[k], reserved, disk, random[k])
  {
    var ids := ix.jobs[order[k]].tasks;
    SameUnfinished(before, ix.tasks, ids);
    assert forall i :: 0 <= i < |ids| ==> ids[i] in ids;
    hide PlaceAll, WellLinked;
    assert RestAll(before, ids) == RestAll(ix.tasks, ids);
  }

  lemma {:induction false} SameUnfinished(a: map<TaskId, Task>, b: map<TaskId, Task>, ids: seq<TaskId>)
    requires forall t :: t in ids ==> t in a && t in b && a[t] == b[t]
    ensures Unfinished(a, ids) == Unfinished(b, ids)
  {
    if ids != [] {
      SameUnfinished(a, b, ids[..|ids| - 1]);
      assert ids[|ids| - 1] in ids;
    }
  }

  lemma OfferedCount(base: Path, alt: Bytes, metadata: bool, taken: set<Path>, random: seq<Bytes>)
    requires IsAlt(alt) && IsRandom(random)
    ensures |Resolved(base, alt, metadata, taken, random)| == 1 + (if alt == [] then 0 else 1) + (if metadata then 1 else 0)
  {
    hide Resolved;
    WithinBudget(base, alt, metadata, taken, random);
  }

  lemma KeptClaims(kind: Kind, t: Task, reserved: set<Path>, kept: set<Path>)
    requires kept == Manager.Keep(Manager.Keep(Manager.Keep(reserved, t.filePath), FinalPath(kind, t.filePath)), t.metadataPath)
    ensures kept == reserved + Claims(kind, t)
  {
    hide FinalPath;
  }

  lemma SidecarEffect(job: Job, t: Task, outcome: Outcome, shutdown: bool)
    ensures var e := ActLocked(job, t, SidecarDone(outcome), Good, shutdown);
      var t' := SidecarStatus(SidecarOwned(t, outcome), outcome, shutdown);
      e.task == t' && e.drop == if t'.status.Cancelled? then TaskWritten(t') else []
  {
    hide TaskWritten, SidecarStatus, SidecarOwned;
  }

  lemma OwnedIs(t: Task, outcome: Outcome)
    ensures SidecarOwned(t, outcome) ==
      if outcome.Done? then t.(wroteMetadata := true) else if outcome.Abort? then t else t.(wroteMetadata := false)
  {
  }

  lemma WrittenSingle(tasks: map<TaskId, Task>, id: TaskId)
    requires id in tasks
    ensures WrittenPaths(tasks, [id]) == TaskWritten(tasks[id])
  {
    hide Recorded, TaskWritten;
    WrittenHead(tasks, [id]);
    assert WrittenPaths(tasks, [id][1..]) == [];
  }

  lemma WrittenHead(tasks: map<TaskId, Task>, ids: seq<TaskId>)
    requires (forall t :: t in ids ==> t in tasks) && ids != []
    ensures WrittenPaths(tasks, ids) == TaskWritten(tasks[ids[0]]) + WrittenPaths(tasks, ids[1..])
  {
    hide Recorded, TaskWritten;
  }

  lemma WrittenTail(t: Task, before: seq<Path>, out: seq<Path>, rest: seq<Path>)
    requires out == before + (if t.wroteFile && t.filePath != [] then [t.filePath] else [])
                 + (if t.wroteMetadata && t.metadataPath != [] then [t.metadataPath] else [])
    ensures out + rest == before + (TaskWritten(t) + rest)
  {
    hide Recorded;
    assert out == before + TaskWritten(t);
  }

  /** One of the first `n` tasks of job `j` keeps `p`. */
  ghost predicate ReservedBy(ix: Index, j: JobId, n: nat, p: Path)
    requires WellLinked(ix) && j in ix.jobs && n <= |ix.jobs[j].tasks|
  {
    exists i :: 0 <= i < n && KeepsPath(ix, j, ix.jobs[j].tasks[i], p)
  }

  predicate KeepsPath(ix: Index, j: JobId, t: TaskId, p: Path) {
    j in ix.jobs && t in ix.tasks && !ix.tasks[t].status.IsTerminal() && p in Claims(ix.jobs[j].kind, ix.tasks[t])
  }

  lemma ReservedStep(ix: Index, j: JobId, i: nat)
    requires WellLinked(ix) && j in ix.jobs && i < |ix.jobs[j].tasks|
    ensures forall p :: ReservedBy(ix, j, i + 1, p) <==> ReservedBy(ix, j, i, p) || KeepsPath(ix, j, ix.jobs[j].tasks[i], p)
  {
    hide WellLinked, KeepsPath;
  }

  lemma ReservedAll(ix: Index)
    requires WellLinked(ix)
    ensures forall p :: p in ReservedPaths(ix) <==> exists j :: j in ix.listed && ReservedBy(ix, j, |ix.jobs[j].tasks|, p)
  {
    hide WellLinked, Claims;
  }
}
