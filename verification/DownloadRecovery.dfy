/** `Manager.Start`: what a process does with the jobs an earlier one stored. */
module DownloadRecovery {
  import opened Utf8
  import opened Naming
  import opened Collision
  import opened DownloadCore
  import opened DownloadPaths
  import opened DownloadRun
  import opened DownloadInvariant
  import opened DownloadSteps
  import opened DownloadMoves
  import opened DownloadSubmission
  import opened DownloadRuns
  import opened DownloadStable
  import opened DownloadDisjoint

  /** A running task starts over; cancel handles are not stored. */
  function RestTask(t: Task): Task {
    t.(status := if t.status.Running? then Queued else t.status, armed := false, cancelled := false)
  }

  function RestAll(tasks: map<TaskId, Task>, ids: seq<TaskId>): (ts: seq<Task>)
    requires forall t :: t in ids ==> t in tasks
    ensures |ts| == |ids| && forall i :: 0 <= i < |ids| ==> ts[i] == RestTask(tasks[ids[i]])
  {
    seq(|ids|, i requires 0 <= i < |ids| => assert ids[i] in ids; RestTask(tasks[ids[i]]))
  }

  function StatusesOf(ts: seq<Task>): (st: seq<Status>)
    ensures |st| == |ts| && forall i :: 0 <= i < |ts| ==> st[i] == ts[i].status
  {
    seq(|ts|, i requires 0 <= i < |ts| => ts[i].status)
  }

  predicate HasUnfinished(ts: seq<Task>) { exists i :: 0 <= i < |ts| && !ts[i].status.IsTerminal() }

  /** One job's turn in the loop of `Start`. */
  function RestJob(ix: Index, j: JobId, reserved: set<Path>, disk: set<Path>, random: seq<seq<Bytes>>): (b: Batch)
    requires WellLinked(ix) && j in ix.jobs && Randoms(random, |ix.jobs[j].tasks|)
    ensures |b.tasks| == |ix.jobs[j].tasks|
  {
    var ts := RestAll(ix.tasks, ix.jobs[j].tasks);
    if HasUnfinished(ts) then PlaceAll(ix.jobs[j].kind, ix.jobs[j].metadata, ts, reserved, disk, random)
    else Batch(ts, reserved, true)
  }

  predicate OrderOk(ix: Index, order: seq<JobId>, random: seq<seq<seq<Bytes>>>) {
    && WellLinked(ix) && |random| == |order|
    && forall k :: 0 <= k < |order| ==> order[k] in ix.jobs && Randoms(random[k], |ix.jobs[order[k]].tasks|)
  }

  /** Paths reserved once the jobs of `order` had their turn. */
  function Reserve(ix: Index, order: seq<JobId>, disk: set<Path>, random: seq<seq<seq<Bytes>>>): set<Path>
    requires OrderOk(ix, order, random)
  {
    if order == [] then {}
    else
      var n := |order| - 1;
      RestJob(ix, order[n], Reserve(ix, order[..n], disk, random[..n]), disk, random[n]).reserved
  }

  function Turn(ix: Index, order: seq<JobId>, disk: set<Path>, random: seq<seq<seq<Bytes>>>, k: nat): (b: Batch)
    requires OrderOk(ix, order, random) && k < |order|
    ensures |b.tasks| == |ix.jobs[order[k]].tasks|
  {
    RestJob(ix, order[k], Reserve(ix, order[..k], disk, random[..k]), disk, random[k])
  }

  /** The tasks once the jobs of `order` had their turn. */
  function RecoverTasks(ix: Index, order: seq<JobId>, disk: set<Path>, random: seq<seq<seq<Bytes>>>): map<TaskId, Task>
    requires OrderOk(ix, order, random)
  {
    if order == [] then ix.tasks
    else
      var n := |order| - 1;
      WithTasks(RecoverTasks(ix, order[..n], disk, random[..n]), ix.jobs[order[n]].tasks, Turn(ix, order, disk, random, n).tasks)
  }

  function RecoverJobs(ix: Index): map<JobId, Job>
    requires WellLinked(ix)
  {
    map j | j in ix.jobs :: ix.jobs[j].(status := Aggregate(StatusesOf(RestAll(ix.tasks, ix.jobs[j].tasks))))
  }

  /** The index `Start` leaves behind; `order` lists the jobs newest first. */
  function Recover(ix: Index, order: seq<JobId>, disk: set<Path>, random: seq<seq<seq<Bytes>>>): Index
    requires OrderOk(ix, order, random)
  {
    Index(RecoverJobs(ix), RecoverTasks(ix, order, disk, random), ix.listed)
  }

  /** `toReenqueue`. */
  function Unfinished(tasks: map<TaskId, Task>, ids: seq<TaskId>): seq<TaskId>
    requires forall t :: t in ids ==> t in tasks
  {
    if ids == [] then []
    else Unfinished(tasks, ids[..|ids| - 1]) + (if RestTask(tasks[ids[|ids| - 1]]).status.Queued? then [ids[|ids| - 1]] else [])
  }

  function Enqueued(ix: Index, order: seq<JobId>): seq<TaskId>
    requires WellLinked(ix) && forall j :: j in order ==> j in ix.jobs
  {
    if order == [] then [] else Enqueued(ix, order[..|order| - 1]) + Unfinished(ix.tasks, ix.jobs[order[|order| - 1]].tasks)
  }

  ghost predicate Distinct<T>(ids: seq<T>) { forall i, k :: 0 <= i < k < |ids| ==> ids[i] != ids[k] }

  /** What the store holds: whole jobs, no task twice, and no unfinished task in a cancelled job. */
  ghost predicate Sound(ix: Index) {
    && WellLinked(ix)
    && (forall j :: j in ix.jobs ==> Distinct(ix.jobs[j].tasks))
    && (forall t :: t in ix.tasks && ix.tasks[t].status.Cancelled? ==> AllTerminal(ix, ix.jobs[ix.tasks[t].job].tasks))
  }

  /** `order` walks every job once. */
  ghost predicate Walk(ix: Index, order: seq<JobId>) {
    Distinct(order) && forall j :: j in order <==> j in ix.jobs
  }

  // ----- every task after recovery -----

  lemma {:induction false} RecoveredAt(ix: Index, order: seq<JobId>, disk: set<Path>, random: seq<seq<seq<Bytes>>>, k: nat, i: nat)
    requires Sound(ix) && OrderOk(ix, order, random) && Distinct(order) && k < |order| && i < |ix.jobs[order[k]].tasks|
    ensures var id := ix.jobs[order[k]].tasks[i]; var m := RecoverTasks(ix, order, disk, random);
      id in m && m[id] == Turn(ix, order, disk, random, k).tasks[i]
    decreases |order|
  {
    hide RestJob, WithTasks, AllTerminal;
    var n := |order| - 1;
    var ids := ix.jobs[order[n]].tasks;
    var before := RecoverTasks(ix, order[..n], disk, random[..n]);
    assert RecoverTasks(ix, order, disk, random) == WithTasks(before, ids, Turn(ix, order, disk, random, n).tasks);
    hide RecoverTasks;
    WithTasksAt(before, ids, Turn(ix, order, disk, random, n).tasks);
    if k < n {
      RecoveredAt(ix, order[..n], disk, random[..n], k, i);
      assert order[..n][k] == order[k] && order[..n][..k] == order[..k] && random[..n][..k] == random[..k];
      assert ix.jobs[order[k]].tasks[i] in ix.jobs[order[k]].tasks;
    }
  }

  lemma {:induction false} RecoveredKeys(ix: Index, order: seq<JobId>, disk: set<Path>, random: seq<seq<seq<Bytes>>>)
    requires Sound(ix) && OrderOk(ix, order, random)
    ensures RecoverTasks(ix, order, disk, random).Keys == ix.tasks.Keys
  {
    hide RestJob, WithTasks, AllTerminal;
    if order != [] {
      var n := |order| - 1;
      var ids := ix.jobs[order[n]].tasks;
      RecoveredKeys(ix, order[..n], disk, random[..n]);
      WithTasksAt(RecoverTasks(ix, order[..n], disk, random[..n]), ids, Turn(ix, order, disk, random, n).tasks);
      assert (set t | t in ids) <= ix.tasks.Keys;
    }
  }

  /** What recovery may do to one task: only an unfinished task that owns no output may move. */
  ghost predicate Resumed(kind: Kind, a: Task, b: Task) {
    && OnlyPathsDiffer(b, RestTask(a))
    && (a.status.IsTerminal() || a.wroteFile || a.wroteMetadata ==> b == RestTask(a))
  }

  lemma {:induction false} PlaceAllAt(kind: Kind, metadata: bool, ts: seq<Task>, reserved: set<Path>, disk: set<Path>,
                                      random: seq<seq<Bytes>>, i: nat)
    requires Randoms(random, |ts|) && i < |ts|
    ensures var r := PlaceAll(kind, metadata, ts, reserved, disk, random).tasks[i];
      OnlyPathsDiffer(r, ts[i]) && (ts[i].status.IsTerminal() || ts[i].wroteFile || ts[i].wroteMetadata ==> r == ts[i])
    decreases |ts|
  {
    hide Resolved, Checked, FinalPath, AltExt, Claims;
    var n := |ts| - 1;
    var front := PlaceAll(kind, metadata, ts[..n], reserved, disk, random[..n]);
    var last := Place(kind, metadata, ts[n], front.reserved, disk, random[n]);
    assert ts[n].status.IsTerminal() || ts[n].wroteFile || ts[n].wroteMetadata ==> last.task == ts[n];
    hide Place;
    assert PlaceAll(kind, metadata, ts, reserved, disk, random).tasks == front.tasks + [last.task];
    hide PlaceAll, OnlyPathsDiffer;
    if i < n {
      PlaceAllAt(kind, metadata, ts[..n], reserved, disk, random[..n], i);
    }
  }

  lemma TurnAt(ix: Index, order: seq<JobId>, disk: set<Path>, random: seq<seq<seq<Bytes>>>, k: nat, i: nat)
    requires OrderOk(ix, order, random) && k < |order| && i < |ix.jobs[order[k]].tasks|
    ensures var id := ix.jobs[order[k]].tasks[i];
      id in ix.tasks && Resumed(ix.jobs[order[k]].kind, ix.tasks[id], Turn(ix, order, disk, random, k).tasks[i])
  {
    hide PlaceAll, Reserve, WellLinked;
    var job := ix.jobs[order[k]];
    LinkedTasks(ix, order[k]);
    var ts := RestAll(ix.tasks, job.tasks);
    if HasUnfinished(ts) {
      PlaceAllAt(job.kind, job.metadata, ts, Reserve(ix, order[..k], disk, random[..k]), disk, random[k], i);
    }
  }

  lemma LinkedTasks(ix: Index, j: JobId)
    requires WellLinked(ix) && j in ix.jobs
    ensures forall t :: t in ix.jobs[j].tasks ==> t in ix.tasks && ix.tasks[t].job == j
  {
  }

  /** Recovery leaves finished tasks as they are, makes every other task queued, and keeps the paths
      of tasks with recorded output. */
  lemma RecoveredTask(ix: Index, order: seq<JobId>, disk: set<Path>, random: seq<seq<seq<Bytes>>>, t: TaskId)
    requires Sound(ix) && OrderOk(ix, order, random) && Walk(ix, order) && t in ix.tasks
    ensures var m := RecoverTasks(ix, order, disk, random); t in m && Resumed(ix.jobs[ix.tasks[t].job].kind, ix.tasks[t], m[t])
    ensures var r := RecoverTasks(ix, order, disk, random)[t].status; r == if ix.tasks[t].status.IsTerminal() then ix.tasks[t].status else Queued
  {
    var k, i := TurnOf(ix, order, t);
    hide RecoverTasks, Turn, Sound;
    RecoveredAt(ix, order, disk, random, k, i);
    TurnAt(ix, order, disk, random, k, i);
  }

  lemma TurnOf(ix: Index, order: seq<JobId>, t: TaskId) returns (k: nat, i: nat)
    requires WellLinked(ix) && Walk(ix, order) && t in ix.tasks
    ensures k < |order| && order[k] == ix.tasks[t].job && order[k] in ix.jobs
    ensures i < |ix.jobs[order[k]].tasks| && ix.jobs[order[k]].tasks[i] == t
  {
    k :| 0 <= k < |order| && order[k] == ix.tasks[t].job;
    i :| 0 <= i < |ix.jobs[order[k]].tasks| && ix.jobs[order[k]].tasks[i] == t;
  }

  // ----- the queue -----

  lemma {:induction false} UnfinishedOnce(tasks: map<TaskId, Task>, ids: seq<TaskId>, t: TaskId)
    requires (forall u :: u in ids ==> u in tasks) && Distinct(ids)
    ensures multiset(Unfinished(tasks, ids))[t] == if t in ids && !tasks[t].status.IsTerminal() then 1 else 0
  {
    if ids != [] {
      var n := |ids| - 1;
      UnfinishedOnce(tasks, ids[..n], t);
      assert ids == ids[..n] + [ids[n]];
      assert ids[n] !in ids[..n];
    }
  }

  lemma NotBefore(order: seq<JobId>)
    requires order != [] && Distinct(order)
    ensures order[|order| - 1] !in order[..|order| - 1]
  {
  }

  lemma OwnTasks(ix: Index, j: JobId, t: TaskId)
    requires Sound(ix) && j in ix.jobs && t in ix.tasks
    ensures Distinct(ix.jobs[j].tasks) && forall u :: u in ix.jobs[j].tasks ==> u in ix.tasks
    ensures t in ix.jobs[j].tasks <==> ix.tasks[t].job == j
  {
    hide AllTerminal;
  }

  /** Every unfinished task is enqueued exactly once and no other task at all. */
  lemma {:induction false} EnqueuedOnce(ix: Index, order: seq<JobId>, t: TaskId)
    requires Sound(ix) && Distinct(order) && forall j :: j in order ==> j in ix.jobs
    requires t in ix.tasks
    ensures multiset(Enqueued(ix, order))[t] == if ix.tasks[t].job in order && !ix.tasks[t].status.IsTerminal() then 1 else 0
  {
    hide AllTerminal, Unfinished;
    if order != [] {
      var n := |order| - 1;
      var front := order[..n];
      assert order == front + [order[n]];
      EnqueuedOnce(ix, front, t);
      OwnTasks(ix, order[n], t);
      hide Sound, WellLinked, Distinct;
      UnfinishedOnce(ix.tasks, ix.jobs[order[n]].tasks, t);
      NotBefore(order);
    }
  }

  // ----- paths that stay -----

  /** A task whose path survives: finished, owning an output, or still free under a proper name. */
  ghost predicate Settles(kind: Kind, metadata: bool, t: Task, disk: set<Path>) {
    || t.status.IsTerminal() || t.wroteFile || t.wroteMetadata
    || (Unwritten(kind, metadata, t) && Tidy(kind, metadata, t) && Parts(FinalPath(kind, t.filePath)).stem != [] && Claims(kind, t) !! disk)
  }

  lemma SettledPlace(kind: Kind, metadata: bool, t: Task, reserved: set<Path>, disk: set<Path>, random: seq<Bytes>)
    requires IsRandom(random) && Settles(kind, metadata, t, disk)
    requires !t.status.IsTerminal() ==> Claims(kind, t) !! reserved
    ensures var r := Place(kind, metadata, t, reserved, disk, random);
      && r.task == t && r.checked
      && r.reserved <= reserved + (if t.status.IsTerminal() then {} else Claims(kind, t))
  {
    hide FinalPath, Claims, Parts, AltExt, Resolved, Checked, Unwritten, Tidy;
    if !t.status.IsTerminal() && !t.wroteFile && !t.wroteMetadata {
      StablePlace(kind, metadata, t, reserved, disk, random);
    }
  }

  function LiveClaims(kind: Kind, ts: seq<Task>): set<Path> {
    set i, p | 0 <= i < |ts| && !ts[i].status.IsTerminal() && p in Claims(kind, ts[i]) :: p
  }

  ghost predicate ApartTasks(kind: Kind, ts: seq<Task>) {
    forall i, k :: 0 <= i < k < |ts| && !ts[i].status.IsTerminal() && !ts[k].status.IsTerminal() ==> Claims(kind, ts[i]) !! Claims(kind, ts[k])
  }

  lemma {:induction false} PlaceAllStays(kind: Kind, metadata: bool, ts: seq<Task>, reserved: set<Path>, disk: set<Path>,
                                         random: seq<seq<Bytes>>)
    requires Randoms(random, |ts|) && ApartTasks(kind, ts) && LiveClaims(kind, ts) !! reserved
    requires forall i :: 0 <= i < |ts| ==> Settles(kind, metadata, ts[i], disk)
    ensures var b := PlaceAll(kind, metadata, ts, reserved, disk, random);
      b.tasks == ts && b.checked && b.reserved <= reserved + LiveClaims(kind, ts)
    decreases |ts|
  {
    hide Place, Claims, Settles;
    if ts != [] {
      var n := |ts| - 1;
      var front := PlaceAll(kind, metadata, ts[..n], reserved, disk, random[..n]);
      var last := Place(kind, metadata, ts[n], front.reserved, disk, random[n]);
      assert PlaceAll(kind, metadata, ts, reserved, disk, random)
          == Batch(front.tasks + [last.task], last.reserved, front.checked && last.checked);
      hide PlaceAll;
      LiveSplit(kind, ts);
      PlaceAllStays(kind, metadata, ts[..n], reserved, disk, random[..n]);
      SettledPlace(kind, metadata, ts[n], front.reserved, disk, random[n]);
      assert ts == ts[..n] + [ts[n]];
    }
  }

  lemma LiveSplit(kind: Kind, ts: seq<Task>)
    requires ts != [] && ApartTasks(kind, ts)
    ensures var n := |ts| - 1; var own := if ts[n].status.IsTerminal() then {} else Claims(kind, ts[n]);
      LiveClaims(kind, ts) == LiveClaims(kind, ts[..n]) + own && LiveClaims(kind, ts[..n]) !! own && ApartTasks(kind, ts[..n])
  {
    hide Claims;
    var n := |ts| - 1;
    var own := if ts[n].status.IsTerminal() then {} else Claims(kind, ts[n]);
    forall p ensures p in LiveClaims(kind, ts) <==> p in LiveClaims(kind, ts[..n]) + own {
      if i :| 0 <= i < |ts| && !ts[i].status.IsTerminal() && p in Claims(kind, ts[i]) {
        if i < n {
          assert ts[..n][i] == ts[i];
        }
      }
      if i :| 0 <= i < n && !ts[..n][i].status.IsTerminal() && p in Claims(kind, ts[..n][i]) {
        assert ts[..n][i] == ts[i];
      }
      if p in own {
        assert !ts[n].status.IsTerminal() && p in Claims(kind, ts[n]);
      }
    }
  }

  /** What a stored snapshot must be like for every path to stay. */
  ghost predicate Undisturbed(ix: Index, disk: set<Path>)
    requires WellLinked(ix)
  {
    && Apart(ix)
    && forall t :: t in ix.tasks ==>
         Settles(ix.jobs[ix.tasks[t].job].kind, ix.jobs[ix.tasks[t].job].metadata, RestTask(ix.tasks[t]), disk)
  }

  function JobClaims(ix: Index, j: JobId): set<Path>
    requires WellLinked(ix) && j in ix.jobs
  {
    LiveClaims(ix.jobs[j].kind, RestAll(ix.tasks, ix.jobs[j].tasks))
  }

  lemma JobApart(ix: Index, j: JobId)
    requires Sound(ix) && Apart(ix) && j in ix.jobs
    ensures ApartTasks(ix.jobs[j].kind, RestAll(ix.tasks, ix.jobs[j].tasks))
  {
    LinkedTasks(ix, j);
    var ids := ix.jobs[j].tasks;
    var ts := RestAll(ix.tasks, ids);
    assert Distinct(ids);
    hide WellLinked, AllTerminal, Sound;
    forall i, k | 0 <= i < k < |ts| && !ts[i].status.IsTerminal() && !ts[k].status.IsTerminal()
      ensures Claims(ix.jobs[j].kind, ts[i]) !! Claims(ix.jobs[j].kind, ts[k])
    {
      assert ids[i] in ids && ids[k] in ids;
      RestClaims(ix, ids[i]);
      RestClaims(ix, ids[k]);
      hide Claims, RestTask;
      assert ClaimsOf(ix, ids[i]) !! ClaimsOf(ix, ids[k]);
    }
  }

  lemma RestClaims(ix: Index, t: TaskId)
    requires t in ix.tasks && ix.tasks[t].job in ix.jobs
    ensures Claims(ix.jobs[ix.tasks[t].job].kind, RestTask(ix.tasks[t])) == ClaimsOf(ix, t)
    ensures RestTask(ix.tasks[t]).status.IsTerminal() == ix.tasks[t].status.IsTerminal()
  {
  }

  lemma JobsApart(ix: Index, i: JobId, j: JobId)
    requires Sound(ix) && Apart(ix) && i in ix.jobs && j in ix.jobs && i != j
    ensures JobClaims(ix, i) !! JobClaims(ix, j)
  {
    LinkedTasks(ix, i);
    LinkedTasks(ix, j);
    hide WellLinked, AllTerminal, Sound;
    forall p | p in JobClaims(ix, i) ensures p !in JobClaims(ix, j) {
      var t := JobClaimant(ix, i, p);
      if p in JobClaims(ix, j) {
        var u := JobClaimant(ix, j, p);
      }
    }
  }

  lemma JobClaimant(ix: Index, j: JobId, p: Path) returns (t: TaskId)
    requires WellLinked(ix) && j in ix.jobs && p in JobClaims(ix, j)
    ensures IsLive(ix, t) && ix.tasks[t].job == j && p in ClaimsOf(ix, t)
  {
    LinkedTasks(ix, j);
    hide WellLinked, Claims;
    var ids := ix.jobs[j].tasks;
    var ts := RestAll(ix.tasks, ids);
    var i :| 0 <= i < |ts| && !ts[i].status.IsTerminal() && p in Claims(ix.jobs[j].kind, ts[i]);
    t := ids[i];
    assert t in ids;
    RestClaims(ix, t);
  }

  lemma RestStays(ix: Index, j: JobId, reserved: set<Path>, disk: set<Path>, random: seq<seq<Bytes>>)
    requires Sound(ix) && Undisturbed(ix, disk) && j in ix.jobs && Randoms(random, |ix.jobs[j].tasks|)
    requires JobClaims(ix, j) !! reserved
    ensures var b := RestJob(ix, j, reserved, disk, random);
      b.tasks == RestAll(ix.tasks, ix.jobs[j].tasks) && b.reserved <= reserved + JobClaims(ix, j)
  {
    LinkedTasks(ix, j);
    JobApart(ix, j);
    var ts := RestAll(ix.tasks, ix.jobs[j].tasks);
    assert forall i :: 0 <= i < |ts| ==> ix.jobs[j].tasks[i] in ix.jobs[j].tasks;
    hide WellLinked, AllTerminal, Sound, Settles, Apart;
    if HasUnfinished(ts) {
      hide HasUnfinished, ApartTasks, LiveClaims, PlaceAll;
      PlaceAllStays(ix.jobs[j].kind, ix.jobs[j].metadata, ts, reserved, disk, random);
    }
  }

  lemma {:induction false} ReserveStays(ix: Index, order: seq<JobId>, disk: set<Path>, random: seq<seq<seq<Bytes>>>)
    requires Sound(ix) && Undisturbed(ix, disk) && OrderOk(ix, order, random) && Distinct(order)
    ensures forall p :: p in Reserve(ix, order, disk, random) ==> exists k :: 0 <= k < |order| && p in JobClaims(ix, order[k])
    decreases |order|
  {
    assert Apart(ix);
    hide RestJob, JobClaims, Sound, Undisturbed, Apart, WellLinked;
    if order != [] {
      var n := |order| - 1;
      ReserveStays(ix, order[..n], disk, random[..n]);
      var before := Reserve(ix, order[..n], disk, random[..n]);
      EarlierApart(ix, order, before, n);
      RestStays(ix, order[n], before, disk, random[n]);
      forall p | p in Reserve(ix, order, disk, random) ensures exists k :: 0 <= k < |order| && p in JobClaims(ix, order[k]) {
        if p in before {
          var k :| 0 <= k < n && p in JobClaims(ix, order[..n][k]);
          assert p in JobClaims(ix, order[k]);
        } else {
          assert p in JobClaims(ix, order[n]);
        }
      }
    }
  }

  lemma EarlierApart(ix: Index, order: seq<JobId>, before: set<Path>, n: nat)
    requires WellLinked(ix) && Sound(ix) && Apart(ix) && n < |order| && Distinct(order) && forall k :: 0 <= k <= n ==> order[k] in ix.jobs
    requires forall p :: p in before ==> exists k :: 0 <= k < n && p in JobClaims(ix, order[..n][k])
    ensures JobClaims(ix, order[n]) !! before
  {
    hide Apart, JobClaims, Sound;
    forall p | p in before ensures p !in JobClaims(ix, order[n]) {
      var k :| 0 <= k < n && p in JobClaims(ix, order[..n][k]);
      JobsApart(ix, order[k], order[n]);
    }
  }

  /** From disjoint paths none of which has appeared on disk unwritten, recovery changes no path at all. */
  lemma RecoveryKeepsPaths(ix: Index, order: seq<JobId>, disk: set<Path>, random: seq<seq<seq<Bytes>>>, t: TaskId)
    requires Sound(ix) && Undisturbed(ix, disk) && OrderOk(ix, order, random) && Walk(ix, order) && t in ix.tasks
    ensures var m := RecoverTasks(ix, order, disk, random); t in m && m[t] == RestTask(ix.tasks[t])
  {
    assert Distinct(order) && Apart(ix);
    hide RecoverTasks, Sound, RestJob, Undisturbed, Apart, JobClaims, Turn;
    var k, i := TurnOf(ix, order, t);
    RecoveredAt(ix, order, disk, random, k, i);
    hide Walk;
    TurnStays(ix, order, disk, random, k);
  }

  lemma TurnStays(ix: Index, order: seq<JobId>, disk: set<Path>, random: seq<seq<seq<Bytes>>>, k: nat)
    requires Sound(ix) && Undisturbed(ix, disk) && OrderOk(ix, order, random) && Distinct(order) && Apart(ix) && k < |order|
    ensures forall t :: t in ix.jobs[order[k]].tasks ==> t in ix.tasks
    ensures Turn(ix, order, disk, random, k).tasks == RestAll(ix.tasks, ix.jobs[order[k]].tasks)
  {
    LinkedTasks(ix, order[k]);
    hide Sound, RestJob, Undisturbed, Apart, JobClaims, WellLinked;
    ReserveStays(ix, order[..k], disk, random[..k]);
    var before := Reserve(ix, order[..k], disk, random[..k]);
    EarlierApart(ix, order, before, k);
    RestStays(ix, order[k], before, disk, random[k]);
  }
}
