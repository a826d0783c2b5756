/** Jobs, tasks and what each section under `Manager.mu` does to them
    (internal/download/types.go and internal/download/manager.go). */
module DownloadCore {
  import opened Utf8
  import opened Naming
  import opened Collision

  type Path = Bytes
  type JobId = nat
  type TaskId = nat

  datatype Status = Queued | Running | Completed | Failed | Cancelled {
    predicate IsTerminal() { Completed? || Failed? || Cancelled? }
  }

  /** The ugoira format pinned at submission. */
  datatype Format = Webp | Gif | Keep
  datatype Kind = Image | Ugoira(format: Format)

  /** `armed`: a cancel handle is set; `cancelled`: that handle was called. */
  datatype Task = Task(job: JobId, filePath: Path, metadataPath: Path, status: Status,
                       wroteFile: bool, wroteMetadata: bool, armed: bool, cancelled: bool)

  datatype Job = Job(kind: Kind, metadata: bool, status: Status, tasks: seq<TaskId>) {
    predicate Dead() { status.Failed? || status.Cancelled? }
  }

  /** Every job and task object; `listed` are the keys of `Manager.jobs`. */
  datatype Index = Index(jobs: map<JobId, Job>, tasks: map<TaskId, Task>, listed: set<JobId>)

  // ----- paths of a task -----

  const WEBP: Bytes := [0x2E, 0x77, 0x65, 0x62, 0x70]
  const GIF: Bytes := [0x2E, 0x67, 0x69, 0x66]

  function FormatExt(f: Format): (e: Bytes)
    ensures e != []
  {
    match f case Webp => WEBP case Gif => GIF case Keep => ZIP
  }

  function ReplaceExt(path: Path, ext: Bytes): (p: Path)
    ensures ext != [] ==> p != []
  {
    path[..|path| - |Ext(path)|] + ext
  }

  function Lower(b: byte): byte { if 0x41 <= b <= 0x5A then b + 0x20 else b }

  predicate IsZip(path: Path) {
    var e := Ext(path);
    |e| == 4 && Lower(e[1]) == 0x7A && Lower(e[2]) == 0x69 && Lower(e[3]) == 0x70
  }

  /** Where the finished media of a task will lie (`finalPathLocked`). */
  function FinalPath(kind: Kind, filePath: Path): Path {
    if filePath == [] || kind.Image? || kind.format.Keep? || !IsZip(filePath) then filePath
    else ReplaceExt(filePath, FormatExt(kind.format))
  }

  /** The paths a task keeps other tasks away from. */
  function Claims(kind: Kind, t: Task): set<Path> {
    {FinalPath(kind, t.filePath), t.filePath, t.metadataPath} - {[]}
  }

  // ----- aggregate status -----

  function Aggregate(st: seq<Status>): Status {
    if st == [] then Queued
    else if Cancelled in st then Cancelled
    else if Failed in st && Running !in st && Queued !in st then Failed
    else if Running in st then Running
    else if Queued in st then Queued
    else Completed
  }

  method AggregateStatus(st: seq<Status>) returns (r: Status)
    ensures r == Aggregate(st)
  {
    if |st| == 0 {
      return Queued;
    }
    var anyRunning, anyQueued, anyFailed, anyCancelled, allDone := false, false, false, false, true;
    for i := 0 to |st|
      invariant anyRunning <==> Running in st[..i]
      invariant anyQueued <==> Queued in st[..i]
      invariant anyFailed <==> Failed in st[..i]
      invariant anyCancelled <==> Cancelled in st[..i]
      invariant allDone <==> forall k :: 0 <= k < i ==> st[k] == Completed
    {
      assert st[..i + 1] == st[..i] + [st[i]];
      match st[i] {
        case Cancelled => anyCancelled, allDone := true, false;
        case Failed => anyFailed, allDone := true, false;
        case Running => anyRunning, allDone := true, false;
        case Queued => anyQueued, allDone := true, false;
        case Completed =>
      }
    }
    assert st[..|st|] == st;
    if anyCancelled {
      r := Cancelled;
    } else if anyFailed && !anyRunning && !anyQueued {
      r := Failed;
    } else if anyRunning {
      r := Running;
    } else if anyQueued {
      r := Queued;
    } else if allDone {
      r := Completed;
    } else {
      r := Running;
    }
  }

  /** What each aggregate means for the tasks; "failed" yields to any unfinished task. */
  lemma AggregateMeaning(st: seq<Status>)
    requires st != []
    ensures Aggregate(st) == Cancelled <==> Cancelled in st
    ensures Aggregate(st) == Completed <==> forall s :: s in st ==> s == Completed
    ensures Aggregate(st) == Failed <==> Failed in st && forall s :: s in st ==> s == Failed || s == Completed
    ensures (Aggregate(st) == Failed || Aggregate(st) == Completed) ==> forall s :: s in st ==> s.IsTerminal()
    ensures Aggregate(st).IsTerminal() <==> Cancelled in st || forall s :: s in st ==> s.IsTerminal()
  {
    if forall s :: s in st ==> s == Completed {
      assert st[0] in st;
    }
    if Aggregate(st) == Running || Aggregate(st) == Queued {
      assert Running in st || Queued in st;
    }
  }

  /** The order the documentation gives: cancelled, failed, running, queued, completed. */
  function Documented(st: seq<Status>): Status {
    if st == [] then Queued
    else if Cancelled in st then Cancelled
    else if Failed in st then Failed
    else if Running in st then Running
    else if Queued in st then Queued
    else Completed
  }

  /** The documented order is the one computed if and only if no failed task has an unfinished sibling,
      a cancelled one aside: [Failed, Running] is "running". */
  lemma DocumentedExact(st: seq<Status>)
    ensures Aggregate(st) == Documented(st) <==> Cancelled in st || Failed !in st || (Running !in st && Queued !in st)
    ensures Aggregate([Failed, Running]) == Running && Documented([Failed, Running]) == Failed
  {
    assert Failed in [Failed, Running] && Running in [Failed, Running];
  }

  // ----- sections under the lock -----

  function Statuses(tasks: map<TaskId, Task>, ids: seq<TaskId>): (st: seq<Status>)
    requires forall t :: t in ids ==> t in tasks
    ensures |st| == |ids| && forall i :: 0 <= i < |ids| ==> st[i] == tasks[ids[i]].status
  {
    seq(|ids|, i requires 0 <= i < |ids| => assert ids[i] in ids; tasks[ids[i]].status)
  }

  /** Paths recorded as written by one task. */
  predicate Recorded(t: Task, p: Path) {
    (t.wroteFile && p == t.filePath && p != []) || (t.wroteMetadata && p == t.metadataPath && p != [])
  }

  function TaskWritten(t: Task): (ps: seq<Path>)
    ensures forall p :: p in ps <==> Recorded(t, p)
  {
    (if t.wroteFile && t.filePath != [] then [t.filePath] else [])
    + (if t.wroteMetadata && t.metadataPath != [] then [t.metadataPath] else [])
  }

  function WrittenPaths(tasks: map<TaskId, Task>, ids: seq<TaskId>): (ps: seq<Path>)
    requires forall t :: t in ids ==> t in tasks
    ensures forall p :: p in ps <==> exists t :: t in ids && Recorded(tasks[t], p)
  {
    if ids == [] then []
    else TaskWritten(tasks[ids[0]]) + WrittenPaths(tasks, ids[1..])
  }

  /** `transitionTaskTerminalLocked`: a terminal task keeps its status. */
  function Settled(t: Task, to: Status): Task {
    if t.status.IsTerminal() then t else t.(status := to)
  }

  /** `resolveCancelled`. */
  function ResolveCancelled(t: Task, shutdown: bool): Task {
    if t.status.IsTerminal() then t
    else if shutdown then t.(status := Queued)
    else t.(status := Cancelled)
  }

  predicate WellLinked(ix: Index) {
    && (forall j :: j in ix.jobs ==> forall t :: t in ix.jobs[j].tasks ==> t in ix.tasks && ix.tasks[t].job == j)
    && (forall t :: t in ix.tasks ==> ix.tasks[t].job in ix.jobs && t in ix.jobs[ix.tasks[t].job].tasks)
    && ix.listed <= ix.jobs.Keys
  }

  function JobAggregate(ix: Index, j: JobId): Status
    requires WellLinked(ix) && j in ix.jobs
  {
    Aggregate(Statuses(ix.tasks, ix.jobs[j].tasks))
  }

  datatype Transition = Transition(ix: Index, cleanup: seq<Path>, changed: bool)

  /** `transitionJobLocked`. */
  function TransitionJob(ix: Index, j: JobId): (r: Transition)
    requires WellLinked(ix) && j in ix.jobs
  {
    var to := JobAggregate(ix, j);
    var ix' := ix.(jobs := ix.jobs[j := ix.jobs[j].(status := to)]);
    if ix.jobs[j].status == to then Transition(ix', [], false)
    else Transition(ix', if to.Failed? || to.Cancelled? then WrittenPaths(ix.tasks, ix.jobs[j].tasks) else [], true)
  }

  function CancelledTask(t: Task): Task {
    if t.status.IsTerminal() then t else t.(status := Cancelled, cancelled := t.cancelled || t.armed)
  }

  function CancelTasks(tasks: map<TaskId, Task>, ids: seq<TaskId>): (r: map<TaskId, Task>)
    ensures r.Keys == tasks.Keys
  {
    map t | t in tasks :: if t in ids then CancelledTask(tasks[t]) else tasks[t]
  }

  lemma CancelKeepsLinks(ix: Index, j: JobId)
    requires WellLinked(ix) && j in ix.jobs
    ensures WellLinked(ix.(tasks := CancelTasks(ix.tasks, ix.jobs[j].tasks)))
  {
  }

  /** The locked part of `Cancel` on a job that is not terminal. */
  function CancelJob(ix: Index, j: JobId): (r: Transition)
    requires WellLinked(ix) && j in ix.jobs
  {
    CancelKeepsLinks(ix, j);
    TransitionJob(ix.(tasks := CancelTasks(ix.tasks, ix.jobs[j].tasks)), j)
  }

  /** `leaseTask` on a task that is not terminal. */
  function Leased(ix: Index, t: TaskId): (r: Index)
    requires WellLinked(ix) && t in ix.tasks
  {
    var task := ix.tasks[t];
    var j := task.job;
    var ix' := ix.(tasks := ix.tasks[t := task.(status := Running, armed := true)]);
    if j in ix.listed then ix'.(jobs := ix.jobs[j := ix.jobs[j].(status := Running)]) else ix'
  }
}
