/** A run in which a completed task loses its file: it was submitted onto the path of a cancelled task
    whose worker was still draining. */
module DownloadOvertaken {
  import opened Utf8
  import opened Naming
  import opened Collision
  import opened Decimals
  import opened DownloadCore
  import opened DownloadPaths
  import opened DownloadRun
  import opened DownloadSafety
  import opened DownloadInvariant
  import opened DownloadSteps
  import opened DownloadSubmission
  import opened DownloadRuns
  import opened DownloadStable
  import opened DownloadDisjoint
  import opened DownloadTouch
  import opened DownloadPresent
  import opened DownloadRestart
  import opened DownloadLeftover
  import opened DownloadMishap

  const FILE: Path := [0x61]
  const PART1: Path := PartPath(FILE, 1)
  const PART2: Path := PartPath(FILE, 2)

  function First(status: Status, armed: bool, cancelled: bool): Task { Task(1, FILE, [], status, false, false, armed, cancelled) }

  function Second(status: Status, wrote: bool, armed: bool): Task { Task(2, FILE, [], status, wrote, false, armed, false) }

  function Job1(status: Status): Job { Job(Image, false, status, [1]) }

  function Job2(status: Status): Job { Job(Image, false, status, [2]) }

  function Alone(j: Status, t: Task): Index { Index(map[1 := Job1(j)], map[1 := t], {1}) }

  function Both(j: Status, t: Task): Index { Index(map[1 := Job1(Cancelled), 2 := Job2(j)], map[1 := LATE, 2 := t], {1, 2}) }

  /** Two workers; the cancelled first task stays with worker 0. */
  function Now(ix: Index, queue: multiset<TaskId>, w0: Worker, w1: Worker, disk: map<Path, Owner>,
               staged: map<JobId, seq<Path>>, written: set<(JobId, Path)>, events: multiset<JobId>): State
  {
    State(ix, queue, map[0 := w0, 1 := w1], disk, staged, NoSave, multiset{}, written, {}, {}, events,
          Alone(Queued, First(Queued, false, false)), {}, false)
  }

  const LATE: Task := First(Cancelled, true, true)

  const S0: State := Now(Alone(Queued, First(Queued, false, false)), multiset{1}, Idle, Idle, map[], map[], {}, multiset{})

  function Fetching(stage: Stage, disk: map<Path, Owner>): State {
    Now(Alone(Running, First(Running, true, false)), multiset{}, Busy(1, stage), Idle, disk, map[], {}, multiset{})
  }

  const CANCELLED1: State :=
    Now(Alone(Cancelled, LATE), multiset{}, Busy(1, Transfer(PART1)), Idle, map[PART1 := By(1)], map[1 := []], {}, multiset{1})

  const SUBMITTED: State :=
    Now(Both(Queued, Second(Queued, false, false)), multiset{2}, Busy(1, Transfer(PART1)), Idle, map[PART1 := By(1)], map[1 := []], {}, multiset{1})

  function Racing(t: Task, first: Stage, second: Stage, disk: map<Path, Owner>, written: set<(JobId, Path)>): State {
    Now(Both(Running, t), multiset{}, Busy(1, first), Busy(2, second), disk, map[1 := []], written, multiset{1})
  }

  lemma Paths()
    ensures PART1 != FILE && PART2 != FILE && PART1 != PART2 && !IsPart(FILE)
  {
    assert Decimal(1) == [0x31] && Decimal(2) == [0x32];
    assert DirLen(FILE) == 0 by { assert forall i :: 0 <= i < |FILE| ==> FILE[i] != SLASH; }
    hide DirLen;
    assert PART1[10] == 0x31 && PART2[10] == 0x32;
    assert |FILE| == 1;
  }

  lemma Linked(j: Status, t: Task)
    requires t.job == 1
    ensures WellLinked(Alone(j, t)) && JobAggregate(Alone(j, t), 1) == Aggregate([t.status])
  {
    assert Statuses(Alone(j, t).tasks, [1]) == [t.status];
  }

  lemma LinkedBoth(j: Status, t: Task)
    requires t.job == 2
    ensures WellLinked(Both(j, t))
  {
  }

  lemma StartsRun()
    ensures Init(S0)
  {
    Linked(Queued, First(Queued, false, false));
    hide IsPart, PartPath;
    assert RestedJob(S0.ix, 1) by { assert Queued in [Queued]; }
    assert RestedTask(S0, 1);
  }

  lemma StartsIntact()
    ensures Shapes(S0) && Intact(S0)
  {
    Paths();
    hide IsPart, PartPath, WellLinked;
    assert forall w, t :: !Placed?(S0, w, t);
    assert forall p :: !Scheduled(S0, p) by { assert forall j: JobId, p :: !Owed(S0, j, p); }
    hide Scheduled;
    assert ClaimsOf(S0.ix, 1) == {FILE};
    assert Guarded(S0, 1) && Complete(S0, 1) by { hide Matters; }
    assert Separate(S0) by { hide Holding, Retired; }
    hide Separate, Guarded, Complete, HasFiles, Retired, Claims;
  }

  /** A worker's step from one such state to the next. */
  lemma Worker0(ix: Index, t: Task, stage: Stage, s: State, e: Effect, s': State)
    requires s.ix == ix && WellLinked(ix) && 1 in ix.tasks && ix.tasks[1] == t && t.job == 1 && 1 in ix.jobs
    requires 0 in s.workers && s.workers[0] == Busy(1, stage) && !s.shutdown
    requires CanAct(ix.jobs[1], 1, t, stage, Good, s.disk, false)
    requires e == Act(ix.jobs[1], 1, t, stage, Good, false, s.disk, false)
    requires s' == Worked(s, 0, e)
    ensures IsStep(s, Work(0, Good, false), s')
  {
    hide Act, CanAct, WellLinked, Worked;
  }

  lemma Worker1(ix: Index, t: Task, stage: Stage, s: State, e: Effect, s': State)
    requires s.ix == ix && WellLinked(ix) && 2 in ix.tasks && ix.tasks[2] == t && t.job == 2 && 2 in ix.jobs
    requires 1 in s.workers && s.workers[1] == Busy(2, stage) && !s.shutdown
    requires CanAct(ix.jobs[2], 2, t, stage, Good, s.disk, false)
    requires e == Act(ix.jobs[2], 2, t, stage, Good, false, s.disk, false)
    requires s' == Worked(s, 1, e)
    ensures IsStep(s, Work(1, Good, false), s')
  {
    hide Act, CanAct, WellLinked, Worked;
  }

  /** The first task gets as far as its part file. */
  lemma Begins1()
    ensures IsStep(S0, Lease(0, 1), Fetching(Reuse, map[]))
  {
    Linked(Queued, First(Queued, false, false));
    LeaseOne();
    hide WellLinked, Leased;
    assert S0.queue - multiset{1} == multiset{};
    assert S0.workers[0 := Busy(1, Reuse)] == Fetching(Reuse, map[]).workers;
  }

  lemma LeaseOne()
    ensures WellLinked(S0.ix) && Leased(S0.ix, 1) == Alone(Running, First(Running, true, false))
  {
    Linked(Queued, First(Queued, false, false));
    assert Leased(S0.ix, 1).jobs == map[1 := Job1(Running)];
    assert Leased(S0.ix, 1).tasks == map[1 := First(Running, true, false)];
  }

  lemma WorkedFirst(stage: Stage, disk: map<Path, Owner>, e: Effect)
    requires e.task == First(Running, true, false) && e.drop == [] && e.recorded == {} && e.stuck == {} && !e.unread
    ensures Worked(Fetching(stage, disk), 0, e) == Fetching(e.stage, e.disk)
  {
    var s := Fetching(stage, disk);
    assert Removals(1, [], false) == multiset{};
    assert s.ix.tasks[1 := e.task] == s.ix.tasks;
    assert s.workers[0 := Busy(1, e.stage)] == Fetching(e.stage, e.disk).workers;
    assert Worked(s, 0, e).written == s.written;
  }

  lemma Fetches()
    ensures IsStep(Fetching(Reuse, map[]), Work(0, Good, false), Fetching(Fetch, map[]))
    ensures IsStep(Fetching(Fetch, map[]), Work(0, Good, false), Fetching(Transfer(PART1), map[PART1 := By(1)]))
  {
    hide PartPath, IsStep, Worked;
    var t := First(Running, true, false);
    Linked(Running, t);
    hide WellLinked, JobAggregate;
    WorkedFirst(Reuse, map[], Effect(t, Fetch, map[], [], {}, {}, false));
    WorkedFirst(Fetch, map[], Effect(t, Transfer(PART1), map[PART1 := By(1)], [], {}, {}, false));
    Worker0(Alone(Running, t), t, Reuse, Fetching(Reuse, map[]), Effect(t, Fetch, map[], [], {}, {}, false), Fetching(Fetch, map[]));
    Worker0(Alone(Running, t), t, Fetch, Fetching(Fetch, map[]), Effect(t, Transfer(PART1), map[PART1 := By(1)], [], {}, {}, false),
            Fetching(Transfer(PART1), map[PART1 := By(1)]));
  }

  /** The user cancels while the transfer is under way. */
  lemma Cancels1()
    ensures IsStep(Fetching(Transfer(PART1), map[PART1 := By(1)]), CancelStep(1), CANCELLED1)
  {
    hide PartPath, WellLinked, JobAggregate, CancelJob, Moved;
    CancelIs();
    MovedIs();
  }

  lemma MovedIs()
    ensures Moved(Fetching(Transfer(PART1), map[PART1 := By(1)]), 1, Transition(Alone(Cancelled, LATE), [], true)) == CANCELLED1
  {
    hide PartPath;
    var s := Fetching(Transfer(PART1), map[PART1 := By(1)]);
    var none: seq<Path> := [];
    assert s.staged == map[] && Get(s.staged, 1) + none == none;
    assert s.events + multiset{1} == multiset{1};
  }

  lemma CancelIs()
    ensures WellLinked(Alone(Running, First(Running, true, false)))
    ensures CancelJob(Alone(Running, First(Running, true, false)), 1) == Transition(Alone(Cancelled, LATE), [], true)
  {
    var ix := Alone(Running, First(Running, true, false));
    Linked(Running, First(Running, true, false));
    Linked(Running, LATE);
    assert CancelTasks(ix.tasks, [1]) == map[1 := LATE];
    assert Aggregate([Cancelled]) == Cancelled by { assert Cancelled in [Cancelled]; }
    assert WrittenPaths(map[1 := LATE], [1]) == [] by { assert [1][1..] == []; }
    hide WellLinked, JobAggregate, WrittenPaths, CancelTasks, Aggregate;
    assert ix.(tasks := CancelTasks(ix.tasks, [1])) == Alone(Running, LATE);
    assert TransitionJob(Alone(Running, LATE), 1).ix.jobs == map[1 := Job1(Cancelled)];
  }

  // ----- the second submission -----

  lemma PlainName()
    ensures Parts(FILE).stem == FILE && DirLen(FILE) == 0
  {
    assert DirLen(FILE) == 0 by { assert forall i :: 0 <= i < |FILE| ==> FILE[i] != SLASH; }
    hide DirLen;
    assert FILE[0..] == FILE && Ext(FILE) == [];
  }

  lemma GetsFile(random: seq<seq<Bytes>>)
    requires Randoms(random, 1)
    ensures var b := PlaceAll(Image, false, [Second(Queued, false, false)], ReservedPaths(CANCELLED1.ix), {PART1}, random);
      b.tasks == [Second(Queued, false, false)] && b.checked
  {
    Paths();
    PlainName();
    var t := Second(Queued, false, false);
    assert ReservedPaths(CANCELLED1.ix) == {};
    hide Ext, Parts, DirLen, PartPath, IsPart, ReservedPaths;
    FinalIsFile(Image, FILE);
    assert Claims(Image, t) == {FILE};
    assert Tidy(Image, false, t) && Unwritten(Image, false, t);
    hide FinalPath, Tidy, Unwritten, Claims;
    StablePlace(Image, false, t, {}, {PART1}, random[0]);
    hide Place;
    assert [t][..0] == [] && random[..0] == [];
  }

  lemma SecondIndex(random: seq<seq<Bytes>>)
    requires Randoms(random, 1)
    ensures Submitted(CANCELLED1.ix, 2, Job2(Queued), [Second(Queued, false, false)], {PART1}, random) == SUBMITTED.ix
  {
    hide PlaceAll, ReservedPaths, PartPath;
    GetsFile(random);
    var t := Second(Queued, false, false);
    assert WithTasks(CANCELLED1.ix.tasks, [2], [t]) == SUBMITTED.ix.tasks by {
      assert [2][..0] == [] && [t][..0] == [];
    }
    assert CANCELLED1.ix.jobs[2 := Job2(Queued)] == SUBMITTED.ix.jobs;
  }

  lemma Submits2(random: seq<seq<Bytes>>)
    requires Randoms(random, 1)
    ensures IsStep(CANCELLED1, Submit(2, Job2(Queued), [Second(Queued, false, false)], random), SUBMITTED)
  {
    hide PartPath, WellLinked, Submitted;
    Linked(Cancelled, LATE);
    SecondIndex(random);
    assert IsNewTask(2, Job2(Queued), Second(Queued, false, false));
    assert CANCELLED1.disk.Keys == {PART1};
    assert CANCELLED1.queue + multiset(Job2(Queued).tasks) == SUBMITTED.queue;
  }

  lemma LeaseTwo()
    ensures WellLinked(SUBMITTED.ix) && Leased(SUBMITTED.ix, 2) == Both(Running, Second(Running, false, true))
  {
    LinkedBoth(Queued, Second(Queued, false, false));
    hide WellLinked;
    assert Leased(SUBMITTED.ix, 2).jobs == Both(Running, Second(Running, false, true)).jobs;
    assert Leased(SUBMITTED.ix, 2).tasks == Both(Running, Second(Running, false, true)).tasks;
  }

  const RUNS2: Task := Second(Running, false, true)
  const DONE2: Task := Second(Completed, true, true)

  lemma Begins2()
    ensures IsStep(SUBMITTED, Lease(1, 2), Racing(RUNS2, Transfer(PART1), Reuse, map[PART1 := By(1)], {}))
  {
    LeaseTwo();
    hide WellLinked, Leased, PartPath;
    assert SUBMITTED.queue - multiset{2} == multiset{};
    assert SUBMITTED.workers[1 := Busy(2, Reuse)] == Racing(RUNS2, Transfer(PART1), Reuse, map[PART1 := By(1)], {}).workers;
  }

  lemma WorkedSecond(t: Task, stage: Stage, disk: map<Path, Owner>, e: Effect, written: set<(JobId, Path)>)
    requires t.job == 2 && e.task.job == 2 && e.drop == [] && e.stuck == {} && !e.unread
    requires written == set p | p in e.recorded :: (2, p)
    requires Second(e.task.status, e.task.wroteFile, e.task.armed) == e.task && Second(t.status, t.wroteFile, t.armed) == t
    ensures Worked(Racing(t, Transfer(PART1), stage, disk, {}), 1, e) == Racing(e.task, Transfer(PART1), e.stage, e.disk, written)
  {
    hide PartPath;
    var s := Racing(t, Transfer(PART1), stage, disk, {});
    assert Removals(2, [], false) == multiset{};
    assert s.ix.tasks[2 := e.task] == Both(Running, e.task).tasks;
    assert s.workers[1 := Busy(2, e.stage)] == Racing(e.task, Transfer(PART1), e.stage, e.disk, written).workers;
    assert Worked(s, 1, e).written == written;
  }

  const TWO: map<Path, Owner> := map[PART1 := By(1), PART2 := By(2)]
  const HERS: map<Path, Owner> := map[PART1 := By(1), FILE := By(2)]

  /** The second task fetches, and completes with its file on disk. */
  lemma Fetches2()
    ensures IsStep(Racing(RUNS2, Transfer(PART1), Reuse, map[PART1 := By(1)], {}), Work(1, Good, false),
                   Racing(RUNS2, Transfer(PART1), Fetch, map[PART1 := By(1)], {}))
    ensures IsStep(Racing(RUNS2, Transfer(PART1), Fetch, map[PART1 := By(1)], {}), Work(1, Good, false),
                   Racing(RUNS2, Transfer(PART1), Transfer(PART2), TWO, {}))
  {
    hide PartPath, IsStep, WellLinked, Worked, IsPart;
    LinkedBoth(Running, RUNS2);
    Step2(Reuse, Fetch, map[PART1 := By(1)], map[PART1 := By(1)]);
    Step2(Fetch, Transfer(PART2), map[PART1 := By(1)], TWO);
  }

  lemma Renames2()
    ensures IsStep(Racing(RUNS2, Transfer(PART1), Transfer(PART2), TWO, {}), Work(1, Good, false),
                   Racing(RUNS2, Transfer(PART1), Renamed, HERS, {}))
  {
    hide PartPath, IsStep, WellLinked, Worked, IsPart;
    Paths();
    LinkedBoth(Running, RUNS2);
    assert (TWO - {PART2})[FILE := By(2)] == HERS;
    Step2(Transfer(PART2), Renamed, TWO, HERS);
  }

  lemma Completes2()
    ensures IsStep(Racing(RUNS2, Transfer(PART1), Renamed, HERS, {}), Work(1, Good, false),
                   Racing(DONE2, Transfer(PART1), Finish, HERS, {(2, FILE)}))
  {
    hide PartPath, IsStep, WellLinked, Worked, IsPart;
    LinkedBoth(Running, RUNS2);
    var e := Effect(DONE2, Finish, HERS, [], {FILE}, {}, false);
    WorkedSecond(RUNS2, Renamed, HERS, e, {(2, FILE)});
    Worker1(Both(Running, RUNS2), RUNS2, Renamed, Racing(RUNS2, Transfer(PART1), Renamed, HERS, {}), e,
            Racing(DONE2, Transfer(PART1), Finish, HERS, {(2, FILE)}));
  }

  lemma Step2(stage: Stage, next: Stage, disk: map<Path, Owner>, disk': map<Path, Owner>)
    requires WellLinked(Both(Running, RUNS2)) && CanAct(Job2(Running), 2, RUNS2, stage, Good, disk, false)
    requires Act(Job2(Running), 2, RUNS2, stage, Good, false, disk, false) == Effect(RUNS2, next, disk', [], {}, {}, false)
    ensures IsStep(Racing(RUNS2, Transfer(PART1), stage, disk, {}), Work(1, Good, false), Racing(RUNS2, Transfer(PART1), next, disk', {}))
  {
    hide Act, CanAct, PartPath, IsStep, WellLinked, Worked;
    var e := Effect(RUNS2, next, disk', [], {}, {}, false);
    WorkedSecond(RUNS2, stage, disk, e, {});
    Worker1(Both(Running, RUNS2), RUNS2, stage, Racing(RUNS2, Transfer(PART1), stage, disk, {}), e, Racing(RUNS2, Transfer(PART1), next, disk', {}));
  }

  /** The draining worker renames its part over that file. */
  const LOST: State := Racing(DONE2, Renamed, Finish, map[FILE := By(1)], {(2, FILE)})

  lemma Overwrites()
    ensures IsStep(Racing(DONE2, Transfer(PART1), Finish, HERS, {(2, FILE)}), Work(0, Good, false), LOST)
  {
    hide PartPath, IsStep, WellLinked, IsPart;
    Paths();
    LinkedBoth(Running, DONE2);
    var s := Racing(DONE2, Transfer(PART1), Finish, HERS, {(2, FILE)});
    var e := Effect(LATE, Renamed, map[FILE := By(1)], [], {}, {}, false);
    assert (HERS - {PART1})[FILE := By(1)] == map[FILE := By(1)];
    assert Worked(s, 0, e) == LOST by {
      assert Removals(1, [], false) == multiset{};
      assert s.ix.tasks[1 := LATE] == s.ix.tasks;
      assert s.workers[0 := Busy(1, Renamed)] == LOST.workers;
      assert Worked(s, 0, e).written == s.written;
    }
    hide Worked;
    Worker0(Both(Running, DONE2), LATE, Transfer(PART1), s, e, LOST);
  }

  /** From an intact start and with checked submissions only: the second task has completed, its job is alive,
      and its file is the cancelled task's. */
  lemma CompletedIsOvertaken(random: seq<seq<Bytes>>) returns (run: seq<State>, steps: seq<Step>)
    requires Randoms(random, 1)
    ensures IsRun(run, steps) && |run| == |steps| + 1 && run[0] == S0 && Intact(S0) && Shapes(S0) && run[|steps|] == LOST
    ensures LOST.ix.tasks[2].status == Completed && !LOST.ix.jobs[2].Dead() && LOST.ix.tasks[2].filePath == FILE && LOST.disk[FILE] == By(1)
  {
    hide Init, IsStep, WellLinked, IsRun, PartPath, Shapes, Intact;
    StartsRun();
    StartsIntact();
    NewRun(S0);
    run, steps := Until(random);
    Begins2();
    Fetches2();
    Renames2();
    Completes2();
    Overwrites();
    run, steps := Then(run, steps, SUBMITTED, Lease(1, 2), Racing(RUNS2, Transfer(PART1), Reuse, map[PART1 := By(1)], {}));
    run, steps := Then(run, steps, Racing(RUNS2, Transfer(PART1), Reuse, map[PART1 := By(1)], {}), Work(1, Good, false),
                       Racing(RUNS2, Transfer(PART1), Fetch, map[PART1 := By(1)], {}));
    run, steps := Then(run, steps, Racing(RUNS2, Transfer(PART1), Fetch, map[PART1 := By(1)], {}), Work(1, Good, false),
                       Racing(RUNS2, Transfer(PART1), Transfer(PART2), TWO, {}));
    run, steps := Then(run, steps, Racing(RUNS2, Transfer(PART1), Transfer(PART2), TWO, {}), Work(1, Good, false),
                       Racing(RUNS2, Transfer(PART1), Renamed, HERS, {}));
    run, steps := Then(run, steps, Racing(RUNS2, Transfer(PART1), Renamed, HERS, {}), Work(1, Good, false),
                       Racing(DONE2, Transfer(PART1), Finish, HERS, {(2, FILE)}));
    run, steps := Then(run, steps, Racing(DONE2, Transfer(PART1), Finish, HERS, {(2, FILE)}), Work(0, Good, false), LOST);
  }

  lemma Until(random: seq<seq<Bytes>>) returns (run: seq<State>, steps: seq<Step>)
    requires Randoms(random, 1)
    ensures IsRun(run, steps) && |run| == |steps| + 1 && run[0] == S0 && run[|steps|] == SUBMITTED
  {
    hide Init, IsStep, WellLinked, IsRun, PartPath;
    StartsRun();
    NewRun(S0);
    Begins1();
    Fetches();
    Cancels1();
    Submits2(random);
    run, steps := [S0], [];
    run, steps := Then(run, steps, S0, Lease(0, 1), Fetching(Reuse, map[]));
    run, steps := Then(run, steps, Fetching(Reuse, map[]), Work(0, Good, false), Fetching(Fetch, map[]));
    run, steps := Then(run, steps, Fetching(Fetch, map[]), Work(0, Good, false), Fetching(Transfer(PART1), map[PART1 := By(1)]));
    run, steps := Then(run, steps, Fetching(Transfer(PART1), map[PART1 := By(1)]), CancelStep(1), CANCELLED1);
    run, steps := Then(run, steps, CANCELLED1, Submit(2, Job2(Queued), [Second(Queued, false, false)], random), SUBMITTED);
  }
}
