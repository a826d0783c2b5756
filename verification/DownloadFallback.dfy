/** A run in which the fallback of `reuseMedia` makes two unfinished tasks share an output: a converted ugoira
    was deleted from outside, and before it is fetched again another ugoira is submitted onto the zip beside it. */
module DownloadFallback {
  import opened Utf8
  import opened Naming
  import opened Collision
  import opened DownloadCore
  import opened DownloadPaths
  import opened DownloadRun
  import opened DownloadSafety
  import opened DownloadInvariant
  import opened DownloadSteps
  import opened DownloadSubmission
  import opened DownloadRuns
  import opened DownloadStable
  import opened DownloadDisjoint
  import opened DownloadRestart
  import opened DownloadLeftover
  import opened DownloadMishap

  const OWNED: Path := A + WEBP
  const BESIDE: Path := A + ZIP

  function Converted(status: Status, armed: bool): Task { Task(1, OWNED, [], status, true, false, armed, false) }

  const FALLEN: Task := Task(1, BESIDE, [], Running, false, false, true, false)
  const OTHER: Task := Task(2, BESIDE, [], Queued, false, false, false, false)
  const KEPT_JOB: Job := Job(Ugoira(Keep), false, Queued, [2])

  function FirstJob(status: Status): Job { Job(Ugoira(Webp), false, status, [1]) }

  function OneIndex(t: Task): Index { Index(map[1 := FirstJob(Queued)], map[1 := t], {1}) }

  function TwoIndex(status: Status, t: Task): Index { Index(map[1 := FirstJob(status), 2 := KEPT_JOB], map[1 := t, 2 := OTHER], {1, 2}) }

  /** Just recovered; the converted file is gone. */
  const BEGIN: State :=
    State(OneIndex(Converted(Queued, false)), multiset{1}, map[0 := Idle], map[], map[], NoSave, multiset{}, {(1, OWNED)}, {}, {},
          multiset{}, OneIndex(Converted(Queued, false)), {}, false)
  const JOINED: State := BEGIN.(ix := TwoIndex(Queued, Converted(Queued, false)), queue := multiset{1, 2})

  function OnLease(stage: Stage, t: Task): State {
    JOINED.(ix := TwoIndex(Running, t), queue := multiset{2}, workers := map[0 := Busy(1, stage)])
  }

  lemma Names()
    ensures IsZip(BESIDE) && !IsZip(OWNED) && ReplaceExt(OWNED, ZIP) == BESIDE && OWNED != BESIDE
    ensures FinalPath(Ugoira(Webp), OWNED) == OWNED && FinalPath(Ugoira(Webp), BESIDE) == OWNED && FinalPath(Ugoira(Keep), BESIDE) == BESIDE
    ensures Ext(OWNED) == WEBP && Parts(BESIDE).stem == A && DirLen(BESIDE) == 0
  {
    FinalOfZip(A, Ugoira(Webp));
    ReplacedExt(A, WEBP, ZIP);
    ReplacedExt(A, ZIP, WEBP);
    ConvertedShape(Ugoira(Webp), Task(1, BESIDE, [], Queued, false, false, false, false));
    FinalIsFile(Ugoira(Keep), BESIDE);
    PlainParts(A, ZIP);
    hide Ext, Parts;
    assert DirLen(BESIDE) == 0 by { assert forall i :: 0 <= i < |BESIDE| ==> BESIDE[i] != SLASH; }
    assert |OWNED| == 6 && |BESIDE| == 5;
  }

  lemma BeginOk()
    ensures Init(BEGIN) && Apart(BEGIN.ix) && Shapes(BEGIN)
  {
    Names();
    hide IsZip, Ext, ReplaceExt, FinalPath, Parts, DirLen;
    var t := Converted(Queued, false);
    assert Statuses(BEGIN.ix.tasks, [1]) == [t.status];
    assert RestedJob(BEGIN.ix, 1) by { assert Queued in [Queued]; }
    forall j: JobId, p | (j, p) in BEGIN.written ensures JobRecorded(BEGIN.ix, j, p) {
      assert 1 in BEGIN.ix.jobs[1].tasks && Recorded(BEGIN.ix.tasks[1], p);
    }
    assert RestedTask(BEGIN, 1);
  }

  lemma MaySubmit(random: seq<seq<Bytes>>)
    requires Randoms(random, 1)
    ensures IsSubmission(BEGIN, 2, KEPT_JOB, [OTHER], random) && WellLinked(BEGIN.ix)
  {
    hide IsZip;
    assert IsNewTask(2, KEPT_JOB, OTHER);
  }

  /** The submission gets the zip name: the unfinished task claims only the converted one. */
  lemma Submits(random: seq<seq<Bytes>>)
    requires Randoms(random, 1)
    ensures IsStep(BEGIN, Submit(2, KEPT_JOB, [OTHER], random), JOINED)
  {
    hide WellLinked, IsSubmission, Submitted;
    MaySubmit(random);
    SubmitsIndex(random);
    assert BEGIN.disk.Keys == {};
    assert BEGIN.queue + multiset(KEPT_JOB.tasks) == JOINED.queue;
  }

  lemma SubmitsIndex(random: seq<seq<Bytes>>)
    requires Randoms(random, 1)
    ensures Submitted(BEGIN.ix, 2, KEPT_JOB, [OTHER], {}, random) == JOINED.ix
  {
    hide PlaceAll, ReservedPaths;
    KeptName(random);
    assert WithTasks(BEGIN.ix.tasks, [2], [OTHER]) == JOINED.ix.tasks by {
      assert [2][..0] == [] && [OTHER][..0] == [];
    }
    assert BEGIN.ix.jobs[2 := KEPT_JOB] == JOINED.ix.jobs;
  }

  lemma KeptName(random: seq<seq<Bytes>>)
    requires Randoms(random, 1)
    ensures PlaceAll(Ugoira(Keep), false, [OTHER], ReservedPaths(BEGIN.ix), {}, random).tasks == [OTHER]
  {
    Names();
    hide Ext, ReplaceExt, FinalPath, Parts, DirLen, AltExt, IsZip;
    var reserved := ReservedPaths(BEGIN.ix);
    assert reserved <= {OWNED} by {
      assert Claims(Ugoira(Webp), Converted(Queued, false)) == {OWNED};
    }
    assert Claims(Ugoira(Keep), OTHER) == {BESIDE};
    hide ReservedPaths, Claims;
    assert Tidy(Ugoira(Keep), false, OTHER) && Unwritten(Ugoira(Keep), false, OTHER);
    StablePlace(Ugoira(Keep), false, OTHER, reserved, {}, random[0]);
    hide Place;
    assert [OTHER][..0] == [] && random[..0] == [];
  }

  lemma LeaseTakesFirst()
    ensures WellLinked(JOINED.ix) && DownloadCore.Leased(JOINED.ix, 1) == TwoIndex(Running, Converted(Running, true))
  {
    var ix := DownloadCore.Leased(JOINED.ix, 1);
    assert ix.jobs == TwoIndex(Running, Converted(Running, true)).jobs;
    assert ix.tasks == TwoIndex(Running, Converted(Running, true)).tasks;
  }

  lemma Leases1()
    ensures IsStep(JOINED, Lease(0, 1), OnLease(Reuse, Converted(Running, true)))
  {
    LeaseTakesFirst();
    hide WellLinked, DownloadCore.Leased;
    assert JOINED.queue - multiset{1} == multiset{2};
    assert JOINED.workers[0 := Busy(1, Reuse)] == map[0 := Busy(1, Reuse)];
  }

  lemma Works1(stage: Stage, t: Task, stage': Stage, t': Task)
    requires t.job == 1 && t'.job == 1
    requires CanAct(FirstJob(Running), 1, t, stage, Good, map[], false)
    requires Act(FirstJob(Running), 1, t, stage, Good, false, map[], false) == Effect(t', stage', map[], [], {}, {}, false)
    ensures IsStep(OnLease(stage, t), Work(0, Good, false), OnLease(stage', t'))
  {
    hide Act, CanAct, Worked;
    var s := OnLease(stage, t);
    var e := Effect(t', stage', map[], [], {}, {}, false);
    assert Apply(s, Work(0, Good, false)) == Worked(s, 0, e);
    hide Apply, WellLinked;
    Worked1(s, e, stage, t);
  }

  lemma Worked1(s: State, e: Effect, stage: Stage, t: Task)
    requires e.disk == map[] && e.drop == [] && e.recorded == {} && e.stuck == {} && !e.unread
    requires s == OnLease(stage, t) && t.job == 1
    ensures Worked(s, 0, e) == OnLease(e.stage, e.task)
  {
    var r := Worked(s, 0, e);
    assert Removals(1, [], false) == multiset{};
    assert r.written == s.written;
    assert r.ix.tasks == TwoIndex(Running, e.task).tasks;
    assert r.workers == map[0 := Busy(1, e.stage)];
  }

  lemma FallsDown()
    ensures IsStep(OnLease(Reuse, Converted(Running, true)), Work(0, Good, false), OnLease(Stat, Converted(Running, true)))
    ensures IsStep(OnLease(Stat, Converted(Running, true)), Work(0, Good, false), OnLease(ZipStat, Converted(Running, true)))
    ensures IsStep(OnLease(ZipStat, Converted(Running, true)), Work(0, Good, false), OnLease(Missing(BESIDE), Converted(Running, true)))
    ensures IsStep(OnLease(Missing(BESIDE), Converted(Running, true)), Work(0, Good, false), OnLease(Fetch, FALLEN))
  {
    hide IsStep, Ext, ReplaceExt, FinalPath, Parts, DirLen, IsZip;
    Names();
    Works1(Reuse, Converted(Running, true), Stat, Converted(Running, true));
    Works1(Stat, Converted(Running, true), ZipStat, Converted(Running, true));
    Works1(ZipStat, Converted(Running, true), Missing(BESIDE), Converted(Running, true));
    Works1(Missing(BESIDE), Converted(Running, true), Fetch, FALLEN);
  }

  lemma BothClaim()
    ensures !Apart(TwoIndex(Running, FALLEN))
  {
    var ix := TwoIndex(Running, FALLEN);
    hide FinalPath;
    assert BESIDE in ClaimsOf(ix, 1) && BESIDE in ClaimsOf(ix, 2);
    assert IsLive(ix, 1) && IsLive(ix, 2);
  }

  /** From a disjoint start, without any unchecked suffix, both tasks end up claiming the zip. */
  lemma FallbackCollides(random: seq<seq<Bytes>>) returns (run: seq<State>, steps: seq<Step>)
    requires Randoms(random, 1)
    ensures IsRun(run, steps) && |run| == |steps| + 1 && run[0] == BEGIN && Apart(BEGIN.ix) && Shapes(BEGIN)
    ensures run[|steps|].ix == TwoIndex(Running, FALLEN) && !Apart(run[|steps|].ix)
  {
    hide Init, IsStep, IsRun, Apart, Shapes;
    BeginOk();
    Submits(random);
    Leases1();
    FallsDown();
    BothClaim();
    NewRun(BEGIN);
    run, steps := [BEGIN], [];
    run, steps := Then(run, steps, BEGIN, Submit(2, KEPT_JOB, [OTHER], random), JOINED);
    run, steps := Then(run, steps, JOINED, Lease(0, 1), OnLease(Reuse, Converted(Running, true)));
    run, steps := Then(run, steps, OnLease(Reuse, Converted(Running, true)), Work(0, Good, false), OnLease(Stat, Converted(Running, true)));
    run, steps := Then(run, steps, OnLease(Stat, Converted(Running, true)), Work(0, Good, false), OnLease(ZipStat, Converted(Running, true)));
    run, steps := Then(run, steps, OnLease(ZipStat, Converted(Running, true)), Work(0, Good, false), OnLease(Missing(BESIDE), Converted(Running, true)));
    run, steps := Then(run, steps, OnLease(Missing(BESIDE), Converted(Running, true)), Work(0, Good, false), OnLease(Fetch, FALLEN));
  }
}
