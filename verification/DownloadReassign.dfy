/** What `Start` does to the paths of unfinished tasks, exactly: when every path stays, and when the
    recovered tasks still claim disjoint paths. */
module DownloadReassign {
  import opened Utf8
  import opened Naming
  import opened Collision
  import opened DownloadCore
  import opened DownloadPaths
  import opened DownloadRun
  import opened DownloadInvariant
  import opened DownloadRuns
  import opened DownloadDisjoint
  import opened DownloadTouch
  import opened DownloadPresent
  import opened DownloadStable
  import opened DownloadRecovery
  import opened DownloadRestart

  /** Recorded output: recovery reserves the task's paths and leaves them. */
  predicate Owns(t: Task) { t.wroteFile || t.wroteMetadata }

  /** Unfinished tasks without output look as `Unwritten` says. */
  ghost predicate Plain(ix: Index) {
    forall t :: IsLive(ix, t) && !Owns(ix.tasks[t]) ==>
      Unwritten(ix.jobs[ix.tasks[t].job].kind, ix.jobs[ix.tasks[t].job].metadata, ix.tasks[t])
  }

  /** So they do in every snapshot with proper paths, and every snapshot stored in any run has those. */
  lemma ShapedIsPlain(ix: Index)
    requires Shaped(ix)
    ensures Plain(ix)
  {
    hide IsZip, Ext, FormatExt;
  }

  /** No turn needed the unchecked random suffix. */
  ghost predicate CheckedTurns(ix: Index, order: seq<JobId>, disk: set<Path>, random: seq<seq<seq<Bytes>>>)
    requires OrderOk(ix, order, random)
  {
    forall k :: 0 <= k < |order| ==> Turn(ix, order, disk, random, k).checked
  }

  // ----- one task's turn -----

  /** The placement of the `i`-th task of one job. */
  function PlaceAt(kind: Kind, metadata: bool, ts: seq<Task>, reserved: set<Path>, disk: set<Path>, random: seq<seq<Bytes>>, i: nat): Placed
    requires Randoms(random, |ts|) && i < |ts|
  {
    Place(kind, metadata, ts[i], PlaceAll(kind, metadata, ts[..i], reserved, disk, random[..i]).reserved, disk, random[i])
  }

  lemma {:induction false} PlacedAt(kind: Kind, metadata: bool, ts: seq<Task>, reserved: set<Path>, disk: set<Path>,
                                    random: seq<seq<Bytes>>, i: nat)
    requires Randoms(random, |ts|) && i < |ts|
    ensures var b := PlaceAll(kind, metadata, ts, reserved, disk, random); var at := PlaceAt(kind, metadata, ts, reserved, disk, random, i);
      b.tasks[i] == at.task && at.reserved <= b.reserved && (b.checked ==> at.checked)
    decreases |ts|
  {
    hide Place;
    var n := |ts| - 1;
    var front := PlaceAll(kind, metadata, ts[..n], reserved, disk, random[..n]);
    var last := Place(kind, metadata, ts[n], front.reserved, disk, random[n]);
    assert PlaceAll(kind, metadata, ts, reserved, disk, random)
        == Batch(front.tasks + [last.task], last.reserved, front.checked && last.checked);
    hide PlaceAll;
    if i < n {
      PlacedAt(kind, metadata, ts[..n], reserved, disk, random[..n], i);
      assert ts[..n][..i] == ts[..i] && random[..n][..i] == random[..i];
    }
  }

  lemma {:induction false} ReservedGrows(kind: Kind, metadata: bool, ts: seq<Task>, reserved: set<Path>, disk: set<Path>,
                                         random: seq<seq<Bytes>>)
    requires Randoms(random, |ts|)
    ensures reserved <= PlaceAll(kind, metadata, ts, reserved, disk, random).reserved
    decreases |ts|
  {
    hide Place;
    if ts != [] {
      ReservedGrows(kind, metadata, ts[..|ts| - 1], reserved, disk, random[..|ts| - 1]);
    }
  }

  /** What is true of an unfinished task once it has been placed. */
  lemma PlacedLive(kind: Kind, metadata: bool, t: Task, reserved: set<Path>, disk: set<Path>, random: seq<Bytes>)
    requires IsRandom(random) && !t.status.IsTerminal() && (Owns(t) || Unwritten(kind, metadata, t))
    ensures var r := Place(kind, metadata, t, reserved, disk, random);
      && Claims(kind, r.task) <= r.reserved
      && (Owns(t) ==> r.task == t)
      && (!Owns(t) ==> Unwritten(kind, metadata, r.task))
      && (!Owns(t) && r.checked ==> Claims(kind, r.task) !! reserved + disk)
  {
    hide Claims, FinalPath, AltExt, Resolved, Checked;
    if !Owns(t) {
      PlacedClaims(kind, metadata, t, reserved, disk, random);
      if Place(kind, metadata, t, reserved, disk, random).checked {
        PlacedIsFresh(kind, metadata, t, reserved, disk, random);
      }
    }
  }

  lemma TurnPlaces(ix: Index, order: seq<JobId>, disk: set<Path>, random: seq<seq<seq<Bytes>>>, k: nat, i: nat)
    requires OrderOk(ix, order, random) && k < |order| && i < |ix.jobs[order[k]].tasks|
    requires ix.jobs[order[k]].tasks[i] in ix.tasks && !ix.tasks[ix.jobs[order[k]].tasks[i]].status.IsTerminal()
    ensures var job := ix.jobs[order[k]]; var ts := RestAll(ix.tasks, job.tasks);
      && |ts| == |job.tasks| && Randoms(random[k], |ts|) && ts[i] == RestTask(ix.tasks[job.tasks[i]])
      && Turn(ix, order, disk, random, k) == PlaceAll(job.kind, job.metadata, ts, Reserve(ix, order[..k], disk, random[..k]), disk, random[k])
  {
    hide PlaceAll, Reserve, WellLinked;
    LinkedTasks(ix, order[k]);
    var ts := RestAll(ix.tasks, ix.jobs[order[k]].tasks);
    assert !ts[i].status.IsTerminal();
  }

  /** The paths reserved when the `i`-th task of the `k`-th job is placed. */
  function ReservedAt(ix: Index, order: seq<JobId>, disk: set<Path>, random: seq<seq<seq<Bytes>>>, k: nat, i: nat): set<Path>
    requires OrderOk(ix, order, random) && k < |order| && i < |ix.jobs[order[k]].tasks|
  {
    var job := ix.jobs[order[k]];
    PlaceAll(job.kind, job.metadata, RestAll(ix.tasks, job.tasks)[..i], Reserve(ix, order[..k], disk, random[..k]), disk, random[k][..i]).reserved
  }

  /** The placement of the `i`-th task of the `k`-th job. */
  function TurnPlaced(ix: Index, order: seq<JobId>, disk: set<Path>, random: seq<seq<seq<Bytes>>>, k: nat, i: nat): Placed
    requires OrderOk(ix, order, random) && k < |order| && i < |ix.jobs[order[k]].tasks|
  {
    var job := ix.jobs[order[k]];
    Place(job.kind, job.metadata, RestAll(ix.tasks, job.tasks)[i], ReservedAt(ix, order, disk, random, k, i), disk, random[k][i])
  }

  /** An unfinished task after its turn. */
  ghost predicate AfterTurn(ix: Index, order: seq<JobId>, disk: set<Path>, random: seq<seq<seq<Bytes>>>, k: nat, i: nat, t: Task)
    requires OrderOk(ix, order, random) && k < |order| && i < |ix.jobs[order[k]].tasks| && ix.jobs[order[k]].tasks[i] in ix.tasks
  {
    var kind := ix.jobs[order[k]].kind; var was := RestTask(ix.tasks[ix.jobs[order[k]].tasks[i]]);
    && Claims(kind, t) <= Reserve(ix, order[..k + 1], disk, random[..k + 1])
    && (forall m :: i < m < |ix.jobs[order[k]].tasks| ==> Claims(kind, t) <= ReservedAt(ix, order, disk, random, k, m))
    && (Owns(was) ==> t == was)
    && (!Owns(was) ==> Unwritten(kind, ix.jobs[order[k]].metadata, t))
    && (!Owns(was) && TurnPlaced(ix, order, disk, random, k, i).checked ==> Claims(kind, t) !! ReservedAt(ix, order, disk, random, k, i) + disk)
    && (Turn(ix, order, disk, random, k).checked ==> TurnPlaced(ix, order, disk, random, k, i).checked)
  }

  lemma TurnLive(ix: Index, order: seq<JobId>, disk: set<Path>, random: seq<seq<seq<Bytes>>>, k: nat, i: nat)
    requires Sound(ix) && OrderOk(ix, order, random) && Distinct(order) && Plain(ix) && k < |order| && i < |ix.jobs[order[k]].tasks|
    requires IsLive(ix, ix.jobs[order[k]].tasks[i])
    ensures var id := ix.jobs[order[k]].tasks[i]; var r := RecoverTasks(ix, order, disk, random);
      ix.tasks[id].job == order[k] && id in r && AfterTurn(ix, order, disk, random, k, i, r[id])
  {
    var job := ix.jobs[order[k]];
    var id := job.tasks[i];
    LinkedTasks(ix, order[k]);
    assert Owns(ix.tasks[id]) || Unwritten(job.kind, job.metadata, ix.tasks[id]);
    hide Sound, WellLinked, RecoverTasks, Turn, Plain, Unwritten, Owns, RestTask;
    RecoveredAt(ix, order, disk, random, k, i);
    RestIsUnwritten(job.kind, job.metadata, ix.tasks[id]);
    TurnOne(ix, order, disk, random, k, i);
  }

  lemma TurnOne(ix: Index, order: seq<JobId>, disk: set<Path>, random: seq<seq<seq<Bytes>>>, k: nat, i: nat)
    requires OrderOk(ix, order, random) && k < |order| && i < |ix.jobs[order[k]].tasks|
    requires IsLive(ix, ix.jobs[order[k]].tasks[i])
    requires var t := RestTask(ix.tasks[ix.jobs[order[k]].tasks[i]]);
      !t.status.IsTerminal() && (Owns(t) || Unwritten(ix.jobs[order[k]].kind, ix.jobs[order[k]].metadata, t))
    ensures AfterTurn(ix, order, disk, random, k, i, Turn(ix, order, disk, random, k).tasks[i])
  {
    hide Turn, Claims, PlaceAll, Place, Unwritten, RestJob, Owns, WellLinked, Reserve;
    var job := ix.jobs[order[k]];
    LinkedTasks(ix, order[k]);
    TurnPlaces(ix, order, disk, random, k, i);
    TurnReserves(ix, order, disk, random, k);
    var ts := RestAll(ix.tasks, job.tasks);
    var before := Reserve(ix, order[..k], disk, random[..k]);
    hide RestAll;
    PlacedAt(job.kind, job.metadata, ts, before, disk, random[k], i);
    PlacedLive(job.kind, job.metadata, ts[i], ReservedAt(ix, order, disk, random, k, i), disk, random[k][i]);
    forall m | i < m < |job.tasks|
      ensures PlaceAt(job.kind, job.metadata, ts, before, disk, random[k], i).reserved <= ReservedAt(ix, order, disk, random, k, m)
    {
      PlacedAt(job.kind, job.metadata, ts[..m], before, disk, random[k][..m], i);
      assert ts[..m][..i] == ts[..i] && random[k][..m][..i] == random[k][..i];
    }
  }

  lemma RestIsUnwritten(kind: Kind, metadata: bool, t: Task)
    ensures Owns(RestTask(t)) == Owns(t) && RestTask(t).status.IsTerminal() == t.status.IsTerminal()
    ensures Unwritten(kind, metadata, t) ==> Unwritten(kind, metadata, RestTask(t))
  {
  }

  lemma TurnReserves(ix: Index, order: seq<JobId>, disk: set<Path>, random: seq<seq<seq<Bytes>>>, k: nat)
    requires OrderOk(ix, order, random) && k < |order|
    ensures Reserve(ix, order[..k + 1], disk, random[..k + 1]) == Turn(ix, order, disk, random, k).reserved
  {
    hide RestJob, WellLinked;
    assert order[..k + 1][..k] == order[..k] && random[..k + 1][..k] == random[..k];
  }

  lemma {:induction false} ReserveGrows(ix: Index, order: seq<JobId>, disk: set<Path>, random: seq<seq<seq<Bytes>>>, k: nat, l: nat)
    requires OrderOk(ix, order, random) && k <= l <= |order|
    ensures Reserve(ix, order[..k], disk, random[..k]) <= Reserve(ix, order[..l], disk, random[..l])
    decreases l
  {
    hide Reserve, WellLinked, PlaceAll;
    if k < l {
      ReserveGrows(ix, order, disk, random, k, l - 1);
      TurnReserves(ix, order, disk, random, l - 1);
      var job := ix.jobs[order[l - 1]];
      LinkedTasks(ix, order[l - 1]);
      var ts := RestAll(ix.tasks, job.tasks);
      ReservedGrows(job.kind, job.metadata, ts, Reserve(ix, order[..l - 1], disk, random[..l - 1]), disk, random[l - 1]);
    }
  }

  // ----- the walk -----

  /** `t` is the `i`-th task of the `k`-th job. */
  predicate At(ix: Index, order: seq<JobId>, t: TaskId, k: nat, i: nat) {
    k < |order| && order[k] in ix.jobs && i < |ix.jobs[order[k]].tasks| && ix.jobs[order[k]].tasks[i] == t
  }

  /** Task `a` has its turn before task `b`. */
  ghost predicate Before(ix: Index, order: seq<JobId>, a: TaskId, b: TaskId) {
    exists k, i, l, m :: At(ix, order, a, k, i) && At(ix, order, b, l, m) && (k < l || (k == l && i < m))
  }

  lemma EitherBefore(ix: Index, order: seq<JobId>, a: TaskId, b: TaskId)
    requires WellLinked(ix) && Walk(ix, order) && a in ix.tasks && b in ix.tasks && a != b
    ensures Before(ix, order, a, b) || Before(ix, order, b, a)
  {
    hide WellLinked, Walk;
    var k, i := TurnOf(ix, order, a);
    var l, m := TurnOf(ix, order, b);
    assert At(ix, order, a, k, i) && At(ix, order, b, l, m);
  }

  /** The task got an unchecked random suffix. */
  ghost predicate Unchecked(ix: Index, order: seq<JobId>, disk: set<Path>, random: seq<seq<seq<Bytes>>>, t: TaskId)
    requires OrderOk(ix, order, random)
  {
    exists k, i :: At(ix, order, t, k, i) && !TurnPlaced(ix, order, disk, random, k, i).checked
  }

  /** What is claimed before an unwritten task's turn is not given out to it. */
  lemma LaterAvoids(ix: Index, order: seq<JobId>, disk: set<Path>, random: seq<seq<seq<Bytes>>>, a: TaskId, b: TaskId)
    requires Sound(ix) && OrderOk(ix, order, random) && Walk(ix, order) && Plain(ix) && !Unchecked(ix, order, disk, random, b)
    requires IsLive(ix, a) && IsLive(ix, b) && Before(ix, order, a, b) && !Owns(ix.tasks[b])
    requires forall t :: t in ix.tasks ==> t in RecoverTasks(ix, order, disk, random)
    ensures var r := RecoverTasks(ix, order, disk, random);
      Claims(ix.jobs[ix.tasks[a].job].kind, r[a]) !! Claims(ix.jobs[ix.tasks[b].job].kind, r[b])
  {
    hide Sound, WellLinked, RecoverTasks, Turn, Claims, PlaceAll, RestJob, Plain, Reserve, OrderOk, ReservedAt, TurnPlaced;
    var k: nat, i: nat, l: nat, m: nat :| At(ix, order, a, k, i) && At(ix, order, b, l, m) && (k < l || (k == l && i < m));
    assert Distinct(order);
    TurnLive(ix, order, disk, random, k, i);
    TurnLive(ix, order, disk, random, l, m);
    RestIsUnwritten(ix.jobs[order[l]].kind, ix.jobs[order[l]].metadata, ix.tasks[b]);
    if k < l {
      ReserveGrows(ix, order, disk, random, k + 1, l);
      ReservedBefore(ix, order, disk, random, l, m);
    }
  }

  lemma ReservedBefore(ix: Index, order: seq<JobId>, disk: set<Path>, random: seq<seq<seq<Bytes>>>, k: nat, i: nat)
    requires OrderOk(ix, order, random) && k < |order| && i < |ix.jobs[order[k]].tasks|
    ensures Reserve(ix, order[..k], disk, random[..k]) <= ReservedAt(ix, order, disk, random, k, i)
  {
    hide Reserve, WellLinked, PlaceAll;
    var job := ix.jobs[order[k]];
    LinkedTasks(ix, order[k]);
    ReservedGrows(job.kind, job.metadata, RestAll(ix.tasks, job.tasks)[..i], Reserve(ix, order[..k], disk, random[..k]), disk, random[k][..i]);
  }

  /** A task without output is newly given a path that a task with output, whose turn comes later, still needs;
      or one is given a path of an earlier one because the suffix was not checked. */
  ghost predicate Intrudes(ix: Index, order: seq<JobId>, disk: set<Path>, random: seq<seq<seq<Bytes>>>, r: Index)
    requires OrderOk(ix, order, random)
  {
    exists a, b, p :: IsLive(ix, a) && IsLive(ix, b) && a != b && Before(ix, order, a, b) && IsLive(r, a) && IsLive(r, b)
      && p in ClaimsOf(r, a) && p in ClaimsOf(r, b)
      && if Owns(ix.tasks[b]) then !Owns(ix.tasks[a]) && p !in ClaimsOf(ix, a) else Unchecked(ix, order, disk, random, b)
  }

  /** What recovery makes of the claims. */
  lemma RecoveredClaims(ix: Index, order: seq<JobId>, disk: set<Path>, random: seq<seq<seq<Bytes>>>, t: TaskId)
    requires Sound(ix) && OrderOk(ix, order, random) && Walk(ix, order)
    ensures var r := Recover(ix, order, disk, random);
      && (IsLive(r, t) <==> IsLive(ix, t))
      && (IsLive(ix, t) ==> ClaimsOf(r, t) == Claims(ix.jobs[ix.tasks[t].job].kind, r.tasks[t]))
      && (IsLive(ix, t) && Owns(ix.tasks[t]) ==> ClaimsOf(r, t) == ClaimsOf(ix, t))
  {
    hide Sound, RecoverTasks, Claims, Walk, Aggregate, RestAll, WellLinked, OrderOk;
    RecoveredKeys(ix, order, disk, random);
    if t in ix.tasks {
      RecoveredTask(ix, order, disk, random, t);
    }
    if IsLive(ix, t) && Owns(ix.tasks[t]) {
      RestClaims(ix, t);
    }
  }

  /** Recovery keeps the claims of unfinished tasks disjoint if and only if no task without output is newly
      given a path that a later one with output needs, and no unchecked suffix hit an earlier one's. */
  lemma RecoveryApartExact(ix: Index, order: seq<JobId>, disk: set<Path>, random: seq<seq<seq<Bytes>>>)
    requires Sound(ix) && Apart(ix) && Shaped(ix) && OrderOk(ix, order, random) && Walk(ix, order)
    ensures Apart(Recover(ix, order, disk, random)) <==> !Intrudes(ix, order, disk, random, Recover(ix, order, disk, random))
  {
    hide Sound, Recover, Shaped, Plain, Walk, Apart, OrderOk, Before, Unchecked, ClaimsOf;
    var r := Recover(ix, order, disk, random);
    if Intrudes(ix, order, disk, random, r) {
      IntruderCollides(ix, order, disk, random, r);
    } else {
      hide Intrudes;
      ShapedIsPlain(ix);
      OthersApart(ix, order, disk, random);
    }
  }

  lemma IntruderCollides(ix: Index, order: seq<JobId>, disk: set<Path>, random: seq<seq<seq<Bytes>>>, r: Index)
    requires OrderOk(ix, order, random) && Intrudes(ix, order, disk, random, r)
    ensures !Apart(r)
  {
    hide Claims, OrderOk, Before, Unchecked;
  }

  lemma OthersApart(ix: Index, order: seq<JobId>, disk: set<Path>, random: seq<seq<seq<Bytes>>>)
    requires Sound(ix) && Apart(ix) && Plain(ix) && OrderOk(ix, order, random) && Walk(ix, order)
    requires !Intrudes(ix, order, disk, random, Recover(ix, order, disk, random))
    ensures Apart(Recover(ix, order, disk, random))
  {
    assert WellLinked(ix);
    hide Sound, WellLinked, Recover, Claims, Plain, OrderOk, Walk, Before, Intrudes, Owns;
    var r := Recover(ix, order, disk, random);
    forall t, u | t != u && IsLive(r, t) && IsLive(r, u) ensures ClaimsOf(r, t) !! ClaimsOf(r, u) {
      RecoveredClaims(ix, order, disk, random, t);
      RecoveredClaims(ix, order, disk, random, u);
      hide Apart, ClaimsOf;
      EitherBefore(ix, order, t, u);
      if Before(ix, order, t, u) {
        PairApart(ix, order, disk, random, t, u);
      } else {
        PairApart(ix, order, disk, random, u, t);
      }
    }
  }

  lemma PairApart(ix: Index, order: seq<JobId>, disk: set<Path>, random: seq<seq<seq<Bytes>>>, a: TaskId, b: TaskId)
    requires Sound(ix) && Apart(ix) && Plain(ix) && OrderOk(ix, order, random) && Walk(ix, order)
    requires var r := Recover(ix, order, disk, random);
      a != b && IsLive(ix, a) && IsLive(ix, b) && IsLive(r, a) && IsLive(r, b) && Before(ix, order, a, b) && !Intrudes(ix, order, disk, random, r)
    ensures var r := Recover(ix, order, disk, random); ClaimsOf(r, a) !! ClaimsOf(r, b)
  {
    hide Sound, WellLinked, RecoverTasks, Claims, Plain, OrderOk, Walk, Before, RestAll, Aggregate, Unchecked;
    RecoveredClaims(ix, order, disk, random, a);
    RecoveredClaims(ix, order, disk, random, b);
    var r := Recover(ix, order, disk, random);
    if !Owns(ix.tasks[b]) && !Unchecked(ix, order, disk, random, b) {
      RecoveredKeys(ix, order, disk, random);
      LaterAvoids(ix, order, disk, random, a, b);
    } else if Owns(ix.tasks[b]) {
      assert ClaimsOf(ix, a) !! ClaimsOf(ix, b);
    }
  }

  // ----- every path stays -----

  /** The name survives the resolver and nothing has appeared under it. */
  ghost predicate Keepable(kind: Kind, metadata: bool, t: Task, disk: set<Path>) {
    Tidy(kind, metadata, t) && Parts(FinalPath(kind, t.filePath)).stem != [] && Claims(kind, t) !! disk
  }

  lemma PlacedSame(kind: Kind, metadata: bool, t: Task, reserved: set<Path>, disk: set<Path>, random: seq<Bytes>)
    requires IsRandom(random) && Unwritten(kind, metadata, t)
    requires var r := Place(kind, metadata, t, reserved, disk, random); r.task == t && r.checked
    ensures Keepable(kind, metadata, t, disk)
  {
    hide Resolved, Checked, FinalPath, AltExt, Claims, Tidy, Parts, Place;
    PlacedTidy(kind, metadata, t, reserved, disk, random);
    PlacedIsFresh(kind, metadata, t, reserved, disk, random);
    SameHasStem(kind, metadata, t, reserved, disk, random);
  }

  /** An empty stem is never given out. */
  lemma SameHasStem(kind: Kind, metadata: bool, t: Task, reserved: set<Path>, disk: set<Path>, random: seq<Bytes>)
    requires IsRandom(random) && Unwritten(kind, metadata, t) && Place(kind, metadata, t, reserved, disk, random).task == t
    ensures Parts(FinalPath(kind, t.filePath)).stem != []
  {
    hide Checked, Ext, IsZip, Claims, FormatExt, AltExt, DirLen, Parts, FinalPath, Resolved, Place;
    var prefix, ext := OfferedShape(kind, metadata, t, reserved + disk, random);
    FinalNonempty(kind, t.filePath);
    PlacedFile(kind, metadata, t, reserved, disk, random, prefix, ext);
    var final := FinalPath(kind, t.filePath);
    assert Offered(kind, metadata, t, reserved + disk, random)[0] == final;
    FirstHasStem(final, AltExt(kind, t.filePath), metadata, reserved + disk, random);
  }

  lemma FirstHasStem(base: Path, alt: Bytes, metadata: bool, taken: set<Path>, random: seq<Bytes>)
    requires IsAlt(alt) && IsRandom(random)
    ensures |Resolved(base, alt, metadata, taken, random)| >= 1
    ensures Resolved(base, alt, metadata, taken, random)[0] == base ==> Parts(base).stem != []
  {
    hide Parts, Chosen;
    var q := Parts(base);
    var suffix := Chosen(q, alt, metadata, taken, random);
    var p := PathsFor(q, alt, metadata, suffix)[0];
    assert p == q.dir + ShortStem(q, alt, suffix) + suffix + q.ext;
    hide PathsFor;
    if q.stem == [] {
      assert |p| == |q.dir| + 1 + |suffix| + |q.ext| && |base| == |q.dir| + |q.ext|;
    }
  }

  /** Recovery changes no path at all if and only if every unfinished task without output has a name the
      resolver keeps and none of its own paths has appeared on disk. */
  lemma RecoveryStaysExact(ix: Index, order: seq<JobId>, disk: set<Path>, random: seq<seq<seq<Bytes>>>)
    requires Sound(ix) && Apart(ix) && Shaped(ix) && OrderOk(ix, order, random) && Walk(ix, order) && CheckedTurns(ix, order, disk, random)
    ensures RecoverTasks(ix, order, disk, random).Keys == ix.tasks.Keys
    ensures (forall t :: t in ix.tasks ==> RecoverTasks(ix, order, disk, random)[t] == RestTask(ix.tasks[t])) <==>
      forall t :: IsLive(ix, t) && !Owns(ix.tasks[t]) ==>
        Keepable(ix.jobs[ix.tasks[t].job].kind, ix.jobs[ix.tasks[t].job].metadata, ix.tasks[t], disk)
  {
    assert WellLinked(ix) && Distinct(order);
    hide Sound, WellLinked, RecoverTasks, Plain, OrderOk, Keepable, CheckedTurns, RestTask, Walk, Apart, Shaped;
    ShapedIsPlain(ix);
    RecoveredKeys(ix, order, disk, random);
    if forall t :: t in ix.tasks ==> RecoverTasks(ix, order, disk, random)[t] == RestTask(ix.tasks[t]) {
      forall t | IsLive(ix, t) && !Owns(ix.tasks[t])
        ensures Keepable(ix.jobs[ix.tasks[t].job].kind, ix.jobs[ix.tasks[t].job].metadata, ix.tasks[t], disk)
      {
        StaysKeepable(ix, order, disk, random, t);
      }
    }
    if forall t :: IsLive(ix, t) && !Owns(ix.tasks[t]) ==>
         Keepable(ix.jobs[ix.tasks[t].job].kind, ix.jobs[ix.tasks[t].job].metadata, ix.tasks[t], disk) {
      KeepableUndisturbed(ix, disk);
      forall t | t in ix.tasks ensures RecoverTasks(ix, order, disk, random)[t] == RestTask(ix.tasks[t]) {
        RecoveryKeepsPaths(ix, order, disk, random, t);
      }
    }
  }

  lemma StaysKeepable(ix: Index, order: seq<JobId>, disk: set<Path>, random: seq<seq<seq<Bytes>>>, t: TaskId)
    requires Sound(ix) && Plain(ix) && OrderOk(ix, order, random) && Walk(ix, order) && CheckedTurns(ix, order, disk, random)
    requires IsLive(ix, t) && !Owns(ix.tasks[t]) && t in RecoverTasks(ix, order, disk, random)
    requires RecoverTasks(ix, order, disk, random)[t] == RestTask(ix.tasks[t])
    ensures Keepable(ix.jobs[ix.tasks[t].job].kind, ix.jobs[ix.tasks[t].job].metadata, ix.tasks[t], disk)
  {
    hide Sound, RecoverTasks, PlaceAll, Place, Unwritten, RestJob, Turn, Reserve, Tidy, Claims, FinalPath, Parts;
    var k, i := TurnOf(ix, order, t);
    hide WellLinked, Walk;
    var job := ix.jobs[order[k]];
    RecoveredAt(ix, order, disk, random, k, i);
    TurnPlaces(ix, order, disk, random, k, i);
    var ts := RestAll(ix.tasks, job.tasks);
    PlacedAt(job.kind, job.metadata, ts, Reserve(ix, order[..k], disk, random[..k]), disk, random[k], i);
    RestIsUnwritten(job.kind, job.metadata, ix.tasks[t]);
    PlacedSame(job.kind, job.metadata, ts[i], ReservedAt(ix, order, disk, random, k, i), disk, random[k][i]);
    RestKeepable(job.kind, job.metadata, ix.tasks[t], disk);
  }

  lemma RestKeepable(kind: Kind, metadata: bool, t: Task, disk: set<Path>)
    ensures Keepable(kind, metadata, RestTask(t), disk) <==> Keepable(kind, metadata, t, disk)
  {
    hide FinalPath, Parts, DirLen;
  }

  lemma KeepableUndisturbed(ix: Index, disk: set<Path>)
    requires WellLinked(ix) && Apart(ix) && Plain(ix)
    requires forall t :: IsLive(ix, t) && !Owns(ix.tasks[t]) ==>
      Keepable(ix.jobs[ix.tasks[t].job].kind, ix.jobs[ix.tasks[t].job].metadata, ix.tasks[t], disk)
    ensures Undisturbed(ix, disk)
  {
    LinkedJobs(ix);
    hide WellLinked, Apart, Tidy, Claims, Unwritten, Parts, FinalPath, Keepable;
    forall t | t in ix.tasks
      ensures Settles(ix.jobs[ix.tasks[t].job].kind, ix.jobs[ix.tasks[t].job].metadata, RestTask(ix.tasks[t]), disk)
    {
      var job := ix.jobs[ix.tasks[t].job];
      RestIsUnwritten(job.kind, job.metadata, ix.tasks[t]);
      RestKeepable(job.kind, job.metadata, ix.tasks[t], disk);
      KeepableIs(job.kind, job.metadata, RestTask(ix.tasks[t]), disk);
    }
  }

  lemma LinkedJobs(ix: Index)
    requires WellLinked(ix)
    ensures forall t :: t in ix.tasks ==> ix.tasks[t].job in ix.jobs
  {
  }

  lemma KeepableIs(kind: Kind, metadata: bool, t: Task, disk: set<Path>)
    ensures Keepable(kind, metadata, t, disk) <==>
      Tidy(kind, metadata, t) && Parts(FinalPath(kind, t.filePath)).stem != [] && Claims(kind, t) !! disk
  {
  }

  lemma RecoveredShape(ix: Index, order: seq<JobId>, disk: set<Path>, random: seq<seq<seq<Bytes>>>, t: TaskId)
    requires Sound(ix) && Shaped(ix) && OrderOk(ix, order, random) && Walk(ix, order) && t in ix.tasks
    ensures t in RecoverTasks(ix, order, disk, random) && ix.tasks[t].job in ix.jobs
    ensures RecoverTasks(ix, order, disk, random)[t].job == ix.tasks[t].job
    ensures JobShape(ix.jobs[ix.tasks[t].job], RecoverTasks(ix, order, disk, random)[t])
  {
    hide RecoverTasks, JobShape, OrderOk, Walk, AllTerminal, Distinct, Plain;
    ShapedIsPlain(ix);
    LinkedJobs(ix);
    hide Sound, WellLinked;
    RecoveredTask(ix, order, disk, random, t);
    RestShape(ix.jobs[ix.tasks[t].job], ix.tasks[t]);
    if IsLive(ix, t) {
      LiveShape(ix, order, disk, random, t);
    }
  }

  lemma LiveShape(ix: Index, order: seq<JobId>, disk: set<Path>, random: seq<seq<seq<Bytes>>>, t: TaskId)
    requires Sound(ix) && Plain(ix) && OrderOk(ix, order, random) && Walk(ix, order) && IsLive(ix, t)
    requires t in RecoverTasks(ix, order, disk, random) && JobShape(ix.jobs[ix.tasks[t].job], RestTask(ix.tasks[t]))
    ensures JobShape(ix.jobs[ix.tasks[t].job], RecoverTasks(ix, order, disk, random)[t])
  {
    hide Sound, RecoverTasks, Plain, JobShape, Unwritten, Turn, Reserve, Claims, ReservedAt, WellLinked, Owns, RestTask, TurnPlaced;
    assert Distinct(order);
    var k, i := TurnOf(ix, order, t);
    hide Walk, Distinct, OrderOk;
    TurnLive(ix, order, disk, random, k, i);
    var r := RecoverTasks(ix, order, disk, random)[t];
    if !Owns(RestTask(ix.tasks[t])) {
      UnwrittenShape(ix.jobs[order[k]], r);
    }
  }

  lemma RestShape(job: Job, t: Task)
    ensures JobShape(job, RestTask(t)) <==> JobShape(job, t)
  {
    hide IsZip, Ext, FormatExt;
  }

  lemma UnwrittenShape(job: Job, t: Task)
    requires Unwritten(job.kind, job.metadata, t)
    ensures JobShape(job, t)
  {
    hide IsZip, Ext, FormatExt;
  }

  /** The next run starts disjoint if and only if recovery has not intruded on another task's output. */
  lemma RestartStaysApart(ix: Index, order: seq<JobId>, random: seq<seq<seq<Bytes>>>, s: State)
    requires Sound(ix) && Apart(ix) && Shaped(ix) && OrderOk(ix, order, random) && Walk(ix, order) && Starts(ix, order, random, s)
    ensures Apart(s.ix) <==> !Intrudes(ix, order, s.disk.Keys, random, s.ix)
    ensures Shapes(s)
  {
    hide Sound, Apart, Walk, Recover, OrderOk, Intrudes, Shaped;
    assert s.ix == Recover(ix, order, s.disk.Keys, random) && Blank(s);
    hide Starts;
    RecoveryApartExact(ix, order, s.disk.Keys, random);
    StartShapes(ix, order, random, s);
  }

  lemma StartShapes(ix: Index, order: seq<JobId>, random: seq<seq<seq<Bytes>>>, s: State)
    requires Sound(ix) && Shaped(ix) && OrderOk(ix, order, random) && Walk(ix, order)
    requires s.ix == Recover(ix, order, s.disk.Keys, random) && Blank(s)
    ensures Shapes(s)
  {
    hide Sound, Walk, OrderOk, RecoverTasks, JobShape, StageShape, Shaped, Aggregate, RestAll, WellLinked;
    RecoveredKeys(ix, order, s.disk.Keys, random);
    forall t | t in s.ix.tasks && s.ix.tasks[t].job in s.ix.jobs ensures JobShape(s.ix.jobs[s.ix.tasks[t].job], s.ix.tasks[t]) {
      RecoveredShape(ix, order, s.disk.Keys, random, t);
      ShapeOfJob(ix.jobs[ix.tasks[t].job], s.ix.jobs[ix.tasks[t].job], s.ix.tasks[t]);
    }
    assert forall w, t :: !Placed?(s, w, t);
  }

  lemma ShapeOfJob(a: Job, b: Job, t: Task)
    requires a.kind == b.kind && a.metadata == b.metadata
    ensures JobShape(a, t) <==> JobShape(b, t)
  {
    hide TaskShape;
  }

  // ----- an intact start -----

  /** A task that owns nothing yet and was given checked paths finds none of them on disk. */
  lemma GivenFresh(ix: Index, order: seq<JobId>, disk: set<Path>, random: seq<seq<seq<Bytes>>>, t: TaskId)
    requires Sound(ix) && Plain(ix) && OrderOk(ix, order, random) && Walk(ix, order)
    requires IsLive(ix, t) && !Owns(ix.tasks[t]) && !Unchecked(ix, order, disk, random, t)
    ensures t in RecoverTasks(ix, order, disk, random)
    ensures Claims(ix.jobs[ix.tasks[t].job].kind, RecoverTasks(ix, order, disk, random)[t]) !! disk
  {
    hide Sound, RecoverTasks, Plain, Unwritten, Turn, Reserve, Claims, ReservedAt, WellLinked, Owns, RestTask, TurnPlaced;
    assert Distinct(order);
    var k, i := TurnOf(ix, order, t);
    hide Walk, Distinct, OrderOk;
    assert At(ix, order, t, k, i);
    TurnLive(ix, order, disk, random, k, i);
    RestIsUnwritten(ix.jobs[order[k]].kind, ix.jobs[order[k]].metadata, ix.tasks[t]);
  }

  /** A recovered process starts intact if recovery has not intruded on anybody's output, no name was given out
      unchecked, completed tasks have their files, tasks with output find only their own files under their
      paths, and failed tasks of unfinished jobs hold paths of their own. */
  lemma RecoveredIntact(ix: Index, order: seq<JobId>, random: seq<seq<seq<Bytes>>>, s: State)
    requires Sound(ix) && ix.listed == ix.jobs.Keys && Apart(ix) && Shaped(ix) && OrderOk(ix, order, random) && Walk(ix, order)
    requires Starts(ix, order, random, s) && !Intrudes(ix, order, s.disk.Keys, random, s.ix)
    requires forall t :: IsLive(ix, t) && !Owns(ix.tasks[t]) ==> !Unchecked(ix, order, s.disk.Keys, random, t)
    requires forall t :: Matters(s, t) && !(IsLive(ix, t) && !Owns(ix.tasks[t])) ==> OwnFiles(s, t)
    requires forall t, p :: Matters(s, t) && p in Holding(s.ix, t) ==> !IsPart(p)
    requires forall t :: Matters(s, t) && s.ix.tasks[t].status.Completed? ==> AllThere(s.ix.jobs[s.ix.tasks[t].job], s.ix.tasks[t], s.disk)
    requires forall t, u :: t != u && Matters(s, t) && Matters(s, u) && s.ix.tasks[t].status.Failed? && !s.ix.tasks[u].status.Completed? ==>
      Holding(s.ix, t) !! Holding(s.ix, u)
    ensures Init(s) && Shapes(s) && Intact(s)
  {
    hide Sound, WellLinked, Walk, OrderOk, Recover, Intrudes, Apart, Shaped, Shapes, Init, Plain, Matters, Holding, IsPart, Unchecked, Owns;
    RecoveredInit(ix, order, random, s);
    RestartStaysApart(ix, order, random, s);
    ShapedIsPlain(ix);
    assert s.ix == Recover(ix, order, s.disk.Keys, random);
    hide Starts;
    forall t | Matters(s, t) ensures InJob(s, t) && OwnFiles(s, t) {
      MattersIn(s, t);
      if IsLive(ix, t) && !Owns(ix.tasks[t]) {
        FreshOwn(ix, order, random, s, t);
      }
    }
    forall t, u | t != u && Matters(s, t) && Matters(s, u) && InJob(s, t) && InJob(s, u)
                  && !s.ix.tasks[t].status.Completed? && !s.ix.tasks[u].status.Completed?
      ensures Holding(s.ix, t) !! Holding(s.ix, u)
    {
      if !s.ix.tasks[t].status.Failed? && !s.ix.tasks[u].status.Failed? {
        NotCancelled(s, t);
        NotCancelled(s, u);
        LiveApart(s, t, u);
      }
    }
    StartIntact(s);
  }

  lemma MattersIn(s: State, t: TaskId)
    requires Matters(s, t)
    ensures InJob(s, t)
  {
  }

  lemma FreshOwn(ix: Index, order: seq<JobId>, random: seq<seq<seq<Bytes>>>, s: State, t: TaskId)
    requires Sound(ix) && Plain(ix) && OrderOk(ix, order, random) && Walk(ix, order) && s.ix == Recover(ix, order, s.disk.Keys, random)
    requires IsLive(ix, t) && !Owns(ix.tasks[t]) && !Unchecked(ix, order, s.disk.Keys, random, t) && InJob(s, t)
    ensures OwnFiles(s, t)
  {
    hide Sound, Plain, WellLinked, RecoverTasks, Walk, OrderOk, Claims, Owns, Unchecked, Aggregate, RestAll;
    GivenFresh(ix, order, s.disk.Keys, random, t);
    RecoveredTask(ix, order, s.disk.Keys, random, t);
  }

  /** At a start a cancelled task's job is over and nobody works on it. */
  lemma NotCancelled(s: State, t: TaskId)
    requires Init(s) && Matters(s, t)
    ensures !s.ix.tasks[t].status.Cancelled? && !s.ix.tasks[t].status.Running?
  {
    hide WellLinked, Files, Deletions, Events, Store, RestedFile, JobAggregate, Tokens, WorkersOk;
    InitInv(s);
    assert TaskOk(s, t) && RestedTask(s, t);
    assert forall w :: !Holds(s, w, t);
  }

  lemma LiveApart(s: State, t: TaskId, u: TaskId)
    requires Apart(s.ix) && InJob(s, t) && InJob(s, u) && t != u
    requires s.ix.tasks[t].status.Queued? && s.ix.tasks[u].status.Queued?
    ensures Holding(s.ix, t) !! Holding(s.ix, u)
  {
    hide Claims;
    assert IsLive(s.ix, t) && IsLive(s.ix, u);
  }

  // ----- few enough paths -----

  /** Tasks of the jobs walked. */
  function Count(ix: Index, order: seq<JobId>): nat
    requires forall j :: j in order ==> j in ix.jobs
  {
    if order == [] then 0 else Count(ix, order[..|order| - 1]) + |ix.jobs[order[|order| - 1]].tasks|
  }

  /** One task more makes at most three paths more, and with few enough no suffix is unchecked. */
  lemma {:induction false} FewPlacedAll(kind: Kind, metadata: bool, ts: seq<Task>, reserved: set<Path>, disk: set<Path>, random: seq<seq<Bytes>>)
    requires Randoms(random, |ts|) && |reserved + disk| + 3 * |ts| < 9999
    requires forall i :: 0 <= i < |ts| ==> ts[i].status.IsTerminal() || Owns(ts[i]) || Unwritten(kind, metadata, ts[i])
    ensures var b := PlaceAll(kind, metadata, ts, reserved, disk, random);
      b.checked && |b.reserved + disk| <= |reserved + disk| + 3 * |ts|
    decreases |ts|
  {
    hide Place, Unwritten, Owns;
    if ts != [] {
      var n := |ts| - 1;
      var front := PlaceAll(kind, metadata, ts[..n], reserved, disk, random[..n]);
      FewPlacedAll(kind, metadata, ts[..n], reserved, disk, random[..n]);
      var last := Place(kind, metadata, ts[n], front.reserved, disk, random[n]);
      assert PlaceAll(kind, metadata, ts, reserved, disk, random)
          == Batch(front.tasks + [last.task], last.reserved, front.checked && last.checked);
      hide PlaceAll;
      FewPlaced(kind, metadata, ts[n], front.reserved, disk, random[n]);
      ThreeMore(kind, metadata, ts[n], front.reserved, disk, random[n]);
    }
  }

  lemma ThreeMore(kind: Kind, metadata: bool, t: Task, reserved: set<Path>, disk: set<Path>, random: seq<Bytes>)
    requires IsRandom(random) && (t.status.IsTerminal() || Owns(t) || Unwritten(kind, metadata, t))
    ensures |Place(kind, metadata, t, reserved, disk, random).reserved + disk| <= |reserved + disk| + 3
  {
    hide Claims, FinalPath, AltExt, Resolved, Checked;
    var r := Place(kind, metadata, t, reserved, disk, random);
    if !t.status.IsTerminal() {
      if !Owns(t) {
        PlacedClaims(kind, metadata, t, reserved, disk, random);
      }
      hide Place;
      ClaimsSize(kind, r.task);
      Union(reserved + disk, Claims(kind, r.task));
      assert r.reserved + disk == reserved + disk + Claims(kind, r.task);
    }
  }

  /** With fewer than 9999 paths on disk and in the snapshot, counting three for each task, no turn needs the unchecked suffix. */
  lemma {:induction false} FewTurnsChecked(ix: Index, order: seq<JobId>, disk: set<Path>, random: seq<seq<seq<Bytes>>>, k: nat)
    requires Sound(ix) && Plain(ix) && OrderOk(ix, order, random) && k <= |order| && |disk| + 3 * Count(ix, order[..k]) < 9999
    ensures |Reserve(ix, order[..k], disk, random[..k]) + disk| <= |disk| + 3 * Count(ix, order[..k])
    ensures forall l :: 0 <= l < k ==> Turn(ix, order, disk, random, l).checked
    decreases k
  {
    hide Sound, Plain, WellLinked, PlaceAll, Reserve, Turn;
    if k == 0 {
      assert order[..0] == [] && random[..0] == [];
      NothingReserved(ix, disk);
    } else {
      assert order[..k][..k - 1] == order[..k - 1];
      FewTurnsChecked(ix, order, disk, random, k - 1);
      TurnReserves(ix, order, disk, random, k - 1);
      FewTurn(ix, order, disk, random, k - 1);
    }
  }

  lemma NothingReserved(ix: Index, disk: set<Path>)
    requires OrderOk(ix, [], [])
    ensures Reserve(ix, [], disk, []) + disk == disk && Count(ix, []) == 0
  {
  }

  lemma FewTurn(ix: Index, order: seq<JobId>, disk: set<Path>, random: seq<seq<seq<Bytes>>>, k: nat)
    requires Sound(ix) && Plain(ix) && OrderOk(ix, order, random) && k < |order|
    requires |Reserve(ix, order[..k], disk, random[..k]) + disk| + 3 * |ix.jobs[order[k]].tasks| < 9999
    ensures var b := Turn(ix, order, disk, random, k);
      b.checked && |b.reserved + disk| <= |Reserve(ix, order[..k], disk, random[..k]) + disk| + 3 * |ix.jobs[order[k]].tasks|
  {
    LinkedTasks(ix, order[k]);
    hide Sound, WellLinked, PlaceAll, Reserve, Unwritten, Owns, RestTask;
    var job := ix.jobs[order[k]];
    var ts := RestAll(ix.tasks, job.tasks);
    forall i | 0 <= i < |ts| ensures ts[i].status.IsTerminal() || Owns(ts[i]) || Unwritten(job.kind, job.metadata, ts[i]) {
      assert job.tasks[i] in job.tasks;
      RestIsUnwritten(job.kind, job.metadata, ix.tasks[job.tasks[i]]);
      assert IsLive(ix, job.tasks[i]) || ix.tasks[job.tasks[i]].status.IsTerminal();
    }
    if HasUnfinished(ts) {
      FewPlacedAll(job.kind, job.metadata, ts, Reserve(ix, order[..k], disk, random[..k]), disk, random[k]);
    }
  }
}
