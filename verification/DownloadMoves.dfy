/** Leases, submissions, persistence, deletions and outside events keep the invariant too. */
module DownloadMoves {
  import opened Utf8
  import opened Naming
  import opened DownloadCore
  import opened DownloadPaths
  import opened DownloadRun
  import opened DownloadSafety
  import opened DownloadInvariant
  import opened DownloadSteps

  // ----- a worker's own step -----

  lemma WorkKeeps(s: State, w: WorkerId, o: Oracle, stick: bool)
    requires Inv(s) && Enabled(s, Work(w, o, stick))
    ensures Inv(Apply(s, Work(w, o, stick)))
  {
    var t := s.workers[w].task;
    assert Holds(s, w, t);
    var v := ViewOf(s, w, t);
    assert v.Ok() && v.Can(o);
    var e := Act(v.job, v.id, v.t, v.stage, o, stick, v.disk, v.shutdown);
    ActKeeps(v, o, stick);
    assert Apply(s, Work(w, o, stick)) == Worked(s, w, e);
    EffectKeeps(s, w, t, e);
  }

  lemma EffectKeeps(s: State, w: WorkerId, t: TaskId, e: Effect)
    requires Inv(s) && Placed?(s, w, t) && Keeps(ViewOf(s, w, t), e)
    ensures Inv(Worked(s, w, e))
  {
    hide Keeps, WellLinked, TaskOk, JobOk, FileOk;
    WorkTokens(s, w, t, e);
    WorkLinks(s, w, t, e);
    WorkWorkers(s, w, t, e);
    WorkTasks(s, w, t, e);
    WorkJobs(s, w, t, e);
    WorkFiles(s, w, t, e);
    WorkDeletions(s, w, t, e);
    WorkStore(s, w, t, e);
  }

  // ----- steps that leave jobs, tasks and workers alone -----

  /** Nothing but files, removals and the store changed. */
  predicate SamePeople(s: State, s': State) {
    s'.ix == s.ix && s'.queue == s.queue && s'.workers == s.workers && s'.events == s.events && s'.unread == s.unread
  }

  lemma PeopleKeep(s: State, s': State)
    requires SamePeople(s, s') && Tokens(s) && WorkersOk(s) && TasksOk(s) && JobsOk(s) && Events(s)
    requires s.stuck <= s'.stuck && (s.shutdown ==> s'.shutdown) && [] !in s'.disk
    requires forall t, p :: Written(s'.disk, p, t) ==> Written(s.disk, p, t)
    ensures Tokens(s') && WorkersOk(s') && TasksOk(s') && JobsOk(s') && Events(s')
  {
    hide WellLinked, JobAggregate, StageOk, StageMore, StageDisk;
    assert forall w, t :: Holds(s', w, t) <==> Holds(s, w, t);
    assert forall t :: Held(s, t) ==> Held(s', t);
    assert forall j :: Engaged(s', j) ==> Engaged(s, j);
    forall w, t | Holds(s', w, t) ensures Placed?(s', w, t) && ViewOf(s', w, t).Ok() {
      assert Holds(s, w, t);
      var v := ViewOf(s, w, t);
      var stuck := StuckOf(s', s.ix.tasks[t].job);
      OtherView(v, s'.disk, stuck);
      ShutdownView(v.(disk := s'.disk, stuck := stuck), s'.shutdown);
    }
  }

  lemma ShutdownView(v: View, shutdown: bool)
    requires v.Ok() && (v.shutdown ==> shutdown)
    ensures v.(shutdown := shutdown).Ok()
  {
  }

  /** A file stays explained when the removals owed for it stay. */
  lemma PeopleFile(s: State, s': State, t: TaskId, p: Path)
    requires SamePeople(s, s') && FileOk(s, t, p)
    requires s.stuck <= s'.stuck
    requires t in s.ix.tasks ==> (Owed(s, s.ix.tasks[t].job, p) ==> Owed(s', s.ix.tasks[t].job, p))
    ensures FileOk(s', t, p)
  {
    hide Owed;
    assert forall w :: Holds(s', w, t) <==> Holds(s, w, t);
    OtherFile(s, s', t, p);
  }

  /** Files stay explained when the disk loses some and the books stay. */
  lemma PeopleFiles(s: State, s': State)
    requires SamePeople(s, s') && Files(s) && [] !in s'.disk
    requires s.stuck <= s'.stuck
    requires forall t, p :: Written(s'.disk, p, t) ==> Written(s.disk, p, t)
    requires forall j: JobId, p :: Owed(s, j, p) && p in s'.disk ==> Owed(s', j, p) || (j, p) in s'.stuck
    ensures Files(s')
  {
    hide FileOk, Owed;
    forall p | p in s'.disk && s'.disk[p].By? ensures FileOk(s', s'.disk[p].task, p) {
      var t := s'.disk[p].task;
      assert Written(s'.disk, p, t) && Written(s.disk, p, t);
      if t in s.ix.tasks && (s.ix.tasks[t].job, p) in s'.stuck {
        StuckFile(s, s', t, p);
      } else {
        PeopleFile(s, s', t, p);
      }
    }
  }

  lemma StuckFile(s: State, s': State, t: TaskId, p: Path)
    requires FileOk(s, t, p) && s'.ix == s.ix && t in s.ix.tasks && (s.ix.tasks[t].job, p) in s'.stuck
    ensures FileOk(s', t, p)
  {
  }

  lemma InvBasics(s: State)
    requires Inv(s)
    ensures WellLinked(s.ix) && [] !in s.disk
  {
  }

  // ----- persist -----

  /** A save begins or ends: cleanup moves on from staged to waiting for the save, and then to scheduled. */
  ghost predicate Passes(s: State, s': State, j: JobId, paths: seq<Path>) {
    && s' == s.(staged := s'.staged, saving := s'.saving, pending := s'.pending, stored := s'.stored)
    && (forall i, p :: Owed(s, i, p) ==> Owed(s', i, p))
    && (forall i :: Get(s'.staged, i) != [] ==> Get(s.staged, i) != [])
    && (forall i :: i in s'.staged ==> i in s.staged && s'.staged[i] == s.staged[i])
    && (s'.saving.Saving? && s'.saving.paths != [] ==> s'.saving.job == j && s'.saving.paths == paths)
    && (forall r :: r in s'.pending ==> r in s.pending || (r.job == j && r.path in paths))
  }

  lemma PassesKeeps(s: State, s': State, j: JobId, paths: seq<Path>)
    requires Inv(s) && Passes(s, s', j, paths)
    requires paths != [] ==> j in s.events
    requires forall p :: p in paths ==> (j, p) in s.written
    ensures Inv(s')
  {
    InvBasics(s);
    hide Tokens, WorkersOk, TasksOk, JobsOk, Files, Deletions, Events, Store, WellLinked, Passes;
    PassesBooks(s, s', j, paths);
    PassesPeople(s, s', j, paths);
    hide Owed;
    PeopleKeep(s, s');
    PeopleFiles(s, s');
  }

  lemma PassesPeople(s: State, s': State, j: JobId, paths: seq<Path>)
    requires Passes(s, s', j, paths)
    ensures SamePeople(s, s') && s'.disk == s.disk && s'.stuck == s.stuck && s'.shutdown == s.shutdown
    ensures forall i, p :: Owed(s, i, p) ==> Owed(s', i, p)
  {
    hide Owed, Get;
  }

  lemma PassesBooks(s: State, s': State, j: JobId, paths: seq<Path>)
    requires Deletions(s) && Store(s) && Passes(s, s', j, paths)
    requires paths != [] ==> j in s.events
    requires forall p :: p in paths ==> (j, p) in s.written
    ensures Deletions(s') && Store(s')
  {
    hide Owed, Recorded;
    assert forall i, p :: AwaitsSave(s'.saving, i, p) ==> i == j && p in paths;
  }

  lemma BeginSaveKeeps(s: State)
    requires Inv(s) && WellLinked(s.ix) && s.saving.NoSave?
    ensures Inv(Apply(s, BeginSave))
  {
    hide Inv, WellLinked;
    var s' := Apply(s, BeginSave);
    assert s' == s.(saving := Saving(s.ix, 0, []));
    hide Apply;
    PassesKeeps(s, s', 0, []);
  }

  lemma BeginSaveForKeeps(s: State, j: JobId)
    requires Inv(s) && WellLinked(s.ix) && s.saving.NoSave? && j in s.staged
    ensures Inv(Apply(s, BeginSaveFor(j)))
  {
    hide Tokens, WorkersOk, TasksOk, JobsOk, Files, Deletions, Events, Store, WellLinked;
    StagedBooks(s, j);
    hide Inv;
    var s' := Apply(s, BeginSaveFor(j));
    var paths := s.staged[j];
    assert s' == s.(saving := Saving(s.ix, j, paths), staged := s.staged - {j});
    hide Apply;
    forall i, p | Owed(s, i, p) ensures Owed(s', i, p) {
      assert i == j && p in Get(s.staged, j) ==> AwaitsSave(s'.saving, j, p);
    }
    PassesKeeps(s, s', j, paths);
  }

  lemma StagedBooks(s: State, j: JobId)
    requires Deletions(s) && Store(s) && j in s.staged
    ensures s.staged[j] != [] ==> j in s.events
    ensures forall p :: p in s.staged[j] ==> (j, p) in s.written
  {
    assert Get(s.staged, j) == s.staged[j];
  }

  lemma EndSaveIs(s: State, ok: bool)
    requires WellLinked(s.ix) && s.saving.Saving?
    ensures var s' := Apply(s, EndSave(ok));
      s' == s.(saving := NoSave, stored := s'.stored, pending := s.pending + Removals(s.saving.job, s.saving.paths, true))
    ensures Apply(s, EndSave(ok)).stored == if ok then s.saving.ix else s.stored
  {
    hide WellLinked, Removals;
  }

  lemma EndSaveKeeps(s: State, ok: bool)
    requires Inv(s) && WellLinked(s.ix) && s.saving.Saving?
    ensures Inv(Apply(s, EndSave(ok)))
  {
    hide Tokens, WorkersOk, TasksOk, JobsOk, Files, Deletions, Events, Store, WellLinked, Apply, Passes, Removals;
    SavingBooks(s);
    hide Inv;
    EndSaveIs(s, ok);
    SavedPasses(s, Apply(s, EndSave(ok)), s.saving.job, s.saving.paths);
    PassesKeeps(s, Apply(s, EndSave(ok)), s.saving.job, s.saving.paths);
  }

  lemma SavedPasses(s: State, s': State, j: JobId, paths: seq<Path>)
    requires s.saving.Saving? && j == s.saving.job && paths == s.saving.paths
    requires s' == s.(saving := NoSave, stored := s'.stored, pending := s.pending + Removals(j, paths, true))
    ensures Passes(s, s', j, paths)
  {
    hide Removals;
    forall i, p | Owed(s, i, p) ensures Owed(s', i, p) {
      if AwaitsSave(s.saving, i, p) {
        assert Removal(j, p, true) in Removals(j, paths, true);
      }
    }
    assert forall r :: r in s'.pending ==> r in s.pending || r in Removals(j, paths, true);
    hide Owed, Get;
  }

  lemma SavingBooks(s: State)
    requires Deletions(s) && Store(s) && s.saving.Saving?
    ensures s.saving.paths != [] ==> s.saving.job in s.events
    ensures forall p :: p in s.saving.paths ==> (s.saving.job, p) in s.written
  {
    assert forall p :: p in s.saving.paths ==> AwaitsSave(s.saving, s.saving.job, p);
  }

  lemma DeleteKeeps(s: State, r: Removal, stick: bool)
    requires Inv(s) && WellLinked(s.ix) && r in s.pending
    ensures Inv(Apply(s, Delete(r, stick)))
  {
    hide Inv, WellLinked;
    DeletedKeeps(s, Apply(s, Delete(r, stick)), r, stick);
  }

  predicate Deleted(s: State, s': State, r: Removal, stick: bool) {
    && SamePeople(s, s') && s'.staged == s.staged && s'.saving == s.saving && s'.written == s.written && s'.stored == s.stored && s'.shutdown == s.shutdown
    && s'.pending == s.pending - multiset{r}
    && s'.disk == (if stick then s.disk else s.disk - {r.path})
    && s'.stuck == (if stick then s.stuck + {(r.job, r.path)} else s.stuck)
    && s'.cleaned == (if r.cleanup then s.cleaned + {r.job} else s.cleaned)
  }

  lemma DeletedKeeps(s: State, s': State, r: Removal, stick: bool)
    requires Inv(s) && r in s.pending && Deleted(s, s', r, stick)
    ensures Inv(s')
  {
    InvBasics(s);
    hide Tokens, WorkersOk, TasksOk, JobsOk, Files, Deletions, Events, Store, WellLinked;
    DeletedBooks(s, s', r, stick);
    DeletedOwed(s, s', r, stick);
    hide Owed;
    PeopleKeep(s, s');
    PeopleFiles(s, s');
  }

  lemma DeletedOwed(s: State, s': State, r: Removal, stick: bool)
    requires Deleted(s, s', r, stick)
    ensures forall j: JobId, p :: Owed(s, j, p) && p in s'.disk ==> Owed(s', j, p) || (j, p) in s'.stuck
  {
  }

  lemma DeletedBooks(s: State, s': State, r: Removal, stick: bool)
    requires Deletions(s) && Store(s) && r in s.pending && Deleted(s, s', r, stick)
    ensures Deletions(s') && Store(s')
  {
    assert forall q :: q in s'.pending ==> q in s.pending;
  }

  lemma OutsideKeeps(s: State, p: Path, present: bool)
    requires Inv(s) && WellLinked(s.ix) && p != []
    ensures Inv(Apply(s, Outside(p, present)))
  {
    InvBasics(s);
    OutsideIs(s, p, present);
    hide Inv, WellLinked, Apply;
    LessKept(s, Apply(s, Outside(p, present)));
  }

  lemma OutsideIs(s: State, p: Path, present: bool)
    requires WellLinked(s.ix) && p != [] && [] !in s.disk
    ensures var s' := Apply(s, Outside(p, present));
      && s' == s.(disk := s'.disk) && [] !in s'.disk
      && forall t, q :: Written(s'.disk, q, t) ==> Written(s.disk, q, t)
  {
    hide WellLinked;
  }

  lemma ShutdownKeeps(s: State)
    requires Inv(s) && WellLinked(s.ix)
    ensures Inv(Apply(s, DownloadRun.Shutdown))
  {
    InvBasics(s);
    var s' := Apply(s, DownloadRun.Shutdown);
    assert s' == s.(shutdown := true);
    hide Inv, WellLinked, Apply;
    LessKept(s, s');
  }

  /** Losing files to the outside, or shutting down, changes nothing that is promised. */
  lemma LessKept(s: State, s': State)
    requires Inv(s) && SamePeople(s, s')
    requires s' == s.(disk := s'.disk, shutdown := s'.shutdown) && (s.shutdown ==> s'.shutdown) && [] !in s'.disk
    requires forall t, p :: Written(s'.disk, p, t) ==> Written(s.disk, p, t)
    ensures Inv(s')
  {
    InvBasics(s);
    hide Tokens, WorkersOk, TasksOk, JobsOk, Files, Deletions, Events, Store, WellLinked;
    SameBooks(s, s');
    PeopleKeep(s, s');
    assert forall j, p :: Owed(s, j, p) ==> Owed(s', j, p);
    PeopleFiles(s, s');
  }

  lemma SameBooks(s: State, s': State)
    requires Deletions(s) && Store(s)
    requires s'.ix == s.ix && s'.staged == s.staged && s'.saving == s.saving && s'.pending == s.pending && s'.written == s.written
    requires s'.events == s.events && s'.cleaned == s.cleaned
    ensures Deletions(s') && Store(s')
  {
  }

  // ----- Remove -----

  lemma RemoveKeeps(s: State, j: JobId)
    requires Inv(s) && WellLinked(s.ix) && Enabled(s, DownloadRun.Remove(j))
    ensures Inv(Apply(s, DownloadRun.Remove(j)))
  {
    InvBasics(s);
    hide Tokens, WorkersOk, TasksOk, JobsOk, Files, Deletions, Events, Store, WellLinked;
    UnlistedKeeps(s, Apply(s, DownloadRun.Remove(j)), j);
  }

  lemma UnlistedKeeps(s: State, s': State, j: JobId)
    requires Inv(s) && j in s.ix.jobs && s.ix.jobs[j].status.IsTerminal()
    requires s' == s.(ix := s.ix.(listed := s.ix.listed - {j}))
    ensures Inv(s')
  {
    InvBasics(s);
    hide Tokens, WorkersOk, TasksOk, JobsOk, Files, Deletions, Events, Store, WellLinked;
    UnlistedPeople(s, s', j);
    UnlistedTasks(s, s', j);
    UnlistedJobs(s, s', j);
    UnlistedFiles(s, s', j);
  }

  lemma UnlistedPeople(s: State, s': State, j: JobId)
    requires Tokens(s) && WorkersOk(s)
    requires s' == s.(ix := s.ix.(listed := s.ix.listed - {j}))
    ensures Tokens(s') && WorkersOk(s')
  {
    assert forall w, t :: Holds(s', w, t) <==> Holds(s, w, t);
    forall w, t | Holds(s', w, t) ensures Placed?(s', w, t) && ViewOf(s', w, t).Ok() {
      assert Holds(s, w, t);
      assert ViewOf(s', w, t) == ViewOf(s, w, t);
    }
  }

  lemma UnlistedTasks(s: State, s': State, j: JobId)
    requires TasksOk(s) && JobsOk(s) && j in s.ix.jobs && s.ix.jobs[j].status.IsTerminal()
    requires s' == s.(ix := s.ix.(listed := s.ix.listed - {j}))
    ensures TasksOk(s') && WellLinked(s'.ix) && WellLinked(s.ix)
  {
    hide JobAggregate;
    assert forall w, t :: Holds(s', w, t) <==> Holds(s, w, t);
    assert forall t :: Held(s, t) ==> Held(s', t);
    assert JobOk(s, j);
    hide Held;
    forall t | t in s'.ix.tasks ensures TaskOk(s', t) {
      assert TaskOk(s, t);
    }
  }

  lemma UnlistedJobs(s: State, s': State, j: JobId)
    requires WellLinked(s.ix) && WellLinked(s'.ix) && JobsOk(s)
    requires s' == s.(ix := s.ix.(listed := s.ix.listed - {j}))
    ensures JobsOk(s')
  {
    hide WellLinked;
    assert forall w, t :: Holds(s', w, t) <==> Holds(s, w, t);
    forall i | i in s'.ix.jobs ensures JobOk(s', i) {
      assert JobOk(s, i);
      SameStatuses(s.ix, s'.ix, i);
      hide JobAggregate;
      if Engaged(s, i) {
        var v, u :| Holds(s, v, u) && u in s.ix.tasks && s.ix.tasks[u].job == i;
        assert Holds(s', v, u);
      }
    }
  }

  lemma UnlistedFiles(s: State, s': State, j: JobId)
    requires Files(s) && Deletions(s) && Events(s) && Store(s)
    requires s' == s.(ix := s.ix.(listed := s.ix.listed - {j}))
    ensures Files(s') && Deletions(s') && Events(s') && Store(s')
  {
    assert forall w, t :: Holds(s', w, t) <==> Holds(s, w, t);
    assert forall i :: IsOver(s, i) <==> IsOver(s', i);
    assert forall i, p :: Owed(s, i, p) <==> Owed(s', i, p);
    hide Owed, IsOver;
    forall p | p in s'.disk && s'.disk[p].By? ensures FileOk(s', s'.disk[p].task, p) {
      var t := s.disk[p].task;
      assert FileOk(s, t, p);
      hide FileOk;
      OtherFile(s, s', t, p);
    }
  }

  // ----- leaseTask -----

  lemma LeaseKeeps(s: State, w: WorkerId, t: TaskId)
    requires Inv(s) && WellLinked(s.ix) && Enabled(s, Lease(w, t))
    ensures Inv(Apply(s, Lease(w, t)))
  {
    InvBasics(s);
    var s' := Apply(s, Lease(w, t));
    hide WellLinked, Tokens, WorkersOk, TasksOk, JobsOk, Files, Deletions, Events, Store;
    if s.ix.tasks[t].status.IsTerminal() {
      DroppedKeeps(s, s', t);
    } else {
      LeaseTakes(s, s', w, t);
      LeasedKeeps(s, s', w, t);
    }
  }

  lemma DroppedKeeps(s: State, s': State, t: TaskId)
    requires Inv(s) && s' == s.(queue := s.queue - multiset{t})
    ensures Inv(s')
  {
    InvBasics(s);
    hide Tokens, TasksOk, JobsOk, Files, Deletions, Events, Store, WellLinked, WorkersOk;
    DroppedTokens(s, s', t);
    QueueIrrelevant(s, s');
  }

  lemma DroppedTokens(s: State, s': State, t: TaskId)
    requires Tokens(s) && s' == s.(queue := s.queue - multiset{t})
    ensures Tokens(s')
  {
    assert forall u :: u in s'.queue ==> u in s.queue && s'.queue[u] <= s.queue[u];
    assert forall v, u :: Holds(s', v, u) <==> Holds(s, v, u);
  }

  lemma QueueIrrelevant(s: State, s': State)
    requires WorkersOk(s) && TasksOk(s) && JobsOk(s) && Files(s) && Deletions(s) && Events(s) && Store(s)
    requires s' == s.(queue := s'.queue)
    ensures WorkersOk(s') && TasksOk(s') && JobsOk(s') && Files(s') && Deletions(s') && Events(s') && Store(s')
  {
    hide JobAggregate, WellLinked, StageOk, StageMore, StageDisk;
    assert forall v, u :: Holds(s', v, u) <==> Holds(s, v, u);
    assert forall u :: Held(s, u) ==> Held(s', u);
    assert forall i :: IsOver(s, i) <==> IsOver(s', i);
    QueueViews(s, s');
    QueueFiles(s, s');
    forall i | i in s'.ix.jobs ensures JobOk(s', i) {
      assert JobOk(s, i);
      if Engaged(s, i) {
        var v, u :| Holds(s, v, u) && u in s.ix.tasks && s.ix.tasks[u].job == i;
        assert Holds(s', v, u);
      }
    }
  }

  lemma QueueViews(s: State, s': State)
    requires WorkersOk(s) && s' == s.(queue := s'.queue)
    ensures WorkersOk(s')
  {
    forall w, t | Holds(s', w, t) ensures Placed?(s', w, t) && ViewOf(s', w, t).Ok() {
      assert Holds(s, w, t);
      assert ViewOf(s', w, t) == ViewOf(s, w, t);
    }
  }

  lemma QueueFiles(s: State, s': State)
    requires Files(s) && s' == s.(queue := s'.queue)
    ensures Files(s')
  {
    assert forall v, u :: Holds(s', v, u) <==> Holds(s, v, u);
    assert forall i, p :: Owed(s, i, p) <==> Owed(s', i, p);
    hide Owed;
    forall p | p in s'.disk && s'.disk[p].By? ensures FileOk(s', s'.disk[p].task, p) {
      assert FileOk(s, s.disk[p].task, p);
      hide FileOk;
      OtherFile(s, s', s.disk[p].task, p);
    }
  }

  /** A lease by an idle worker of an enqueued, unfinished task. */
  ghost predicate Takes(s: State, s': State, w: WorkerId, t: TaskId) {
    && w in s.workers && s.workers[w].Idle? && t in s.queue && t in s.ix.tasks && !s.ix.tasks[t].status.IsTerminal()
    && s.ix.tasks[t].job in s.ix.jobs && !s.ix.jobs[s.ix.tasks[t].job].status.IsTerminal()
    && !s.ix.tasks[t].cancelled
    && var j := s.ix.tasks[t].job;
       s' == s.(queue := s.queue - multiset{t},
                ix := s.ix.(tasks := s.ix.tasks[t := s.ix.tasks[t].(status := Running, armed := true)],
                            jobs := s.ix.jobs[j := s.ix.jobs[j].(status := Running)]),
                workers := s.workers[w := Busy(t, Reuse)])
  }

  lemma LeaseTakes(s: State, s': State, w: WorkerId, t: TaskId)
    requires TasksOk(s) && JobsOk(s) && Enabled(s, Lease(w, t)) && !s.ix.tasks[t].status.IsTerminal()
    requires s' == Apply(s, Lease(w, t))
    ensures Takes(s, s', w, t)
  {
    assert TaskOk(s, t);
    assert JobOk(s, s.ix.tasks[t].job);
  }

  lemma LeasedKeeps(s: State, s': State, w: WorkerId, t: TaskId)
    requires Inv(s) && Takes(s, s', w, t)
    ensures Inv(s')
  {
    InvBasics(s);
    hide TasksOk, JobsOk, Files, Deletions, Events, Store, WorkersOk, Tokens, Takes, WellLinked;
    LeasedTokens(s, s', w, t);
    LeasedWorkers(s, s', w, t);
    LeasedTasks(s, s', w, t);
    LeasedJobs(s, s', w, t);
    LeasedFiles(s, s', w, t);
    LeasedBooks(s, s', w, t);
  }

  lemma LeasedTokens(s: State, s': State, w: WorkerId, t: TaskId)
    requires Tokens(s) && Takes(s, s', w, t)
    ensures Tokens(s')
    ensures forall v, u :: Holds(s', v, u) <==> Holds(s, v, u) || (v == w && u == t)
    ensures forall v :: !Holds(s, v, t)
  {
    assert forall v, u :: Holds(s', v, u) <==> Holds(s, v, u) || (v == w && u == t);
    assert s.queue[t] == 1;
    assert t !in s'.queue;
    assert forall u :: u in s'.queue ==> u != t && u in s.queue && s'.queue[u] == s.queue[u];
    hide Holds;
  }

  lemma LeasedWorkers(s: State, s': State, w: WorkerId, t: TaskId)
    requires Tokens(s) && WorkersOk(s) && Files(s) && Takes(s, s', w, t)
    ensures WorkersOk(s')
  {
    LeasedTokens(s, s', w, t);
    hide Tokens, Files;
    forall v, u | Holds(s', v, u) ensures Placed?(s', v, u) && ViewOf(s', v, u).Ok() {
      if v == w {
        EmptyPathAbsent(s);
        assert ViewOf(s', w, t).Ok();
      } else {
        assert Holds(s, v, u) && u != t;
        hide StageOk, StageMore, StageDisk;
        StatusIrrelevant(ViewOf(s, v, u), s'.ix.jobs[s.ix.tasks[u].job].status);
        assert ViewOf(s', v, u) == ViewOf(s, v, u).(job := s'.ix.jobs[s.ix.tasks[u].job]);
      }
    }
  }

  lemma EmptyPathAbsent(s: State)
    requires Files(s)
    ensures [] !in s.disk
  {
  }

  lemma LeasedLinks(s: State, s': State, w: WorkerId, t: TaskId)
    requires WellLinked(s.ix) && Takes(s, s', w, t)
    ensures WellLinked(s'.ix)
  {
  }

  lemma LeasedTasks(s: State, s': State, w: WorkerId, t: TaskId)
    requires Tokens(s) && TasksOk(s) && Takes(s, s', w, t)
    ensures TasksOk(s') && WellLinked(s.ix) && WellLinked(s'.ix)
  {
    LeasedTokens(s, s', w, t);
    LeasedLinks(s, s', w, t);
    hide Tokens, WellLinked;
    forall u | u in s'.ix.tasks ensures TaskOk(s', u) {
      assert TaskOk(s, u);
      assert TaskOk(s, t);
      if u == t {
        assert Holds(s', w, t);
      } else if Held(s, u) {
        var v :| Holds(s, v, u);
        assert Holds(s', v, u);
      }
    }
  }

  lemma LeasedJobs(s: State, s': State, w: WorkerId, t: TaskId)
    requires WellLinked(s'.ix) && WellLinked(s.ix) && Tokens(s) && JobsOk(s) && Takes(s, s', w, t)
    ensures JobsOk(s')
  {
    LeasedTokens(s, s', w, t);
    hide Tokens, JobOk, WellLinked;
    forall i | i in s'.ix.jobs ensures JobOk(s', i) {
      assert JobOk(s, i);
      if i == s.ix.tasks[t].job {
        LeasedJob(s, s', w, t);
      } else {
        LeasedOtherJob(s, s', w, t, i);
      }
    }
  }

  lemma LeasedJob(s: State, s': State, w: WorkerId, t: TaskId)
    requires WellLinked(s'.ix) && Takes(s, s', w, t)
    ensures JobOk(s', s.ix.tasks[t].job)
  {
    hide JobAggregate, WellLinked;
    assert Holds(s', w, t);
  }

  lemma LeasedOtherJob(s: State, s': State, w: WorkerId, t: TaskId, i: JobId)
    requires WellLinked(s'.ix) && WellLinked(s.ix) && Takes(s, s', w, t)
    requires i in s.ix.jobs && i != s.ix.tasks[t].job && JobOk(s, i)
    requires forall v, u :: Holds(s', v, u) <==> Holds(s, v, u) || (v == w && u == t)
    ensures JobOk(s', i)
  {
    assert t !in s.ix.jobs[i].tasks;
    hide WellLinked, JobAggregate, Holds;
    SameStatuses(s.ix, s'.ix, i);
    if Engaged(s, i) {
      var v, u :| Holds(s, v, u) && u in s.ix.tasks && s.ix.tasks[u].job == i;
      assert Holds(s', v, u);
    }
  }

  lemma LeasedFiles(s: State, s': State, w: WorkerId, t: TaskId)
    requires Tokens(s) && Files(s) && Takes(s, s', w, t)
    ensures Files(s')
  {
    LeasedTokens(s, s', w, t);
    hide Tokens;
    forall p | p in s'.disk && s'.disk[p].By? ensures FileOk(s', s'.disk[p].task, p) {
      assert FileOk(s, s.disk[p].task, p);
      hide FileOk, Takes;
      LeasedFile(s, s', w, t, s.disk[p].task, p);
    }
  }

  lemma LeasedFile(s: State, s': State, w: WorkerId, t: TaskId, u: TaskId, p: Path)
    requires Takes(s, s', w, t) && FileOk(s, u, p)
    requires forall v, x :: Holds(s', v, x) <==> Holds(s, v, x) || (v == w && x == t)
    ensures FileOk(s', u, p)
  {
    assert Recorded(s'.ix.tasks[u], p) <==> Recorded(s.ix.tasks[u], p);
    assert forall i :: Owed(s, i, p) <==> Owed(s', i, p);
    hide Recorded, Owed;
    if FlownBy(s, u, p) {
      var v :| Holds(s, v, u) && InFlight(s.workers[v].stage, s.ix.tasks[u], p);
      assert Holds(s', v, u) && v != w;
      assert InFlight(s'.workers[v].stage, s'.ix.tasks[u], p);
    }
  }

  lemma LeasedBooks(s: State, s': State, w: WorkerId, t: TaskId)
    requires Deletions(s) && Events(s) && Store(s) && Takes(s, s', w, t)
    ensures Deletions(s') && Events(s') && Store(s')
  {
    assert forall i :: IsOver(s, i) <==> IsOver(s', i);
    hide IsOver;
    forall u, p | u in s'.ix.tasks && Recorded(s'.ix.tasks[u], p) ensures (s'.ix.tasks[u].job, p) in s'.written {
      assert Recorded(s.ix.tasks[u], p);
    }
  }
}
