/** `Start` reserves the outputs of jobs one by one, newest first. When a file has appeared under an
    unwritten task's name, that task can be moved onto the pending output of an older job. */
module DownloadMishap {
  import opened Utf8
  import opened Naming
  import opened Collision
  import opened Decimals
  import opened DownloadCore
  import opened DownloadPaths
  import opened DownloadRun
  import opened DownloadInvariant
  import opened DownloadRecovery
  import opened DownloadStable
  import opened DownloadDisjoint

  const A: Bytes := [0x61]

  lemma PlainParts(stem: Bytes, ext: Bytes)
    requires SLASH !in stem && IsExt(ext) && ext != [] && |ext| <= MAX_NAME_BYTES - 12
    ensures Parts(stem + ext) == Target([], stem, ext)
  {
    var name := stem + ext;
    assert DirLen(name) == 0 by {
      hide DirLen;
      assert forall i :: 0 <= i < |name| ==> name[i] != SLASH;
    }
    assert name[0..] == name && name[..0] == [] && name[..|stem|] == stem;
    ExtOfConcat(stem, ext);
    hide Ext, DirLen;
  }

  /** A taken plain name gets " (1)". */
  lemma Suffixed(stem: Bytes, ext: Bytes, taken: set<Path>, random: seq<Bytes>)
    requires SLASH !in stem && stem != [] && |stem| < 100 && IsExt(ext) && 0 < |ext| < 100 && IsRandom(random)
    requires stem + ext in taken && stem + ONE + ext !in taken
    ensures Resolved(stem + ext, [], false, taken, random) == [stem + ONE + ext]
  {
    hide Parts, PathsFor, Chosen, ShortStem, IsExt, LeastFree, Truncated, Numbered, DirLen, Ext, FreeAt;
    PlainParts(stem, ext);
    OneIs();
    StemOf(stem, [], ext);
    StemOf(stem, ONE, ext);
    StemPaths(stem, ext, [], stem);
    StemPaths(stem, ext, ONE, stem);
    assert stem + [] + ext == stem + ext;
    OneTaken(Parts(stem + ext), stem + ext, taken, random, stem + ONE + ext);
  }

  const NEW: Task := Task(1, A + WEBP, [], Queued, false, false, false, false)
  const OLD: Task := Task(2, A + ONE + ZIP, [], Queued, true, false, false, false)
  const SNAPSHOT: Index :=
    Index(map[1 := Job(Image, false, Queued, [1]), 2 := Job(Ugoira(Webp), false, Queued, [2])], map[1 := NEW, 2 := OLD], {1, 2})

  lemma NewPlaced(disk: set<Path>, random: seq<seq<Bytes>>)
    requires Randoms(random, 1) && disk == {A + WEBP, A + ONE + ZIP}
    ensures RestJob(SNAPSHOT, 1, {}, disk, random).tasks[0].filePath == A + ONE + WEBP
    ensures !RestJob(SNAPSHOT, 1, {}, disk, random).tasks[0].status.IsTerminal()
  {
    hide Resolved, Checked, Ext;
    var ts := RestAll(SNAPSHOT.tasks, [1]);
    assert ts == [NEW];
    assert !ts[0].status.IsTerminal();
    assert PlaceAll(Image, false, ts, {}, disk, random).tasks == [Place(Image, false, NEW, {}, disk, random[0]).task] by {
      assert ts[..0] == [] && ts[0] == NEW;
      hide Place;
    }
    assert {} + disk == disk;
    assert IsExt(WEBP) && A + ONE + WEBP !in disk by {
      assert (A + ONE + WEBP)[|A + ONE + WEBP| - 1] == 0x70 && |A + ONE + WEBP| != |A + WEBP| && |A + ONE + WEBP| != |A + ONE + ZIP|;
    }
    assert AltExt(Image, NEW.filePath) == [];
    Suffixed(A, WEBP, disk, random[0]);
  }

  lemma SnapshotApart()
    ensures Apart(SNAPSHOT)
  {
    FinalOfZip(A + ONE, Ugoira(Webp));
    FinalIsFile(Image, NEW.filePath);
    hide Ext, FinalPath;
    assert |A + WEBP| == 6 && |A + ONE + ZIP| == 9 && |A + ONE + WEBP| == 10;
    assert Claims(Image, NEW) == {A + WEBP};
    assert Claims(Ugoira(Webp), OLD) == {A + ONE + WEBP, A + ONE + ZIP};
    hide Claims;
    assert ClaimsOf(SNAPSHOT, 1) !! ClaimsOf(SNAPSHOT, 2);
  }

  lemma SnapshotOk()
    ensures Sound(SNAPSHOT) && Apart(SNAPSHOT) && SNAPSHOT.listed == SNAPSHOT.jobs.Keys && Walk(SNAPSHOT, [1, 2])
  {
    SnapshotApart();
    hide Apart;
  }

  /** Two unfinished tasks with disjoint claims, a file that appeared under the newer one's name:
      recovery gives the newer task the very path the older one will be converted to. */
  lemma RecoveryCanCollide(random: seq<seq<seq<Bytes>>>) returns (disk: set<Path>)
    requires |random| == 2 && Randoms(random[0], 1) && Randoms(random[1], 1)
    ensures Sound(SNAPSHOT) && Apart(SNAPSHOT) && Walk(SNAPSHOT, [1, 2]) && OrderOk(SNAPSHOT, [1, 2], random)
    ensures !Apart(Recover(SNAPSHOT, [1, 2], disk, random))
  {
    disk := {A + WEBP, A + ONE + ZIP};
    SnapshotOk();
    var order: seq<JobId> := [1, 2];
    assert OrderOk(SNAPSHOT, order, random);
    NewPlaced(disk, random[0]);
    assert order[..0] == [] && random[..0] == [];
    assert Turn(SNAPSHOT, order, disk, random, 0) == RestJob(SNAPSHOT, 1, {}, disk, random[0]) by { hide RestJob; }
    hide RestJob, Turn, RecoverTasks, Sound, Apart, FinalPath, Ext;
    RecoveredAt(SNAPSHOT, order, disk, random, 0, 0);
    RecoveredTask(SNAPSHOT, order, disk, random, 1);
    RecoveredTask(SNAPSHOT, order, disk, random, 2);
    FinalOfZip(A + ONE, Ugoira(Webp));
    Colliding(Recover(SNAPSHOT, order, disk, random));
  }

  lemma Colliding(r: Index)
    requires {1, 2} <= r.tasks.Keys && {1, 2} <= r.jobs.Keys && r.tasks[1].job == 1 && r.tasks[2].job == 2
    requires r.jobs[2].kind == Ugoira(Webp) && r.tasks[2].filePath == A + ONE + ZIP && r.tasks[1].filePath == A + ONE + WEBP
    requires !r.tasks[1].status.IsTerminal() && !r.tasks[2].status.IsTerminal()
    ensures !Apart(r)
  {
    FinalOfZip(A + ONE, Ugoira(Webp));
    hide FinalPath, Ext;
    assert A + ONE + WEBP in ClaimsOf(r, 1) && A + ONE + WEBP in ClaimsOf(r, 2);
    assert IsLive(r, 1) && IsLive(r, 2);
  }
}
