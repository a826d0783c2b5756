/** Handing out paths: `reservedPathsLocked` and `resolveJobCollisionsLocked`
    of internal/download/manager.go. */
module DownloadPaths {
  import opened Utf8
  import opened Naming
  import opened Collision
  import opened DownloadCore

  function AltExt(kind: Kind, filePath: Path): (a: Bytes)
    ensures IsAlt(a)
  {
    if IsZip(filePath) && !IsZip(FinalPath(kind, filePath)) then ZIP else []
  }

  /** The result for one task: its new record, the paths reserved so far, and whether
      no unchecked random suffix had to be used. */
  datatype Placed = Placed(task: Task, reserved: set<Path>, checked: bool)

  predicate OnlyPathsDiffer(a: Task, b: Task) {
    a.(filePath := b.filePath, metadataPath := b.metadataPath) == b
  }

  function Place(kind: Kind, metadata: bool, t: Task, reserved: set<Path>, disk: set<Path>, random: seq<Bytes>): (r: Placed)
    requires IsRandom(random)
    ensures OnlyPathsDiffer(r.task, t)
    ensures reserved <= r.reserved
  {
    var candidate := FinalPath(kind, t.filePath);
    if t.status.IsTerminal() then Placed(t, reserved, true)
    else if t.wroteFile || t.wroteMetadata then Placed(t, reserved + Claims(kind, t), true)
    else if candidate == [] then Placed(t, reserved, true)
    else
      var alt := AltExt(kind, t.filePath);
      var p := Resolved(candidate, alt, metadata, reserved + disk, random);
      PathsBudget(Parts(candidate), alt, metadata, Chosen(Parts(candidate), alt, metadata, reserved + disk, random));
      Placed(t.(filePath := if alt != [] then p[1] else p[0],
                metadataPath := if metadata then p[|p| - 1] else t.metadataPath),
             reserved + (set q | q in p),
             Checked(candidate, alt, metadata, reserved + disk, random))
  }

  datatype Batch = Batch(tasks: seq<Task>, reserved: set<Path>, checked: bool)

  predicate Randoms(r: seq<seq<Bytes>>, n: nat) { |r| == n && forall i :: 0 <= i < n ==> IsRandom(r[i]) }

  function PlaceAll(kind: Kind, metadata: bool, ts: seq<Task>, reserved: set<Path>, disk: set<Path>, random: seq<seq<Bytes>>): (r: Batch)
    requires Randoms(random, |ts|)
    ensures |r.tasks| == |ts|
    decreases |ts|
  {
    if ts == [] then Batch([], reserved, true)
    else
      var front := PlaceAll(kind, metadata, ts[..|ts| - 1], reserved, disk, random[..|ts| - 1]);
      var last := Place(kind, metadata, ts[|ts| - 1], front.reserved, disk, random[|ts| - 1]);
      Batch(front.tasks + [last.task], last.reserved, front.checked && last.checked)
  }

  // ----- what a placed task claims -----

  /** A task that has recorded no output: an unconverted ugoira is a zip, one whose converted file turned out
      not to be its own still carries the converted name. */
  predicate Unwritten(kind: Kind, metadata: bool, t: Task) {
    && !t.status.IsTerminal() && !t.wroteFile && !t.wroteMetadata && t.filePath != []
    && (kind.Ugoira? && !kind.format.Keep? ==> IsZip(t.filePath) || Ext(t.filePath) == FormatExt(kind.format))
    && (!metadata ==> t.metadataPath == [])
  }

  lemma ReplacedExt(x: Path, e: Bytes, f: Bytes)
    requires e != [] && IsExt(e)
    ensures Ext(x + e) == e && ReplaceExt(x + e, f) == x + f
  {
    hide Ext;
    ExtOfConcat(x, e);
    assert (x + e)[..|x + e| - |e|] == x;
  }

  lemma ConvertedCandidate(kind: Kind, filePath: Path)
    requires kind.Ugoira? && !kind.format.Keep? && IsZip(filePath) && filePath != []
    ensures AltExt(kind, filePath) == ZIP
    ensures Parts(FinalPath(kind, filePath)).ext == FormatExt(kind.format)
  {
    var e := FormatExt(kind.format);
    var stem := filePath[..|filePath| - |Ext(filePath)|];
    ExtOfConcat(stem, e);
    var base := stem + e;
    assert FinalPath(kind, filePath) == base;
    ExtOfName(base);
  }

  /** `filepath.Ext` never looks past the last separator. */
  lemma {:induction false} ExtBehindDir(d: Path, name: Path)
    requires SLASH !in name && (d == [] || d[|d| - 1] == SLASH)
    ensures Ext(d + name) == Ext(name)
    decreases |name|
  {
    assert Ext(d) == Ext([]);
    hide Ext;
    if name == [] {
      assert d + name == d;
    } else {
      var front, last := name[..|name| - 1], name[|name| - 1];
      ExtBehindDir(d, front);
      ExtStep(d + front, last);
      ExtStep(front, last);
      assert front + [last] == name;
      assert d + front + [last] == d + name;
    }
  }

  lemma ExtOfName(base: Path)
    ensures Ext(base[DirLen(base)..]) == Ext(base)
  {
    hide Ext;
    ExtBehindDir(base[..DirLen(base)], base[DirLen(base)..]);
    assert base[..DirLen(base)] + base[DirLen(base)..] == base;
  }

  lemma ExtStep(x: Path, b: byte)
    requires b != SLASH
    ensures Ext(x + [b]) == if b == DOT then [DOT] else if Ext(x) == [] then [] else Ext(x) + [b]
  {
    assert (x + [b])[..|x|] == x;
  }

  lemma FinalOfZip(prefix: Path, kind: Kind)
    requires kind.Ugoira? && !kind.format.Keep?
    ensures IsZip(prefix + ZIP) && FinalPath(kind, prefix + ZIP) == prefix + FormatExt(kind.format)
  {
    ReplacedExt(prefix, ZIP, FormatExt(kind.format));
  }

  function Offered(kind: Kind, metadata: bool, t: Task, taken: set<Path>, random: seq<Bytes>): seq<Path>
    requires IsRandom(random)
  {
    Resolved(FinalPath(kind, t.filePath), AltExt(kind, t.filePath), metadata, taken, random)
  }

  /** The paths offered by the resolver, spelled out. */
  lemma OfferedShape(kind: Kind, metadata: bool, t: Task, taken: set<Path>, random: seq<Bytes>) returns (prefix: Path, ext: Bytes)
    requires IsRandom(random) && Unwritten(kind, metadata, t)
    ensures var p := Offered(kind, metadata, t, taken, random);
      && prefix != []
      && p == [prefix + ext] + (if AltExt(kind, t.filePath) == [] then [] else [prefix + ZIP]) + (if metadata then [prefix + ext + JSON] else [])
    ensures kind.Ugoira? && !kind.format.Keep? ==> ext == FormatExt(kind.format)
    ensures AltExt(kind, t.filePath) == if Pending(kind, t) then ZIP else []
  {
    hide Ext, IsZip, Parts, Chosen, ShortStem, FormatExt, FinalPath, AltExt;
    var target := Parts(FinalPath(kind, t.filePath));
    var alt := AltExt(kind, t.filePath);
    var suffix := Chosen(target, alt, metadata, taken, random);
    prefix := target.dir + ShortStem(target, alt, suffix) + suffix;
    ext := target.ext;
    if Pending(kind, t) {
      ConvertedCandidate(kind, t.filePath);
    } else {
      NoCompanion(kind, metadata, t);
    }
  }

  /** Still to be converted. */
  predicate Pending(kind: Kind, t: Task) { kind.Ugoira? && !kind.format.Keep? && IsZip(t.filePath) }

  lemma NoCompanion(kind: Kind, metadata: bool, t: Task)
    requires Unwritten(kind, metadata, t) && !Pending(kind, t)
    ensures FinalPath(kind, t.filePath) == t.filePath && AltExt(kind, t.filePath) == []
    ensures kind.Ugoira? && !kind.format.Keep? ==> Parts(t.filePath).ext == FormatExt(kind.format)
  {
    hide Ext, DirLen;
    ExtOfName(t.filePath);
  }

  /** A freshly placed task claims exactly the paths the resolver offered,
      and its sidecar carries the final media name. */
  lemma PlacedClaims(kind: Kind, metadata: bool, t: Task, reserved: set<Path>, disk: set<Path>, random: seq<Bytes>)
    requires IsRandom(random) && Unwritten(kind, metadata, t)
    ensures var r := Place(kind, metadata, t, reserved, disk, random);
      && Unwritten(kind, metadata, r.task)
      && Claims(kind, r.task) == (set q | q in Offered(kind, metadata, t, reserved + disk, random))
      && r.reserved == reserved + Claims(kind, r.task)
      && (metadata ==> r.task.metadataPath == FinalPath(kind, r.task.filePath) + JSON)
  {
    hide Ext, IsZip, Resolved, Checked, FormatExt, AltExt, Claims, FinalPath;
    FinalNonempty(kind, t.filePath);
    var p := Offered(kind, metadata, t, reserved + disk, random);
    var prefix, ext := OfferedShape(kind, metadata, t, reserved + disk, random);
    var r := Place(kind, metadata, t, reserved, disk, random);
    if Pending(kind, t) {
      FinalOfZip(prefix, kind);
      assert r.task.filePath == prefix + ZIP;
    } else {
      assert r.task.filePath == prefix + ext;
      FinalStays(kind, prefix, ext);
    }
    assert FinalPath(kind, r.task.filePath) == prefix + ext;
    assert metadata ==> r.task.metadataPath == prefix + ext + JSON;
    ClaimsAre(kind, r.task, p, prefix, ext, metadata, AltExt(kind, t.filePath));
  }

  lemma FinalIsFile(kind: Kind, filePath: Path)
    requires kind.Image? || kind.format.Keep?
    ensures FinalPath(kind, filePath) == filePath
  {
  }

  /** A name with the format's own extension is final. */
  lemma FinalStays(kind: Kind, prefix: Path, ext: Bytes)
    requires kind.Ugoira? && !kind.format.Keep? ==> ext == FormatExt(kind.format)
    ensures FinalPath(kind, prefix + ext) == prefix + ext
    ensures kind.Ugoira? && !kind.format.Keep? ==> Ext(prefix + ext) == ext
  {
    if kind.Ugoira? && !kind.format.Keep? {
      ReplacedExt(prefix, ext, ZIP);
      assert ext != ZIP;
    }
  }

  lemma ClaimsAre(kind: Kind, t: Task, p: seq<Path>, prefix: Path, ext: Bytes, metadata: bool, alt: Bytes)
    requires prefix != [] && FinalPath(kind, t.filePath) == prefix + ext
    requires p == [prefix + ext] + (if alt == [] then [] else [prefix + ZIP]) + (if metadata then [prefix + ext + JSON] else [])
    requires t.filePath == if alt == [] then prefix + ext else prefix + ZIP
    requires t.metadataPath == if metadata then prefix + ext + JSON else []
    ensures Claims(kind, t) == set q | q in p
  {
    hide FinalPath;
  }

  lemma FinalNonempty(kind: Kind, filePath: Path)
    requires filePath != []
    ensures FinalPath(kind, filePath) != []
  {
  }

  /** Unless the unchecked suffix was used, no claimed path was reserved or on disk. */
  lemma PlacedIsFresh(kind: Kind, metadata: bool, t: Task, reserved: set<Path>, disk: set<Path>, random: seq<Bytes>)
    requires IsRandom(random) && Unwritten(kind, metadata, t)
    requires Place(kind, metadata, t, reserved, disk, random).checked
    ensures Claims(kind, Place(kind, metadata, t, reserved, disk, random).task) !! reserved + disk
  {
    hide Resolved, Checked, FinalPath, AltExt, Claims;
    PlacedClaims(kind, metadata, t, reserved, disk, random);
    FinalNonempty(kind, t.filePath);
    ResolvedIsFree(FinalPath(kind, t.filePath), AltExt(kind, t.filePath), metadata, reserved + disk, random);
  }
}
