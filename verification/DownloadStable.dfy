/** Resolving a path that the resolver gave out returns the same path, truncation included,
    exactly when its file name is more than an extension. */
module DownloadStable {
  import opened Utf8
  import opened Naming
  import opened Collision
  import opened DownloadCore
  import opened DownloadPaths

  /** The shape of what the resolver gives out: one name within the budget for all of a task's paths. */
  ghost predicate Tidy(kind: Kind, metadata: bool, t: Task) {
    var final := FinalPath(kind, t.filePath);
    && t.filePath != [] && |final| - DirLen(final) <= MAX_NAME_BYTES
    && t.metadataPath == (if metadata then final + JSON else [])
    && (Pending(kind, t) ==> exists prefix: Path ::
          t.filePath == prefix + ZIP && final == prefix + FormatExt(kind.format))
    && (!Pending(kind, t) ==> final == t.filePath)
  }

  function OwnPaths(kind: Kind, metadata: bool, t: Task): seq<Path> {
    [FinalPath(kind, t.filePath)]
    + (if AltExt(kind, t.filePath) == [] then [] else [t.filePath])
    + (if metadata then [t.metadataPath] else [])
  }

  lemma DirLenGrows(x: Path, y: Path)
    requires x == [] || x[|x| - 1] == SLASH
    ensures DirLen(x + y) >= |x|
  {
    hide DirLen;
    forall d | 0 <= d < |x| ensures SLASH in (x + y)[d..] {
      assert (x + y)[d..][|x| - 1 - d] == SLASH;
    }
  }

  /** Every placed task is tidy. */
  lemma PlacedTidy(kind: Kind, metadata: bool, t: Task, reserved: set<Path>, disk: set<Path>, random: seq<Bytes>)
    requires IsRandom(random) && Unwritten(kind, metadata, t)
    ensures Tidy(kind, metadata, Place(kind, metadata, t, reserved, disk, random).task)
  {
    hide Resolved, Checked, Ext, IsZip, Claims, FinalPath, FormatExt, AltExt, DirLen;
    var base := FinalPath(kind, t.filePath);
    var prefix, ext := OfferedShape(kind, metadata, t, reserved + disk, random);
    var final := Offered(kind, metadata, t, reserved + disk, random)[0];
    FinalNonempty(kind, t.filePath);
    OfferedName(kind, metadata, t, reserved + disk, random);
    PlacedFile(kind, metadata, t, reserved, disk, random, prefix, ext);
    PlacedClaims(kind, metadata, t, reserved, disk, random);
  }

  lemma OfferedName(kind: Kind, metadata: bool, t: Task, taken: set<Path>, random: seq<Bytes>)
    requires IsRandom(random) && Unwritten(kind, metadata, t)
    ensures var p := Offered(kind, metadata, t, taken, random);
      |p| >= 1 && |p[0]| - DirLen(p[0]) <= MAX_NAME_BYTES
  {
    hide Resolved, AltExt, DirLen, FinalPath, Unwritten;
    NameBudget(FinalPath(kind, t.filePath), AltExt(kind, t.filePath), metadata, taken, random);
  }

  lemma NameBudget(base: Path, alt: Bytes, metadata: bool, taken: set<Path>, random: seq<Bytes>)
    requires IsAlt(alt) && IsRandom(random)
    ensures var p := Resolved(base, alt, metadata, taken, random);
      |p| >= 1 && |p[0]| - DirLen(p[0]) <= MAX_NAME_BYTES
  {
    hide Resolved;
    var p := Resolved(base, alt, metadata, taken, random);
    WithinBudget(base, alt, metadata, taken, random);
    var dir := base[..DirLen(base)];
    hide DirLen;
    assert p[0] == dir + p[0][|dir|..];
    DirLenGrows(dir, p[0][|dir|..]);
  }

  lemma PlacedFile(kind: Kind, metadata: bool, t: Task, reserved: set<Path>, disk: set<Path>, random: seq<Bytes>, prefix: Path, ext: Bytes)
    requires IsRandom(random) && Unwritten(kind, metadata, t) && prefix != [] && FinalPath(kind, t.filePath) != []
    requires var p := Offered(kind, metadata, t, reserved + disk, random);
      p == [prefix + ext] + (if AltExt(kind, t.filePath) == [] then [] else [prefix + ZIP]) + (if metadata then [prefix + ext + JSON] else [])
    requires AltExt(kind, t.filePath) == if Pending(kind, t) then ZIP else []
    requires kind.Ugoira? && !kind.format.Keep? ==> ext == FormatExt(kind.format)
    ensures var r := Place(kind, metadata, t, reserved, disk, random).task; var final := FinalPath(kind, r.filePath);
      && final == prefix + ext && r.filePath != [] && r.metadataPath == (if metadata then final + JSON else [])
      && (Pending(kind, t) ==> r.filePath == prefix + ZIP && Pending(kind, r))
      && (!Pending(kind, t) ==> r.filePath == final && !Pending(kind, r))
  {
    hide Resolved, Checked, Ext, IsZip, FinalPath, FormatExt, AltExt;
    var r := Place(kind, metadata, t, reserved, disk, random).task;
    if Pending(kind, t) {
      FinalOfZip(prefix, kind);
      assert r.filePath == prefix + ZIP;
    } else {
      FinalStays(kind, prefix, ext);
      if kind.Ugoira? && !kind.format.Keep? {
        NotZip(kind, prefix, ext);
      }
      assert r.filePath == prefix + ext;
    }
  }

  lemma NotZip(kind: Kind, prefix: Path, ext: Bytes)
    requires kind.Ugoira? && !kind.format.Keep? && ext == FormatExt(kind.format)
    ensures !IsZip(prefix + ext)
  {
    ReplacedExt(prefix, ext, ZIP);
  }

  lemma ConvertedParts(kind: Kind, prefix: Path)
    requires kind.Ugoira? && !kind.format.Keep?
    ensures AltExt(kind, prefix + ZIP) == ZIP && FinalPath(kind, prefix + ZIP) == prefix + FormatExt(kind.format)
    ensures Parts(prefix + FormatExt(kind.format)).ext == FormatExt(kind.format)
  {
    FinalOfZip(prefix, kind);
    ConvertedCandidate(kind, prefix + ZIP);
  }

  /** The resolver's first candidate for a tidy task is the task's own set of paths, or starts with
      the placeholder "_" that an empty stem gets. */
  lemma TidyIsStable(kind: Kind, metadata: bool, t: Task)
    requires Tidy(kind, metadata, t)
    ensures var q := Parts(FinalPath(kind, t.filePath));
      PathsFor(q, AltExt(kind, t.filePath), metadata, []) == OwnPaths(kind, metadata, t) <==> q.stem != []
  {
    var final := FinalPath(kind, t.filePath);
    var alt := AltExt(kind, t.filePath);
    var q := Parts(final);
    if Pending(kind, t) {
      var prefix :| t.filePath == prefix + ZIP && final == prefix + FormatExt(kind.format);
      ConvertedParts(kind, prefix);
      hide Parts, AltExt, FinalPath, DirLen;
      assert q.dir + q.stem == prefix by { SameTail(q.dir + q.stem, prefix, q.ext); }
      assert Max(|q.ext|, |alt|) == |q.ext|;
      FirstCandidate(q, alt, metadata);
    } else {
      assert alt == [];
      hide Parts, AltExt, FinalPath, DirLen;
      FirstCandidate(q, alt, metadata);
    }
  }

  lemma SameTail(x: Path, y: Path, e: Path)
    requires x + e == y + e
    ensures x == y
  {
    assert x == (x + e)[..|x|] && y == (y + e)[..|y|];
  }

  lemma FirstCandidate(q: Target, alt: Bytes, metadata: bool)
    requires |q.ext| <= MAX_NAME_BYTES - 12 && IsAlt(alt) && |q.stem| + Max(|q.ext|, |alt|) <= MAX_NAME_BYTES
    ensures q.stem != [] ==> (
      PathsFor(q, alt, metadata, []) ==
      [q.dir + q.stem + q.ext] + (if alt == [] then [] else [q.dir + q.stem + alt]) + (if metadata then [q.dir + q.stem + q.ext + JSON] else []))
    ensures q.stem == [] ==> PathsFor(q, alt, metadata, [])[0] != q.dir + q.stem + q.ext
  {
    assert q.dir + q.stem + [] == q.dir + q.stem;
    if q.stem == [] {
      assert |PathsFor(q, alt, metadata, [])[0]| == |q.dir| + 1 + |q.ext|;
    }
  }

  /** Resolving a tidy, unwritten task again changes nothing when its own paths are free. */
  lemma StablePlace(kind: Kind, metadata: bool, t: Task, reserved: set<Path>, disk: set<Path>, random: seq<Bytes>)
    requires IsRandom(random) && Unwritten(kind, metadata, t) && Tidy(kind, metadata, t)
    requires Parts(FinalPath(kind, t.filePath)).stem != [] && Claims(kind, t) !! reserved + disk
    ensures var r := Place(kind, metadata, t, reserved, disk, random);
      r.task == t && r.checked && r.reserved == reserved + Claims(kind, t)
  {
    var base := FinalPath(kind, t.filePath);
    var alt := AltExt(kind, t.filePath);
    var own := OwnPaths(kind, metadata, t);
    TidyIsStable(kind, metadata, t);
    OwnClaims(kind, metadata, t);
    FinalNonempty(kind, t.filePath);
    hide Parts, PathsFor, AltExt, DirLen, Claims;
    assert Numbered(0) == [];
    FreeFirst(Parts(base), alt, metadata, reserved + disk, own, random);
    assert Resolved(base, alt, metadata, reserved + disk, random) == own;
    TidyAlt(kind, metadata, t);
  }

  lemma FreeFirst(q: Target, alt: Bytes, metadata: bool, taken: set<Path>, own: seq<Path>, random: seq<Bytes>)
    requires |q.ext| <= MAX_NAME_BYTES - 12 && IsAlt(alt) && IsRandom(random)
    requires PathsFor(q, alt, metadata, []) == own && forall p :: p in own ==> p !in taken
    ensures LeastFree(q, alt, metadata, taken, 0) == 0 && Chosen(q, alt, metadata, taken, random) == []
  {
    hide PathsFor;
    assert Numbered(0) == [];
    assert FreeAt(q, alt, metadata, taken, 0);
  }

  lemma OwnClaims(kind: Kind, metadata: bool, t: Task)
    requires Tidy(kind, metadata, t)
    ensures (set p | p in OwnPaths(kind, metadata, t)) == Claims(kind, t)
  {
    var own := OwnPaths(kind, metadata, t);
    FinalNonempty(kind, t.filePath);
    TidyAlt(kind, metadata, t);
    hide AltExt, FinalPath, DirLen;
    assert own[0] in own;
  }

  lemma TidyAlt(kind: Kind, metadata: bool, t: Task)
    requires Tidy(kind, metadata, t)
    ensures AltExt(kind, t.filePath) == if Pending(kind, t) then ZIP else []
    ensures !Pending(kind, t) ==> FinalPath(kind, t.filePath) == t.filePath
  {
    hide DirLen, Ext;
    if Pending(kind, t) {
      var prefix :| t.filePath == prefix + ZIP && FinalPath(kind, t.filePath) == prefix + FormatExt(kind.format);
      ConvertedParts(kind, prefix);
    }
  }

  // ----- a name the resolver does not keep -----

  function Spaces(n: nat): (s: Bytes)
    ensures |s| == n && forall i :: 0 <= i < n ==> s[i] == SPACE
  {
    seq(n, _ => SPACE)
  }

  lemma LastAscii(x: Bytes, b: byte)
    requires b < 0x80
    ensures LastLen(x + [b]) == 1 && LastRune(x + [b]) == b
  {
    assert (x + [b])[|x|..] == [b];
    assert LastLen([b]) == 1 && [b][0..] == [b];
    hide RuneLen;
    LastOfSuffix(x + [b], |x|);
  }

  lemma {:induction false} PaddingGoes(x: Bytes, n: nat)
    ensures TrimRight(x + Spaces(n), WHITE) == TrimRight(x, WHITE)
  {
    hide LastLen, LastRune;
    if n == 0 {
      assert x + Spaces(0) == x;
    } else {
      var front := x + Spaces(n - 1);
      assert x + Spaces(n) == front + [SPACE];
      LastAscii(front, SPACE);
      assert (front + [SPACE])[..|front|] == front;
      PaddingGoes(x, n - 1);
    }
  }

  const DOT_A: Bytes := [DOT, 0x61]
  const ONE: Bytes := [SPACE, OPEN, 0x31, CLOSE]

  lemma PaddedStem(name: Bytes)
    requires name == DOT_A + Spaces(237) + [0x62]
    ensures Truncated(name, 236) == DOT_A
  {
    assert TrimRight(DOT_A, WHITE) == DOT_A by {
      LastAscii([DOT], 0x61);
      assert [DOT] + [0x61] == DOT_A;
      hide LastRune;
    }
    hide TrimRight;
    assert name[236] == SPACE;
    assert CutBack(name, 236) == 236;
    assert name[..236] == DOT_A + Spaces(234);
    PaddingGoes(DOT_A, 234);
  }

  /** A name that is all extension: an oversized one counts as stem, any other leaves no stem. */
  lemma ExtOnly(name: Bytes)
    requires name != [] && IsExt(name)
    ensures Parts(name) == if |name| > MAX_NAME_BYTES - 12 then Target([], name, []) else Target([], [], name)
  {
    assert DirLen(name) == 0 by {
      hide DirLen;
      assert forall i :: 0 <= i < |name| ==> name[i] != SLASH;
    }
    assert name[0..] == name && [] + name == name;
    ExtOfConcat([], name);
    hide Ext, DirLen;
    assert name[..0] == [];
  }

  lemma OneTaken(q: Target, name: Path, taken: set<Path>, random: seq<Bytes>, other: Path)
    requires |q.ext| <= MAX_NAME_BYTES - 12 && IsRandom(random)
    requires PathsFor(q, [], false, []) == [name] && PathsFor(q, [], false, Numbered(1)) == [other]
    requires name in taken && other !in taken
    ensures Chosen(q, [], false, taken, random) == Numbered(1)
  {
    hide PathsFor;
    assert Numbered(0) == [];
    assert !FreeAt(q, [], false, taken, 0) by {
      assert PathsFor(q, [], false, Numbered(0))[0] == name;
    }
    assert FreeAt(q, [], false, taken, 1);
    assert LeastFree(q, [], false, taken, 0) == 1;
  }

  lemma StemPaths(stem: Bytes, ext: Bytes, suffix: Bytes, short: Bytes)
    requires |ext| <= MAX_NAME_BYTES - 12 && |suffix| <= 11 && short == ShortStem(Target([], stem, ext), [], suffix)
    ensures PathsFor(Target([], stem, ext), [], false, suffix) == [short + suffix + ext]
  {
    hide ShortStem;
    assert [] + short + suffix + ext == short + suffix + ext;
  }

  lemma StemOf(stem: Bytes, suffix: Bytes, ext: Bytes)
    requires |ext| <= MAX_NAME_BYTES - 12 && |suffix| <= 11
    ensures var t := Truncated(stem, MAX_NAME_BYTES - |ext| - |suffix|);
      ShortStem(Target([], stem, ext), [], suffix) == if t == [] then [UNDERSCORE] else t
  {
    hide Truncated;
  }

  /** A bare extension is given out with the placeholder in front. */
  lemma BareExtension(short: Bytes, taken: set<Path>, random: seq<Bytes>)
    requires short != [] && IsExt(short) && |short| <= MAX_NAME_BYTES - 12 && IsRandom(random)
    requires [UNDERSCORE] + short !in taken
    ensures Parts(short).stem == [] && Resolved(short, [], false, taken, random) == [[UNDERSCORE] + short]
  {
    hide Parts, PathsFor, Chosen, ShortStem, IsExt, LeastFree, Truncated, Ext, DirLen, FreeAt;
    ExtOnly(short);
    var q := Parts(short);
    assert PathsFor(q, [], false, []) == [[UNDERSCORE] + short] by {
      StemOf([], [], short);
      StemPaths([], short, [], [UNDERSCORE]);
      assert [UNDERSCORE] + [] + short == [UNDERSCORE] + short;
    }
    FreeFirst(q, [], false, taken, [[UNDERSCORE] + short], random);
  }

  /** A padded, oversized extension that collides is given out cut down to `head` and numbered. */
  lemma CutDown(name: Bytes, head: Bytes, random: seq<Bytes>)
    requires IsExt(name) && |name| == MAX_NAME_BYTES && Truncated(name, 236) == head && head != [] && |head| < 200 && IsRandom(random)
    ensures Resolved(name, [], false, {name}, random) == [head + Numbered(1)]
  {
    hide Parts, PathsFor, Chosen, ShortStem, IsExt, LeastFree, Truncated, Numbered;
    ExtOnly(name);
    assert |Numbered(1)| == 4 by { OneIs(); }
    StemOf(name, [], []);
    StemOf(name, Numbered(1), []);
    StemPaths(name, [], [], name);
    StemPaths(name, [], Numbered(1), head);
    assert name + [] + [] == name && head + Numbered(1) + [] == head + Numbered(1);
    assert |head + Numbered(1)| < |name|;
    OneTaken(Parts(name), name, {name}, random, head + Numbered(1));
  }

  lemma OneIs()
    ensures Numbered(1) == ONE
  {
  }

  /** ".a", 237 spaces and "b" collide with an existing file: the resolver cuts the padding and gives
      out ".a (1)", whose stem is empty, so it would not give out that name again. */
  lemma ResolverNotIdempotent(name: Bytes, random: seq<Bytes>)
    requires name == DOT_A + Spaces(237) + [0x62] && IsRandom(random)
    ensures Resolved(name, [], false, {name}, random) == [DOT_A + ONE]
    ensures Parts(DOT_A + ONE).stem == []
    ensures Resolved(DOT_A + ONE, [], false, {name}, random) == [[UNDERSCORE] + (DOT_A + ONE)]
  {
    hide Parts, Resolved, Truncated, Numbered;
    assert IsExt(name) && |name| == 240;
    PaddedStem(name);
    OneIs();
    CutDown(name, DOT_A, random);
    BareExtension(DOT_A + ONE, {name}, random);
  }
}
