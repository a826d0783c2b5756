/** `resolveOutputPaths` and `findFreeSuffix` of internal/download/naming.go:
    one collision suffix for the media file, its zip and its sidecar. */
module Collision {
  import opened Utf8
  import opened Naming
  import opened Decimals

  const ZIP: Bytes := [0x2E, 0x7A, 0x69, 0x70]
  const JSON: Bytes := [0x2E, 0x6A, 0x73, 0x6F, 0x6E]
  const OPEN: byte := 0x28
  const CLOSE: byte := 0x29

  /** Length of the directory part, last separator included (`filepath.Split`). */
  function DirLen(path: Bytes): (n: nat)
    ensures n <= |path| && (n == 0 || path[n - 1] == SLASH)
    ensures SLASH !in path[n..]
  {
    if path == [] then 0
    else if path[|path| - 1] == SLASH then |path|
    else DirLen(path[..|path| - 1])
  }

  datatype Target = Target(dir: Bytes, stem: Bytes, ext: Bytes)

  /** How `resolveOutputPaths` takes a path apart; an oversized extension goes to the stem. */
  function Parts(base: Bytes): (t: Target)
    ensures t.dir + t.stem + t.ext == base && t.dir == base[..DirLen(base)]
    ensures |t.ext| <= MAX_NAME_BYTES - 12 && IsExt(t.ext)
  {
    var dir, name := base[..DirLen(base)], base[DirLen(base)..];
    ExtShape(name);
    var ext := Ext(name);
    if |ext| > MAX_NAME_BYTES - 12 then Target(dir, name, [])
    else Target(dir, name[..|name| - |ext|], ext)
  }

  predicate IsAlt(alt: Bytes) { alt == [] || alt == ZIP }

  function Max(a: nat, b: nat): nat { if a > b then a else b }

  function ShortStem(t: Target, alt: Bytes, suffix: Bytes): (s: Bytes)
    requires |t.ext| <= MAX_NAME_BYTES - 12 && IsAlt(alt) && |suffix| <= 11
    ensures s != [] && |s| + |suffix| + Max(|t.ext|, |alt|) <= MAX_NAME_BYTES
  {
    var short := Truncated(t.stem, MAX_NAME_BYTES - Max(|t.ext|, |alt|) - |suffix|);
    if short == [] then [UNDERSCORE] else short
  }

  /** Media, optional zip and optional sidecar path for one suffix. */
  function PathsFor(t: Target, alt: Bytes, metadata: bool, suffix: Bytes): (p: seq<Bytes>)
    requires |t.ext| <= MAX_NAME_BYTES - 12 && IsAlt(alt) && |suffix| <= 11
    ensures |p| >= 1
  {
    var prefix := t.dir + ShortStem(t, alt, suffix) + suffix;
    [prefix + t.ext]
    + (if alt == [] then [] else [prefix + alt])
    + (if metadata then [prefix + t.ext + JSON] else [])
  }

  /** " (n)", and nothing for 0. */
  function Numbered(n: nat): (s: Bytes)
    requires n <= 9999
    ensures |s| <= 7
  {
    DecimalShort(n);
    if n == 0 then [] else [SPACE, OPEN] + Decimal(n) + [CLOSE]
  }

  predicate IsFree(p: seq<Bytes>, taken: set<Bytes>) {
    forall i :: 0 <= i < |p| ==> p[i] !in taken
  }

  predicate FreeAt(t: Target, alt: Bytes, metadata: bool, taken: set<Bytes>, n: nat)
    requires |t.ext| <= MAX_NAME_BYTES - 12 && IsAlt(alt) && n <= 9999
  {
    IsFree(PathsFor(t, alt, metadata, Numbered(n)), taken)
  }

  /** The 65 random fallbacks of one call, eight hex digits each; the last one is used unchecked. */
  predicate IsRandom(random: seq<Bytes>) {
    |random| == 65 && forall i :: 0 <= i < 65 ==> |random[i]| == 8
  }

  function Fallback(hex: Bytes): (s: Bytes)
    requires |hex| == 8
    ensures |s| == 11
  {
    [SPACE, OPEN] + hex + [CLOSE]
  }

  /** The least free number at or above `n`, or 10000. */
  function LeastFree(t: Target, alt: Bytes, metadata: bool, taken: set<Bytes>, n: nat): (m: nat)
    requires |t.ext| <= MAX_NAME_BYTES - 12 && IsAlt(alt) && n <= 10000
    ensures n <= m <= 10000
    ensures m <= 9999 ==> FreeAt(t, alt, metadata, taken, m)
    ensures forall k :: n <= k < m ==> !FreeAt(t, alt, metadata, taken, k)
    decreases 10000 - n
  {
    hide FreeAt;
    if n == 10000 || FreeAt(t, alt, metadata, taken, n) then n
    else LeastFree(t, alt, metadata, taken, n + 1)
  }

  /** The least index of a free random fallback at or above `i`, or 64. */
  function LeastRandom(t: Target, alt: Bytes, metadata: bool, taken: set<Bytes>, random: seq<Bytes>, i: nat): (j: nat)
    requires |t.ext| <= MAX_NAME_BYTES - 12 && IsAlt(alt) && IsRandom(random) && i <= 64
    ensures i <= j <= 64
    ensures j < 64 ==> IsFree(PathsFor(t, alt, metadata, Fallback(random[j])), taken)
    decreases 64 - i
  {
    hide PathsFor;
    if i == 64 || IsFree(PathsFor(t, alt, metadata, Fallback(random[i])), taken) then i
    else LeastRandom(t, alt, metadata, taken, random, i + 1)
  }

  function Chosen(t: Target, alt: Bytes, metadata: bool, taken: set<Bytes>, random: seq<Bytes>): (s: Bytes)
    requires |t.ext| <= MAX_NAME_BYTES - 12 && IsAlt(alt) && IsRandom(random)
    ensures |s| <= 11
  {
    var n := LeastFree(t, alt, metadata, taken, 0);
    if n <= 9999 then Numbered(n)
    else Fallback(random[LeastRandom(t, alt, metadata, taken, random, 0)])
  }

  /** The paths `resolveOutputPaths` returns when `taken` holds the reserved and existing paths. */
  function Resolved(base: Bytes, alt: Bytes, metadata: bool, taken: set<Bytes>, random: seq<Bytes>): (p: seq<Bytes>)
    requires IsAlt(alt) && IsRandom(random)
  {
    PathsFor(Parts(base), alt, metadata, Chosen(Parts(base), alt, metadata, taken, random))
  }

  /** True unless all 9999 numbers and 64 random tries were taken. */
  predicate Checked(base: Bytes, alt: Bytes, metadata: bool, taken: set<Bytes>, random: seq<Bytes>)
    requires IsAlt(alt) && IsRandom(random)
  {
    || LeastFree(Parts(base), alt, metadata, taken, 0) <= 9999
    || LeastRandom(Parts(base), alt, metadata, taken, random, 0) < 64
  }

  method FindFreeSuffix(t: Target, alt: Bytes, metadata: bool, taken: set<Bytes>, random: seq<Bytes>) returns (s: Bytes)
    requires |t.ext| <= MAX_NAME_BYTES - 12 && IsAlt(alt) && IsRandom(random)
    ensures s == Chosen(t, alt, metadata, taken, random)
  {
    hide PathsFor, FreeAt, Numbered;
    if FreeAt(t, alt, metadata, taken, 0) {
      return Numbered(0);
    }
    var i := 1;
    while i <= 9999
      invariant 1 <= i <= 10000
      invariant LeastFree(t, alt, metadata, taken, 0) == LeastFree(t, alt, metadata, taken, i)
    {
      if FreeAt(t, alt, metadata, taken, i) {
        return Numbered(i);
      }
      i := i + 1;
    }
    var j := 0;
    while j < 64
      invariant 0 <= j <= 64
      invariant LeastRandom(t, alt, metadata, taken, random, 0) == LeastRandom(t, alt, metadata, taken, random, j)
    {
      if IsFree(PathsFor(t, alt, metadata, Fallback(random[j])), taken) {
        return Fallback(random[j]);
      }
      j := j + 1;
    }
    s := Fallback(random[64]);
  }

  method ResolveOutputPaths(base: Bytes, alt: Bytes, metadata: bool, reserved: set<Bytes>, disk: set<Bytes>, random: seq<Bytes>)
    returns (p: seq<Bytes>)
    requires IsAlt(alt) && IsRandom(random)
    ensures p == Resolved(base, alt, metadata, reserved + disk, random)
  {
    var t := Parts(base);
    var suffix := FindFreeSuffix(t, alt, metadata, reserved + disk, random);
    p := PathsFor(t, alt, metadata, suffix);
  }

  /** Every path returned is free, unless the final unchecked suffix had to be used. */
  lemma ResolvedIsFree(base: Bytes, alt: Bytes, metadata: bool, taken: set<Bytes>, random: seq<Bytes>)
    requires IsAlt(alt) && IsRandom(random) && Checked(base, alt, metadata, taken, random)
    ensures IsFree(Resolved(base, alt, metadata, taken, random), taken)
  {
    hide PathsFor, Parts;
  }

  // ----- pigeonhole: k taken paths never push the number past k + 1 -----

  /** An extension put behind any string is read back by `Ext`. */
  lemma {:induction false} ExtOfConcat(x: Bytes, e: Bytes)
    requires e != [] && e[0] == DOT && forall i :: 1 <= i < |e| ==> e[i] != DOT && e[i] != SLASH
    ensures Ext(x + e) == e
    decreases |e|
  {
    var s := x + e;
    assert s[|s| - 1] == e[|e| - 1];
    if |e| > 1 {
      var front := e[..|e| - 1];
      ExtOfConcat(x, front);
      assert s[..|s| - 1] == x + front;
      assert Ext(s) == front + [e[|e| - 1]];
    }
  }

  /** The three endings a numbered path can have. */
  predicate IsTail(tail: Bytes, ext: Bytes) { tail == ext || tail == ZIP || tail == ext + JSON }

  lemma TailExt(x: Bytes, tail: Bytes, ext: Bytes)
    requires IsExt(ext) && IsTail(tail, ext) && tail != []
    ensures Ext(x + tail) == if tail == ext then ext else if tail == ZIP then ZIP else JSON
  {
    hide Ext;
    if tail == ext {
      ExtOfConcat(x, ext);
    } else {
      ZipExt(x);
      JsonExt(x, ext);
    }
  }

  lemma ZipExt(x: Bytes)
    ensures Ext(x + ZIP) == ZIP
  {
    ExtOfConcat(x, ZIP);
  }

  lemma JsonExt(x: Bytes, ext: Bytes)
    ensures Ext(x + (ext + JSON)) == JSON
  {
    hide Ext;
    ExtOfConcat(x + ext, JSON);
    assert x + ext + JSON == x + (ext + JSON);
  }

  /** Behind a closing parenthesis the ending can be told from the string. */
  lemma TailUnique(x: Bytes, y: Bytes, t: Bytes, u: Bytes, ext: Bytes)
    requires IsExt(ext) && IsTail(t, ext) && IsTail(u, ext)
    requires x != [] && y != [] && x[|x| - 1] == CLOSE && y[|y| - 1] == CLOSE
    requires x + t == y + u
    ensures t == u && x == y
  {
    hide Ext;
    var s := x + t;
    assert s == y + u;
    assert s[|s| - 1] == if t == [] then CLOSE else t[|t| - 1];
    assert s[|s| - 1] == if u == [] then CLOSE else u[|u| - 1];
    if t != [] && u != [] {
      TailExt(x, t, ext);
      TailExt(y, u, ext);
      JsonTwice(x, y, ext);
      JsonTwice(y, x, ext);
    }
    assert t == u;
    assert |x| == |y| && x == s[..|x|] && y == s[..|y|];
  }

  lemma JsonTwice(x: Bytes, y: Bytes, ext: Bytes)
    requires x != [] && x[|x| - 1] == CLOSE
    ensures ext == JSON ==> x + ext != y + (ext + JSON)
  {
    var s, r := x + ext, y + (ext + JSON);
    assert s[|x| - 1] == CLOSE;
    assert ext == JSON ==> r[|y| + 4] == 0x6E;
  }

  /** Each path of a numbered set ends in its own number and one of the three endings. */
  lemma PathShape(t: Target, alt: Bytes, metadata: bool, n: nat, i: nat) returns (head: Bytes, tail: Bytes)
    requires |t.ext| <= MAX_NAME_BYTES - 12 && IsAlt(alt) && 1 <= n <= 9999
    requires i < |PathsFor(t, alt, metadata, Numbered(n))|
    ensures IsTail(tail, t.ext)
    ensures PathsFor(t, alt, metadata, Numbered(n))[i] == (head + [OPEN] + Decimal(n) + [CLOSE]) + tail
  {
    hide ShortStem, Decimal;
    var p := PathsFor(t, alt, metadata, Numbered(n));
    head := t.dir + ShortStem(t, alt, Numbered(n)) + [SPACE];
    var prefix := t.dir + ShortStem(t, alt, Numbered(n)) + Numbered(n);
    assert prefix == head + [OPEN] + Decimal(n) + [CLOSE];
    tail := if i == 0 then t.ext else if alt != [] && i == 1 then ZIP else t.ext + JSON;
    assert prefix + t.ext + JSON == prefix + (t.ext + JSON);
    assert p[i] == (head + [OPEN] + Decimal(n) + [CLOSE]) + tail;
  }

  /** Two different numbers never yield the same path. */
  lemma NumbersDisjoint(t: Target, alt: Bytes, metadata: bool, n: nat, m: nat, i: nat, j: nat)
    requires |t.ext| <= MAX_NAME_BYTES - 12 && IsExt(t.ext) && IsAlt(alt) && 1 <= n <= 9999 && 1 <= m <= 9999
    requires i < |PathsFor(t, alt, metadata, Numbered(n))| && j < |PathsFor(t, alt, metadata, Numbered(m))|
    requires PathsFor(t, alt, metadata, Numbered(n))[i] == PathsFor(t, alt, metadata, Numbered(m))[j]
    ensures n == m
  {
    hide PathsFor, Decimal;
    var h, u := PathShape(t, alt, metadata, n, i);
    var g, v := PathShape(t, alt, metadata, m, j);
    var x: Bytes := h + [OPEN] + Decimal(n);
    var y: Bytes := g + [OPEN] + Decimal(m);
    TailUnique(x + [CLOSE], y + [CLOSE], u, v, t.ext);
    assert x == (x + [CLOSE])[..|x|] && y == (y + [CLOSE])[..|y|];
    NumeralAtEnd(h, g, OPEN, n, m);
  }

  /** If numbers 1 to k are all blocked, at least k paths are taken. */
  lemma {:induction false} Pigeonhole(t: Target, alt: Bytes, metadata: bool, taken: set<Bytes>, k: nat)
    requires |t.ext| <= MAX_NAME_BYTES - 12 && IsExt(t.ext) && IsAlt(alt) && k <= 9999
    requires forall n :: 1 <= n <= k ==> !FreeAt(t, alt, metadata, taken, n)
    ensures |taken| >= k
    decreases k
  {
    hide PathsFor, Numbered;
    if k > 0 {
      var pk := PathsFor(t, alt, metadata, Numbered(k));
      assert !FreeAt(t, alt, metadata, taken, k);
      var j :| 0 <= j < |pk| && pk[j] in taken;
      var rest := taken - {pk[j]};
      forall n | 1 <= n <= k - 1 ensures !FreeAt(t, alt, metadata, rest, n) {
        var pn := PathsFor(t, alt, metadata, Numbered(n));
        assert !FreeAt(t, alt, metadata, taken, n);
        var i :| 0 <= i < |pn| && pn[i] in taken;
        if pn[i] == pk[j] {
          NumbersDisjoint(t, alt, metadata, n, k, i, j);
        }
        assert pn[i] in rest;
      }
      Pigeonhole(t, alt, metadata, rest, k - 1);
    }
  }

  /** With k < 9999 taken paths the resolver stops at a number of at most k + 1: the first
      free one in the order none, (1), (2), ...; the random fallback is unreachable. */
  lemma FirstFreeNumber(base: Bytes, alt: Bytes, metadata: bool, taken: set<Bytes>, random: seq<Bytes>)
    requires IsAlt(alt) && IsRandom(random) && |taken| < 9999
    ensures exists n: nat :: (
      && n <= |taken| + 1
      && Resolved(base, alt, metadata, taken, random) == PathsFor(Parts(base), alt, metadata, Numbered(n))
      && FreeAt(Parts(base), alt, metadata, taken, n)
      && forall m :: 0 <= m < n ==> !FreeAt(Parts(base), alt, metadata, taken, m))
  {
    hide PathsFor, Numbered, FreeAt, Parts;
    var t := Parts(base);
    var n := LeastFree(t, alt, metadata, taken, 0);
    if n > |taken| + 1 {
      Pigeonhole(t, alt, metadata, taken, |taken| + 1);
    }
  }

  // ----- byte budget -----

  /** Media names fit 240 bytes and sidecar names 245, the fallback suffix included;
      every path stays in the directory of `base`. */
  lemma WithinBudget(base: Bytes, alt: Bytes, metadata: bool, taken: set<Bytes>, random: seq<Bytes>)
    requires IsAlt(alt) && IsRandom(random)
    ensures var p := Resolved(base, alt, metadata, taken, random); var d := DirLen(base);
      && |p| == 1 + (if alt == [] then 0 else 1) + (if metadata then 1 else 0)
      && (forall i :: 0 <= i < |p| ==> d < |p[i]| && p[i][..d] == base[..d])
      && (forall i :: 0 <= i < |p| ==> |p[i]| - d <= if metadata && i == |p| - 1 then 245 else 240)
  {
    hide Chosen, PathsFor, Parts;
    PathsBudget(Parts(base), alt, metadata, Chosen(Parts(base), alt, metadata, taken, random));
  }

  lemma PathsBudget(t: Target, alt: Bytes, metadata: bool, suffix: Bytes)
    requires |t.ext| <= MAX_NAME_BYTES - 12 && IsAlt(alt) && |suffix| <= 11
    ensures var p := PathsFor(t, alt, metadata, suffix); var d := |t.dir|;
      && |p| == 1 + (if alt == [] then 0 else 1) + (if metadata then 1 else 0)
      && (forall i :: 0 <= i < |p| ==> d < |p[i]| && p[i][..d] == t.dir)
      && (forall i :: 0 <= i < |p| ==> |p[i]| - d <= if metadata && i == |p| - 1 then 245 else 240)
  {
    hide ShortStem;
    var prefix := t.dir + ShortStem(t, alt, suffix) + suffix;
    var p := PathsFor(t, alt, metadata, suffix);
    forall i | 0 <= i < |p| ensures p[i][..|t.dir|] == t.dir {
      assert prefix[..|t.dir|] == t.dir;
    }
  }
}
