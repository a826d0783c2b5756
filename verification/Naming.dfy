/** Turning a rendered template into path segments: `Sanitize`, the truncation
    helpers and `cleanSegments` of internal/download/naming.go. */
module Naming {
  import opened Utf8

  const MAX_NAME_BYTES: nat := 240
  const SLASH: byte := 0x2F
  const DOT: byte := 0x2E
  const SPACE: byte := 0x20
  const UNDERSCORE: byte := 0x5F

  datatype Result<+T> = Ok(value: T) | Rejected

  predicate IsForbidden(r: nat) {
    || r == 0x2F || r == 0x5C || r == 0x3A || r == 0x2A || r == 0x3F
    || r == 0x22 || r == 0x3C || r == 0x3E || r == 0x7C
    || r < 0x20 || r == 0x7F
  }

  /** `unicode.IsSpace`. */
  predicate IsSpace(r: nat) {
    || 0x09 <= r <= 0x0D || r == 0x20 || r == 0x85 || r == 0xA0 || r == 0x1680
    || 0x2000 <= r <= 0x200A || r == 0x2028 || r == 0x2029 || r == 0x202F
    || r == 0x205F || r == 0x3000
  }

  const ALLOWED: nat -> bool := (r: nat) => !IsForbidden(r)
  const SPACE_OR_DOT: nat -> bool := (r: nat) => r == 0x20 || r == 0x2E
  const WHITE: nat -> bool := (r: nat) => IsSpace(r)

  // ----- Sanitize -----

  /** How many bytes one turn of the rune loop consumes, and what it writes for them. */
  function Advance(s: Bytes): (n: nat)
    requires s != []
    ensures 1 <= n <= |s|
  {
    if RuneLen(s) == 0 then 1 else RuneLen(s)
  }

  function RuneOut(s: Bytes): (t: Bytes)
    requires s != []
    ensures |t| <= Advance(s)
  {
    if RuneLen(s) == 0 then [UNDERSCORE]
    else
      EncodeDecode(s);
      if IsForbidden(RuneAt(s)) then [UNDERSCORE] else EncodeRune(RuneAt(s))
  }

  /** What the rune loop of `Sanitize` writes for `s`. */
  function Replaced(s: Bytes): (t: Bytes)
    ensures |t| <= |s|
    decreases |s|
  {
    if s == [] then [] else RuneOut(s) + Replaced(s[Advance(s)..])
  }

  function Trimmed(s: Bytes): (t: Bytes)
    ensures |t| <= |s|
  {
    TrimSpacesLeft(TrimRight(s, SPACE_OR_DOT))
  }

  function Sanitized(s: Bytes): Bytes {
    var t := Trimmed(Replaced(s));
    if t == [] then [UNDERSCORE] else t
  }

  method Sanitize(s: Bytes) returns (out: Bytes)
    ensures out == Sanitized(s)
  {
    hide RuneLen, RuneAt, EncodeRune, Replaced, TrimRight, TrimSpacesLeft, LastLen;
    if s == [] {
      assert Trimmed(Replaced(s)) == [];
      return [UNDERSCORE];
    }
    var b: Bytes := [];
    var i := 0;
    assert s[0..] == s;
    while i < |s|
      invariant 0 <= i <= |s|
      invariant b + Replaced(s[i..]) == Replaced(s)
    {
      var size := RuneLen(s[i..]);
      var piece: Bytes := [UNDERSCORE];
      if size == 0 {
        size := 1;
      } else if !IsForbidden(RuneAt(s[i..])) {
        piece := EncodeRune(RuneAt(s[i..]));
      }
      ReplacedTurn(s, i, b);
      b := b + piece;
      i := i + size;
    }
    assert s[i..] == [] && Replaced(s[i..]) == [];
    assert b == Replaced(s);
    out := TrimRight(b, SPACE_OR_DOT);
    out := TrimSpacesLeft(out);
    if out == [] {
      out := [UNDERSCORE];
    }
  }

  /** One turn of the rune loop. */
  lemma ReplacedTurn(s: Bytes, i: nat, b: Bytes)
    requires i < |s|
    ensures b + Replaced(s[i..]) == b + RuneOut(s[i..]) + Replaced(s[i + Advance(s[i..])..])
  {
    hide RuneLen, RuneAt, EncodeRune;
    assert s[i..][Advance(s[i..])..] == s[i + Advance(s[i..])..];
  }

  lemma UnderscoreAllowed()
    ensures Runes([UNDERSCORE], ALLOWED)
  {
    assert [UNDERSCORE][1..] == [];
  }

  lemma {:induction false} ReplacedAllowed(s: Bytes)
    ensures Runes(Replaced(s), ALLOWED)
    decreases |s|
  {
    hide RuneLen, RuneAt, EncodeRune;
    UnderscoreAllowed();
    if s != [] {
      var n := RuneLen(s);
      if n == 0 {
        ReplacedAllowed(s[1..]);
        RunesConcat([UNDERSCORE], Replaced(s[1..]), ALLOWED);
      } else {
        ReplacedAllowed(s[n..]);
        EncodeDecode(s);
        if IsForbidden(RuneAt(s)) {
          RunesConcat([UNDERSCORE], Replaced(s[n..]), ALLOWED);
        } else {
          RunePrefix(s, s[..n]);
          assert s[..n][n..] == [];
          assert Runes(s[..n], ALLOWED);
          RunesConcat(s[..n], Replaced(s[n..]), ALLOWED);
        }
      }
    }
  }

  lemma {:induction false} ReplacedFixesAllowed(s: Bytes)
    requires Runes(s, ALLOWED)
    ensures Replaced(s) == s
    decreases |s|
  {
    hide RuneLen, RuneAt, EncodeRune;
    if s != [] {
      EncodeDecode(s);
      ReplacedFixesAllowed(s[RuneLen(s)..]);
    }
  }

  /** Only the last byte decides whether trailing spaces and dots remain. */
  lemma LastByteDecides(s: Bytes)
    requires s != []
    ensures SPACE_OR_DOT(LastRune(s)) <==> s[|s| - 1] == SPACE || s[|s| - 1] == DOT
  {
    if s[|s| - 1] < 0x80 {
      assert s[|s| - 1..] == [s[|s| - 1]];
    } else {
      LastRuneNotAscii(s);
    }
  }

  lemma LastRuneNotAscii(s: Bytes)
    requires s != [] && s[|s| - 1] >= 0x80
    ensures LastRune(s) >= 0x80
  {
    var k := LastLen(s);
    if k != 0 {
      var t := s[|s| - k..];
      assert t[k - 1] == s[|s| - 1];
      RuneNotAscii(t);
    }
  }

  lemma RuneNotAscii(t: Bytes)
    requires t != [] && RuneLen(t) == |t| && t[|t| - 1] >= 0x80
    ensures RuneAt(t) >= 0x80
  {
  }

  lemma TrimmedShape(b: Bytes)
    requires Runes(b, ALLOWED)
    ensures Runes(Trimmed(b), ALLOWED)
    ensures var t := Trimmed(b);
      t == [] || (t[0] != SPACE && t[|t| - 1] != SPACE && t[|t| - 1] != DOT)
  {
    hide RuneLen, RuneAt, LastLen, LastRune, Runes, TrimRight, TrimSpacesLeft;
    var r := TrimRight(b, SPACE_OR_DOT);
    var t := TrimSpacesLeft(r);
    TrimRightRunes(b, SPACE_OR_DOT, ALLOWED);
    TrimLeftRunes(r, ALLOWED);
    if t != [] {
      LastByteDecides(r);
      assert t[|t| - 1] == r[|r| - 1];
    }
  }

  /** A sanitized name is made of allowed runes and carries no leading space,
      trailing space or trailing dot; it is never empty and never longer, save for "_". */
  lemma SanitizedShape(s: Bytes)
    ensures var t := Sanitized(s);
      && t != [] && |t| <= (if s == [] then 1 else |s|)
      && Runes(t, ALLOWED)
      && t[0] != SPACE && t[|t| - 1] != SPACE && t[|t| - 1] != DOT
  {
    hide Runes, Replaced, Trimmed;
    UnderscoreAllowed();
    ReplacedAllowed(s);
    TrimmedShape(Replaced(s));
  }

  /** Sanitizing twice is sanitizing once, for every byte string. */
  lemma SanitizeIdempotent(s: Bytes)
    ensures Sanitized(Sanitized(s)) == Sanitized(s)
  {
    hide RuneLen, RuneAt, EncodeRune, LastLen, Runes, Replaced;
    var t := Sanitized(s);
    SanitizedShape(s);
    ReplacedFixesAllowed(t);
    LastByteDecides(t);
  }

  /** No byte of an allowed string is a forbidden character. */
  lemma {:induction false} NoForbiddenByte(s: Bytes, i: nat)
    requires Runes(s, ALLOWED) && i < |s|
    ensures !IsForbidden(s[i])
    decreases |s|
  {
    var n := RuneLen(s);
    if i >= n {
      NoForbiddenByte(s[n..], i - n);
    } else {
      LeadOrHigh(s, i);
    }
  }

  lemma LeadOrHigh(s: Bytes, i: nat)
    requires i < RuneLen(s)
    ensures s[i] >= 0x80 || (i == 0 && RuneAt(s) == s[0])
  {
  }

  // ----- truncation -----

  /** Where `truncUTF8` cuts: the last rune start at or before `cut`. */
  function CutBack(s: Bytes, cut: nat): (c: nat)
    requires cut < |s|
    ensures c <= cut
    ensures c == 0 || RuneStart(s[c])
    ensures forall i :: c < i <= cut ==> IsCont(s[i])
  {
    if cut > 0 && !RuneStart(s[cut]) then CutBack(s, cut - 1) else cut
  }

  function Truncated(s: Bytes, max: nat): (t: Bytes)
    ensures |t| <= max && |t| <= |s| && t == s[..|t|]
    ensures |s| <= max ==> t == s
  {
    if |s| <= max then s else TrimRight(s[..CutBack(s, max)], WHITE)
  }

  method TruncUtf8(s: Bytes, max: nat) returns (t: Bytes)
    ensures t == Truncated(s, max)
  {
    if |s| <= max {
      return s;
    }
    var cut := max;
    while cut > 0 && !RuneStart(s[cut])
      invariant 0 <= cut <= max
      invariant CutBack(s, cut) == CutBack(s, max)
    {
      cut := cut - 1;
    }
    t := TrimRight(s[..cut], WHITE);
  }

  /** Truncation keeps whole runes: no UTF-8 sequence is split (section 3 of RFC 3629). */
  lemma TruncateKeepsRunes(s: Bytes, max: nat, ok: nat -> bool)
    requires Runes(s, ok)
    ensures Runes(Truncated(s, max), ok)
  {
    if |s| > max {
      CutAtStart(s, CutBack(s, max), ok);
      TrimRightRunes(s[..CutBack(s, max)], WHITE, ok);
    }
  }

  /** `filepath.Ext` of a name: from its last dot within the last component on, or "". */
  function Ext(name: Bytes): (e: Bytes)
    ensures |e| <= |name|
  {
    if name == [] || name[|name| - 1] == SLASH then []
    else if name[|name| - 1] == DOT then [DOT]
    else
      var e := Ext(name[..|name| - 1]);
      if e == [] then [] else e + [name[|name| - 1]]
  }

  /** An extension: empty, or a dot followed by neither dots nor separators. */
  predicate IsExt(ext: Bytes) {
    ext == [] || (ext[0] == DOT && forall i :: 1 <= i < |ext| ==> ext[i] != DOT && ext[i] != SLASH)
  }

  lemma {:induction false} ExtShape(name: Bytes)
    ensures var e := Ext(name); IsExt(e) && name == name[..|name| - |e|] + e
    decreases |name|
  {
    if name != [] && name[|name| - 1] != SLASH && name[|name| - 1] != DOT {
      var front := name[..|name| - 1];
      ExtShape(front);
      assert name == front + [name[|name| - 1]];
    }
  }

  function TruncatedName(name: Bytes, max: nat): (t: Bytes)
    ensures |t| <= max
  {
    if |name| <= max then name
    else if |Ext(name)| >= max then Truncated(name, max)
    else Truncated(name[..|name| - |Ext(name)|], max - |Ext(name)|) + Ext(name)
  }

  // ----- segments -----

  function Split(s: Bytes): (segs: seq<Bytes>)
    ensures |segs| >= 1
  {
    if s == [] then [[]]
    else if s[0] == SLASH then [[]] + Split(s[1..])
    else
      var r := Split(s[1..]);
      [[s[0]] + r[0]] + r[1..]
  }

  function Join(segs: seq<Bytes>): Bytes
    requires |segs| >= 1
  {
    if |segs| == 1 then segs[0] else segs[0] + [SLASH] + Join(segs[1..])
  }

  /** The segments of a rendered path that carry a name. */
  function Named(segs: seq<Bytes>): (k: seq<Bytes>)
    ensures |k| <= |segs|
  {
    if segs == [] then []
    else (if segs[0] == [] || segs[0] == [DOT] then [] else [segs[0]]) + Named(segs[1..])
  }

  function Fitted(seg: Bytes, last: bool): Bytes {
    Sanitized(if last then TruncatedName(Sanitized(seg), MAX_NAME_BYTES) else Truncated(Sanitized(seg), MAX_NAME_BYTES))
  }

  /** A segment that stays inside its directory and that every file system accepts. */
  predicate Safe(seg: Bytes) {
    && seg != [] && |seg| <= MAX_NAME_BYTES
    && seg != [DOT] && seg != [DOT, DOT]
    && (forall i :: 0 <= i < |seg| ==> !IsForbidden(seg[i]))
    && Runes(seg, ALLOWED)
  }

  lemma FittedSafe(seg: Bytes, last: bool)
    ensures Safe(Fitted(seg, last))
  {
    hide RuneLen, RuneAt, EncodeRune, LastLen, Runes, Replaced, TrimRight, Truncated, Sanitized;
    var cut := if last then TruncatedName(Sanitized(seg), MAX_NAME_BYTES) else Truncated(Sanitized(seg), MAX_NAME_BYTES);
    SanitizedShape(cut);
    var t := Sanitized(cut);
    forall i | 0 <= i < |t| ensures !IsForbidden(t[i]) {
      NoForbiddenByte(t, i);
    }
  }

  const UP: Bytes := [DOT, DOT]

  lemma NamedFrom(segs: seq<Bytes>, i: nat)
    requires i < |segs|
    ensures Named(segs[i..]) == (if segs[i] == [] || segs[i] == [DOT] then [] else [segs[i]]) + Named(segs[i + 1..])
  {
    assert segs[i..][1..] == segs[i + 1..];
  }

  method CleanSegments(raw: Bytes) returns (r: Result<seq<Bytes>>)
    ensures r == Rejected <==> UP in Split(raw)
    ensures r.Ok? ==>
      var kept := Named(Split(raw));
      && |r.value| == |kept|
      && forall i :: 0 <= i < |kept| ==> r.value[i] == Fitted(kept[i], i == |kept| - 1) && Safe(r.value[i])
  {
    hide RuneLen, RuneAt, EncodeRune, Truncated, TruncatedName, Sanitized, Safe, Named, Split;
    var segments := Split(raw);
    ghost var kept := Named(segments);
    assert segments[0..] == segments;
    var cleaned: seq<Bytes> := [];
    ghost var names: seq<Bytes> := [];
    for i := 0 to |segments|
      invariant UP !in segments[..i]
      invariant names + Named(segments[i..]) == kept
      invariant |cleaned| == |names| && forall k :: 0 <= k < |names| ==> cleaned[k] == Sanitized(names[k])
    {
      var seg := segments[i];
      NamedFrom(segments, i);
      if seg == [] || seg == [DOT] {
        continue;
      }
      if seg == UP {
        return Rejected;
      }
      var clean := Sanitize(seg);
      cleaned := cleaned + [clean];
      names := names + [seg];
    }
    assert segments[|segments|..] == [] && segments[..|segments|] == segments;
    ghost var sanitized := cleaned;
    for i := 0 to |cleaned|
      invariant |cleaned| == |kept|
      invariant forall k :: i <= k < |kept| ==> cleaned[k] == Sanitized(kept[k])
      invariant forall k :: 0 <= k < i ==> cleaned[k] == Fitted(kept[k], k == |kept| - 1)
    {
      var cut: Bytes;
      if i == |cleaned| - 1 {
        cut := TruncatedName(cleaned[i], MAX_NAME_BYTES);
      } else {
        cut := TruncUtf8(cleaned[i], MAX_NAME_BYTES);
      }
      var clean := Sanitize(cut);
      cleaned := cleaned[i := clean];
    }
    forall i | 0 <= i < |kept| ensures Safe(cleaned[i]) {
      FittedSafe(kept[i], i == |kept| - 1);
    }
    r := Ok(cleaned);
  }

  // ----- a rendered relative path stays below its root -----

  /** Lexical resolution of `segs` starting in directory `at` (`filepath.Clean` on an absolute path). */
  function Resolve(at: seq<Bytes>, segs: seq<Bytes>): seq<Bytes>
    decreases |segs|
  {
    if segs == [] then at
    else if segs[0] == [] || segs[0] == [DOT] then Resolve(at, segs[1..])
    else if segs[0] == UP then Resolve(if at == [] then at else at[..|at| - 1], segs[1..])
    else Resolve(at + [segs[0]], segs[1..])
  }

  lemma {:induction false} ResolveSafe(at: seq<Bytes>, segs: seq<Bytes>)
    requires forall i :: 0 <= i < |segs| ==> Safe(segs[i])
    ensures Resolve(at, segs) == at + segs
    decreases |segs|
  {
    if segs != [] {
      assert Safe(segs[0]);
      ResolveSafe(at + [segs[0]], segs[1..]);
      assert at + [segs[0]] + segs[1..] == at + segs;
    }
  }

  lemma {:induction false} SplitHead(seg: Bytes, rest: Bytes)
    requires SLASH !in seg
    ensures Split(seg + [SLASH] + rest) == [seg] + Split(rest)
    ensures Split(seg) == [seg]
    decreases |seg|
  {
    if seg == [] {
      assert seg + [SLASH] + rest == [SLASH] + rest;
    } else {
      SplitHead(seg[1..], rest);
      assert (seg + [SLASH] + rest)[1..] == seg[1..] + [SLASH] + rest;
      assert [seg[0]] + seg[1..] == seg;
    }
  }

  lemma {:induction false} SplitJoin(segs: seq<Bytes>)
    requires |segs| >= 1 && forall i :: 0 <= i < |segs| ==> SLASH !in segs[i]
    ensures Split(Join(segs)) == segs
    decreases |segs|
  {
    if |segs| == 1 {
      SplitHead(segs[0], []);
    } else {
      SplitJoin(segs[1..]);
      SplitHead(segs[0], Join(segs[1..]));
      assert [segs[0]] + segs[1..] == segs;
    }
  }

  /** `RenderRelativePath` after the template ran: the joined path, resolved from any root,
      lands strictly below that root. */
  method RenderRelative(raw: Bytes) returns (r: Result<Bytes>)
    ensures r == Rejected <==> UP in Split(raw) || Named(Split(raw)) == []
    ensures r.Ok? ==> forall root: seq<Bytes> ::
      root < Resolve(root, Split(r.value)) && forall i :: |root| <= i < |Resolve(root, Split(r.value))| ==> Safe(Resolve(root, Split(r.value))[i])
  {
    hide Safe;
    var c := CleanSegments(raw);
    if c.Rejected? || |c.value| == 0 {
      return Rejected;
    }
    var segs := c.value;
    forall i | 0 <= i < |segs| ensures SLASH !in segs[i] {
      SafeHasNoSlash(segs[i]);
    }
    SplitJoin(segs);
    forall root: seq<Bytes> ensures Resolve(root, segs) == root + segs {
      ResolveSafe(root, segs);
    }
    r := Ok(Join(segs));
  }

  lemma SafeHasNoSlash(seg: Bytes)
    requires Safe(seg)
    ensures SLASH !in seg
  {
    assert IsForbidden(SLASH);
  }
}
