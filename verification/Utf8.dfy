/** Byte strings as the file system and Go's `unicode/utf8` package see them:
    decoding a rune at either end, whole-rune strings, trimming and cutting. */
module Utf8 {

  type byte = x: int | 0 <= x < 256
  type Bytes = seq<byte>

  const RUNE_ERROR := 0xFFFD

  predicate IsCont(b: byte) { 0x80 <= b < 0xC0 }

  /** A byte at which a rune may begin. */
  predicate RuneStart(b: byte) { !IsCont(b) }

  /** Allowed range of the second byte of a sequence (section 4 of RFC 3629). */
  predicate SecondOk(lead: byte, b: byte) {
    if lead == 0xE0 then 0xA0 <= b < 0xC0
    else if lead == 0xED then 0x80 <= b < 0xA0
    else if lead == 0xF0 then 0x90 <= b < 0xC0
    else if lead == 0xF4 then 0x80 <= b < 0x90
    else IsCont(b)
  }

  /** Length of the well-formed rune at the front of `s`, or 0 when there is none. */
  function RuneLen(s: Bytes): (n: nat)
    ensures n <= 4 && n <= |s|
  {
    if s == [] then 0
    else if s[0] < 0x80 then 1
    else if 0xC2 <= s[0] < 0xE0 then
      if |s| >= 2 && SecondOk(s[0], s[1]) then 2 else 0
    else if 0xE0 <= s[0] < 0xF0 then
      if |s| >= 3 && SecondOk(s[0], s[1]) && IsCont(s[2]) then 3 else 0
    else if 0xF0 <= s[0] < 0xF5 then
      if |s| >= 4 && SecondOk(s[0], s[1]) && IsCont(s[2]) && IsCont(s[3]) then 4 else 0
    else 0
  }

  /** The rune decoded at the front of `s`; `RUNE_ERROR` when it is malformed. */
  function RuneAt(s: Bytes): (r: nat)
    requires s != []
  {
    match RuneLen(s)
    case 1 => s[0]
    case 2 => (s[0] - 0xC0) * 64 + (s[1] - 0x80)
    case 3 => (s[0] - 0xE0) * 4096 + (s[1] - 0x80) * 64 + (s[2] - 0x80)
    case 4 => (s[0] - 0xF0) * 262144 + (s[1] - 0x80) * 4096 + (s[2] - 0x80) * 64 + (s[3] - 0x80)
    case _ => RUNE_ERROR
  }

  /** The bytes `strings.Builder.WriteRune` appends. */
  function EncodeRune(r: nat): (s: Bytes)
  {
    if r < 0x80 then [r]
    else if r < 0x800 then [0xC0 + r / 64, 0x80 + r % 64]
    else if r > 0x10FFFF || 0xD800 <= r < 0xE000 then [0xEF, 0xBF, 0xBD]
    else if r < 0x10000 then [0xE0 + r / 4096, 0x80 + r / 64 % 64, 0x80 + r % 64]
    else [0xF0 + r / 262144, 0x80 + r / 4096 % 64, 0x80 + r / 64 % 64, 0x80 + r % 64]
  }

  /** Decoding then encoding a well-formed rune gives back exactly its bytes. */
  lemma EncodeDecode(s: Bytes)
    requires RuneLen(s) > 0
    ensures EncodeRune(RuneAt(s)) == s[..RuneLen(s)]
  {
    var r := RuneAt(s);
    match RuneLen(s) {
      case 1 =>
      case 2 =>
        assert r / 64 == s[0] - 0xC0 && r % 64 == s[1] - 0x80;
      case 3 =>
        Digits3(s[0] - 0xE0, s[1] - 0x80, s[2] - 0x80);
      case 4 =>
        Digits4(s[0] - 0xF0, s[1] - 0x80, s[2] - 0x80, s[3] - 0x80);
      case _ => assert false;
    }
  }

  lemma Digits4(a: nat, b: nat, c: nat, d: nat)
    requires b < 64 && c < 64 && d < 64
    ensures var r := a * 262144 + b * 4096 + c * 64 + d;
      r / 262144 == a && r / 4096 % 64 == b && r / 64 % 64 == c && r % 64 == d
  {
    var r := a * 262144 + b * 4096 + c * 64 + d;
    Digits3(a * 64 + b, c, d);
    assert r / 4096 == a * 64 + b;
    assert r / 262144 == a;
  }

  lemma Digits3(a: nat, b: nat, c: nat)
    requires b < 64 && c < 64
    ensures var r := a * 4096 + b * 64 + c; r / 4096 == a && r / 64 % 64 == b && r % 64 == c
  {
    var r := a * 4096 + b * 64 + c;
    assert r / 64 == a * 64 + b;
  }

  /** A string made of whole runes, each accepted by `ok`. */
  predicate Runes(s: Bytes, ok: nat -> bool)
  {
    s == [] || (RuneLen(s) > 0 && ok(RuneAt(s)) && Runes(s[RuneLen(s)..], ok))
  }

  /** Only the rune's own bytes decide how it decodes. */
  lemma RunePrefix(s: Bytes, t: Bytes)
    requires RuneLen(s) > 0 && RuneLen(s) <= |t| && s[..RuneLen(s)] == t[..RuneLen(s)]
    ensures RuneLen(t) == RuneLen(s) && RuneAt(t) == RuneAt(s)
  {
    var n := RuneLen(s);
    assert forall i :: 0 <= i < n ==> s[i] == s[..n][i] == t[..n][i] == t[i];
  }

  lemma {:induction false} RunesConcat(a: Bytes, b: Bytes, ok: nat -> bool)
    requires Runes(a, ok) && Runes(b, ok)
    ensures Runes(a + b, ok)
  {
    hide RuneLen, RuneAt;
    if a == [] {
      assert a + b == b;
    } else {
      var n := RuneLen(a);
      assert (a + b)[..n] == a[..n];
      RunePrefix(a, a + b);
      RunesConcat(a[n..], b, ok);
      assert (a + b)[n..] == a[n..] + b;
    }
  }

  /** In a whole-rune string every position holding a start byte is a rune boundary. */
  lemma {:induction false} CutAtStart(s: Bytes, c: nat, ok: nat -> bool)
    requires Runes(s, ok) && c <= |s| && (c == |s| || RuneStart(s[c]))
    ensures Runes(s[..c], ok)
    decreases |s|
  {
    if s != [] && c != 0 {
      var n := RuneLen(s);
      assert c >= n;
      CutAtStart(s[n..], c - n, ok);
      assert s[..c] == s[..n] + s[n..][..c - n];
      RunePrefix(s, s[..n]);
      assert s[..n][n..] == [];
      RunesConcat(s[..n], s[n..][..c - n], ok);
    }
  }

  /** How far from the end the last rune may begin: one byte if it is ASCII,
      else the nearest earlier start byte within four, else 0. */
  function TailSize(s: Bytes): (k: nat)
    ensures k <= |s| && k <= 4
  {
    if s == [] then 0
    else if s[|s| - 1] < 0x80 then 1
    else if |s| >= 2 && RuneStart(s[|s| - 2]) then 2
    else if |s| >= 3 && RuneStart(s[|s| - 3]) then 3
    else if |s| >= 4 && RuneStart(s[|s| - 4]) then 4
    else 0
  }

  /** Length of the well-formed rune at the end of `s` as `DecodeLastRuneInString` finds it, or 0. */
  function LastLen(s: Bytes): (n: nat)
    ensures n <= |s|
  {
    if RuneLen(s[|s| - TailSize(s)..]) == TailSize(s) then TailSize(s) else 0
  }

  function LastRune(s: Bytes): nat
    requires s != []
  {
    if LastLen(s) == 0 then RUNE_ERROR else RuneAt(s[|s| - LastLen(s)..])
  }

  /** A rune found at the end of a suffix is the one found at the end of the whole. */
  lemma LastOfSuffix(s: Bytes, n: nat)
    requires n <= |s| && LastLen(s[n..]) > 0
    ensures LastLen(s) == LastLen(s[n..]) && s[|s| - LastLen(s)..] == s[n..][|s| - n - LastLen(s)..]
  {
    hide RuneLen;
    var t := s[n..];
    forall i | 0 <= i < |t| ensures t[i..] == s[n + i..] {}
  }

  lemma SingleRune(s: Bytes)
    requires s != [] && RuneLen(s) == |s|
    ensures LastLen(s) == |s|
  {
    assert s[0..] == s;
  }

  /** In a whole-rune string the rune found from the end is a whole rune, and so is what precedes it. */
  lemma {:induction false} LastIsWhole(s: Bytes, ok: nat -> bool)
    requires Runes(s, ok) && s != []
    ensures LastLen(s) > 0 && Runes(s[..|s| - LastLen(s)], ok)
    decreases |s|
  {
    hide RuneLen, RuneAt, LastLen;
    var n := RuneLen(s);
    if n == |s| {
      SingleRune(s);
    } else {
      var t := s[n..];
      LastIsWhole(t, ok);
      LastOfSuffix(s, n);
      var k := LastLen(t);
      assert s[..|s| - k] == s[..n] + t[..|t| - k];
      RunePrefix(s, s[..n]);
      assert s[..n][n..] == [];
      RunesConcat(s[..n], t[..|t| - k], ok);
    }
  }

  /** `strings.TrimRightFunc`: drop trailing runes while `drop` accepts them. */
  function TrimRight(s: Bytes, drop: nat -> bool): (t: Bytes)
    ensures |t| <= |s| && t == s[..|t|]
    ensures t == [] || !drop(LastRune(t))
  {
    if s == [] || !drop(LastRune(s)) then s
    else TrimRight(s[..|s| - (if LastLen(s) == 0 then 1 else LastLen(s))], drop)
  }

  lemma {:induction false} TrimRightRunes(s: Bytes, drop: nat -> bool, ok: nat -> bool)
    requires Runes(s, ok)
    ensures Runes(TrimRight(s, drop), ok)
    decreases |s|
  {
    hide RuneLen, RuneAt, LastLen;
    if s != [] && drop(LastRune(s)) {
      LastIsWhole(s, ok);
      TrimRightRunes(s[..|s| - LastLen(s)], drop, ok);
    }
  }

  /** `strings.TrimLeft(s, " ")`. */
  function TrimSpacesLeft(s: Bytes): (t: Bytes)
    ensures |t| <= |s| && t == s[|s| - |t|..]
    ensures t == [] || t[0] != 0x20
  {
    if s != [] && s[0] == 0x20 then TrimSpacesLeft(s[1..]) else s
  }

  lemma {:induction false} TrimLeftRunes(s: Bytes, ok: nat -> bool)
    requires Runes(s, ok)
    ensures Runes(TrimSpacesLeft(s), ok)
    decreases |s|
  {
    if s != [] && s[0] == 0x20 {
      TrimLeftRunes(s[1..], ok);
    }
  }
}
