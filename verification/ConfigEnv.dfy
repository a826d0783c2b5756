/** `newEnvKeyResolver` of internal/config/config.go: which settings key an environment name means. */
module ConfigEnv {
  const PREFIX := "PIXIVBIU_"

  function Pow2(n: nat): (p: nat)
    ensures p >= 1
  {
    if n == 0 then 1 else 2 * Pow2(n - 1)
  }

  /** `mask & (1 << i) != 0`. */
  predicate Bit(mask: nat, i: nat) { if i == 0 then mask % 2 == 1 else Bit(mask / 2, i - 1) }

  /** Underscores in a name. */
  function Bars(key: string): (n: nat)
    ensures n <= |key|
  {
    if key == "" then 0 else (if key[0] == '_' then 1 else 0) + Bars(key[1..])
  }

  function Dots(key: string): (n: nat) { if key == "" then 0 else (if key[0] == '.' then 1 else 0) + Dots(key[1..]) }

  function AllDots(key: string): (r: string)
    ensures |r| == |key| && forall i :: 0 <= i < |key| ==> r[i] == if key[i] == '_' then '.' else key[i]
  {
    seq(|key|, i requires 0 <= i < |key| => if key[i] == '_' then '.' else key[i])
  }

  /** `c` is `key` with some underscores read as separators. */
  predicate Splits(key: string, c: string) {
    |c| == |key| && forall i :: 0 <= i < |key| ==> c[i] == key[i] || (key[i] == '_' && c[i] == '.')
  }

  /** The split a mask stands for: bit i decides the i-th underscore from the left. */
  function Candidate(key: string, mask: nat): (c: string)
    ensures |c| == |key|
  {
    if key == "" then ""
    else if key[0] == '_' then [if mask % 2 == 1 then '.' else '_'] + Candidate(key[1..], mask / 2)
    else [key[0]] + Candidate(key[1..], mask)
  }

  lemma {:induction false} CandidateAt(key: string, mask: nat, j: nat)
    requires j < |key|
    ensures Candidate(key, mask)[j] == if key[j] == '_' then (if Bit(mask, Bars(key[..j])) then '.' else '_') else key[j]
    decreases |key|
  {
    if j > 0 {
      assert key[..j][1..] == key[1..][..j - 1];
      CandidateAt(key[1..], if key[0] == '_' then mask / 2 else mask, j - 1);
    }
  }

  lemma CandidateSplits(key: string, mask: nat)
    ensures Splits(key, Candidate(key, mask))
  {
    forall j | 0 <= j < |key| ensures Candidate(key, mask)[j] == key[j] || (key[j] == '_' && Candidate(key, mask)[j] == '.') {
      CandidateAt(key, mask, j);
    }
  }

  /** Every split has its mask. */
  lemma {:induction false} MaskOf(key: string, c: string) returns (mask: nat)
    requires Splits(key, c)
    ensures mask < Pow2(Bars(key)) && Candidate(key, mask) == c
    decreases |key|
  {
    if key == "" {
      mask := 0;
    } else {
      var rest := MaskOf(key[1..], c[1..]);
      if key[0] == '_' {
        mask := 2 * rest + (if c[0] == '.' then 1 else 0);
        assert mask / 2 == rest;
      } else {
        mask := rest;
      }
      assert c == [c[0]] + c[1..];
    }
  }

  /** `1 << n` in a 64-bit int: negative for n = 63 and zero beyond. */
  function Shifted(n: nat): int { if n <= 62 then Pow2(n) else if n == 63 then 0 - Pow2(63) as int else 0 }

  function LowerChar(c: char): char { if 'A' <= c <= 'Z' then (c as int + 32) as char else c }
  function UpperChar(c: char): char { if 'a' <= c <= 'z' then (c as int - 32) as char else c }

  function Lower(s: string): (r: string)
    ensures |r| == |s| && forall i :: 0 <= i < |s| ==> r[i] == LowerChar(s[i])
  {
    seq(|s|, i requires 0 <= i < |s| => LowerChar(s[i]))
  }

  function Upper(s: string): (r: string)
    ensures |r| == |s| && forall i :: 0 <= i < |s| ==> r[i] == UpperChar(s[i])
  {
    seq(|s|, i requires 0 <= i < |s| => UpperChar(s[i]))
  }

  function TrimPrefix(s: string): string { if PREFIX <= s then s[|PREFIX|..] else s }

  /** The deepest-nested known split. */
  predicate IsBest(key: string, known: set<string>, r: string) {
    r in known && Splits(key, r) && forall c :: c in known && Splits(key, c) ==> Dots(c) <= Dots(r)
  }

  /** Positions of the underscores, in order. */
  method Positions(key: string) returns (positions: seq<nat>)
    ensures |positions| == Bars(key)
    ensures forall k :: 0 <= k < |positions| ==> positions[k] < |key| && key[positions[k]] == '_' && Bars(key[..positions[k]]) == k
    ensures forall j :: 0 <= j < |key| && key[j] == '_' ==> Bars(key[..j]) < |positions| && positions[Bars(key[..j])] == j
  {
    positions := [];
    for i := 0 to |key|
      invariant |positions| == Bars(key[..i])
      invariant forall k :: 0 <= k < |positions| ==> positions[k] < i && key[positions[k]] == '_' && Bars(key[..positions[k]]) == k
      invariant forall j :: 0 <= j < i && key[j] == '_' ==> Bars(key[..j]) < |positions| && positions[Bars(key[..j])] == j
    {
      BarsStep(key, i);
      if key[i] == '_' {
        positions := positions + [i];
      }
    }
    assert key[..|key|] == key;
  }

  lemma {:induction false} BarsStep(key: string, i: nat)
    requires i < |key|
    ensures Bars(key[..i + 1]) == Bars(key[..i]) + if key[i] == '_' then 1 else 0
    decreases i
  {
    if i > 0 {
      BarsStep(key[1..], i - 1);
      assert key[..i + 1][1..] == key[1..][..i] && key[..i][1..] == key[1..][..i - 1];
    }
  }

  /** The buffer rewritten for one mask. */
  method Rewrite(key: string, positions: seq<nat>, mask: nat) returns (buf: string)
    requires |positions| == Bars(key)
    requires forall k :: 0 <= k < |positions| ==> positions[k] < |key| && key[positions[k]] == '_' && Bars(key[..positions[k]]) == k
    requires forall j :: 0 <= j < |key| && key[j] == '_' ==> Bars(key[..j]) < |positions| && positions[Bars(key[..j])] == j
    ensures buf == Candidate(key, mask)
  {
    buf := key;
    for i := 0 to |positions|
      invariant |buf| == |key|
      invariant forall j :: 0 <= j < |key| ==>
        buf[j] == if key[j] == '_' && Bars(key[..j]) < i then (if Bit(mask, Bars(key[..j])) then '.' else '_') else key[j]
    {
      buf := buf[positions[i] := if Bit(mask, i) then '.' else '_'];
    }
    forall j | 0 <= j < |key| ensures buf[j] == Candidate(key, mask)[j] {
      CandidateAt(key, mask, j);
    }
  }

  /** What the resolver answers: the name itself, the best known split, or dots for all underscores. */
  ghost predicate Resolves(s: string, known: set<string>, r: string) {
    var key := Lower(TrimPrefix(s));
    if Bars(key) == 0 then r == key
    else if Bars(key) <= 62 && exists c :: c in known && Splits(key, c) then IsBest(key, known, r)
    else r == AllDots(key)
  }

  method Resolve(s: string, known: set<string>) returns (r: string)
    ensures Resolves(s, known, r)
  {
    var key := Lower(TrimPrefix(s));
    var positions := Positions(key);
    var n := |positions|;
    if n == 0 {
      return key;
    }
    var best := "";
    var bestDots: int := -1;
    var mask: nat := 0;
    while mask < Shifted(n)
      invariant Shifted(n) > 0 ==> mask <= Shifted(n)
      invariant bestDots == -1 ==> best == "" && forall m: nat :: m < mask ==> Candidate(key, m) !in known
      invariant bestDots >= 0 ==> mask > 0 && best in known && Splits(key, best) && bestDots == Dots(best)
      invariant bestDots >= -1 && (Shifted(n) <= 0 ==> mask == 0)
      invariant forall m: nat :: m < mask && Candidate(key, m) in known ==> Dots(Candidate(key, m)) <= bestDots
    {
      var cand := Rewrite(key, positions, mask);
      if cand in known {
        CandidateSplits(key, mask);
        if Dots(cand) > bestDots {
          best, bestDots := cand, Dots(cand);
        }
      }
      mask := mask + 1;
    }
    forall c | n <= 62 && c in known && Splits(key, c) ensures bestDots >= 0 && Dots(c) <= bestDots {
      var m := MaskOf(key, c);
      assert Candidate(key, m) in known;
    }
    if best != "" {
      return best;
    }
    r := AllDots(key);
  }

  // ----- what the search gives -----

  lemma {:induction false} DotsAtMost(key: string, c: string)
    requires Splits(key, c)
    ensures Dots(c) <= Dots(AllDots(key)) && (Dots(c) == Dots(AllDots(key)) ==> c == AllDots(key))
    decreases |key|
  {
    if key != "" {
      DotsAtMost(key[1..], c[1..]);
      assert AllDots(key)[1..] == AllDots(key[1..]);
      assert c == [c[0]] + c[1..] && AllDots(key) == [AllDots(key)[0]] + AllDots(key)[1..];
    }
  }

  /** A name that means some known key is resolved to the best one if and only if it has at most 62
      underscores or its all-dots form is known: beyond that the loop bound overflows and nothing is searched. */
  lemma OverflowExact(s: string, known: set<string>, r: string)
    requires Resolves(s, known, r) && exists c :: c in known && Splits(Lower(TrimPrefix(s)), c)
    ensures var key := Lower(TrimPrefix(s)); IsBest(key, known, r) <==> Bars(key) <= 62 || AllDots(key) in known
  {
    var key := Lower(TrimPrefix(s));
    if Bars(key) == 0 {
      var c :| c in known && Splits(key, c);
      NoSplit(key, c);
      forall d | d in known && Splits(key, d) ensures d == r {
        NoSplit(key, d);
      }
    } else if Bars(key) >= 63 && AllDots(key) in known {
      forall c | c in known && Splits(key, c) ensures Dots(c) <= Dots(AllDots(key)) {
        DotsAtMost(key, c);
      }
    }
  }

  lemma {:induction false} NoSplit(key: string, c: string)
    requires Bars(key) == 0 && Splits(key, c)
    ensures c == key
    decreases |key|
  {
    if key != "" {
      NoSplit(key[1..], c[1..]);
      assert c == [c[0]] + c[1..] && key == [key[0]] + key[1..];
    }
  }

  function Blanks(n: nat): (key: string)
    ensures |key| == n && forall i :: 0 <= i < n ==> key[i] == '_'
  {
    seq(n, _ => '_')
  }

  lemma {:induction false} AllBars(n: nat)
    ensures Bars(Blanks(n)) == n
  {
    if n > 0 {
      assert Blanks(n)[1..] == Blanks(n - 1);
      AllBars(n - 1);
    }
  }

  /** A known key whose own environment name is not resolved to it: one of n >= 63 underscores. */
  lemma OverflowFails(n: nat, r: string)
    requires n >= 63 && Resolves(PREFIX + Blanks(n), {Blanks(n)}, r)
    ensures Splits(Lower(TrimPrefix(PREFIX + Blanks(n))), Blanks(n)) && r != Blanks(n)
  {
    var key := Blanks(n);
    AllBars(n);
    assert TrimPrefix(PREFIX + key) == key && Lower(key) == key;
    assert r[0] == '.';
  }

  function Underscored(k: string): (r: string)
    ensures |r| == |k| && forall i :: 0 <= i < |k| ==> r[i] == if k[i] == '.' then '_' else k[i]
  {
    seq(|k|, i requires 0 <= i < |k| => if k[i] == '.' then '_' else k[i])
  }

  /** The environment name of a settings key. */
  function EnvName(k: string): string { PREFIX + Upper(Underscored(k)) }

  lemma EnvNameKey(k: string)
    requires Lower(k) == k
    ensures Lower(TrimPrefix(EnvName(k))) == Underscored(k)
  {
    var u := Underscored(k);
    assert EnvName(k)[|PREFIX|..] == Upper(u);
    forall i | 0 <= i < |u| ensures Lower(Upper(u))[i] == u[i] {
      assert LowerChar(k[i]) == Lower(k)[i] == k[i];
    }
  }

  /** Known keys with pairwise different underscore forms come back from their environment names. */
  lemma EnvRoundTrip(k: string, known: set<string>, r: string)
    requires k in known && Lower(k) == k && Bars(Underscored(k)) <= 62 && Resolves(EnvName(k), known, r)
    requires forall a, b :: a in known && b in known && Underscored(a) == Underscored(b) ==> a == b
    ensures r == k
  {
    EnvNameKey(k);
    assert Splits(Underscored(k), k);
    if Bars(Underscored(k)) == 0 {
      NoBars(k);
    } else {
      SplitUnderscored(k, r);
    }
  }

  lemma {:induction false} NoBars(k: string)
    requires Bars(Underscored(k)) == 0
    ensures Underscored(k) == k
    decreases |k|
  {
    if k != "" {
      assert Underscored(k)[1..] == Underscored(k[1..]);
      NoBars(k[1..]);
      assert k == [k[0]] + k[1..];
    }
  }

  lemma SplitUnderscored(k: string, c: string)
    requires Splits(Underscored(k), c)
    ensures Underscored(c) == Underscored(k)
  {
    assert forall i :: 0 <= i < |k| ==> Underscored(c)[i] == Underscored(k)[i];
  }
}
