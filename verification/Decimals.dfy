/** Decimal numerals and strings that end in one. */
module Decimals {
  import opened Utf8

  function Decimal(n: nat): (d: Bytes)
    ensures d != [] && forall i :: 0 <= i < |d| ==> 48 <= d[i] < 58
  {
    if n < 10 then [48 + n] else Decimal(n / 10) + [48 + n % 10]
  }

  lemma {:induction false} DecimalInjective(n: nat, m: nat)
    requires Decimal(n) == Decimal(m)
    ensures n == m
    decreases n
  {
    var d := Decimal(n);
    assert d[|d| - 1] == 48 + n % 10 && d[|d| - 1] == 48 + m % 10;
    if n >= 10 && m >= 10 {
      assert d[..|d| - 1] == Decimal(n / 10);
      assert d[..|d| - 1] == Decimal(m / 10);
      DecimalInjective(n / 10, m / 10);
    }
  }

  /** A numeral behind a non-digit can be read back from the end of the string. */
  lemma NumeralAtEnd(a: seq<int>, b: seq<int>, sep: int, n: nat, m: nat)
    requires !(48 <= sep < 58)
    requires a + [sep] + Decimal(n) == b + [sep] + Decimal(m)
    ensures a == b && n == m
  {
    var s := a + [sep] + Decimal(n);
    var t := b + [sep] + Decimal(m);
    assert s[|a|] == sep && t[|b|] == sep;
    assert forall i :: |a| < i < |s| ==> s[i] == Decimal(n)[i - |a| - 1];
    assert forall i :: |b| < i < |t| ==> t[i] == Decimal(m)[i - |b| - 1];
    assert |a| == |b|;
    assert a == s[..|a|] && b == t[..|a|];
    assert Decimal(n) == s[|a| + 1..] && Decimal(m) == t[|a| + 1..];
    DecimalInjective(n, m);
  }

  lemma DecimalShort(n: nat)
    requires n <= 9999
    ensures |Decimal(n)| <= 4
  {
    assert n >= 10 ==> Decimal(n) == Decimal(n / 10) + [48 + n % 10];
    var p := n / 10;
    assert p >= 10 ==> Decimal(p) == Decimal(p / 10) + [48 + p % 10];
    var q := p / 10;
    assert q >= 10 ==> Decimal(q) == Decimal(q / 10) + [48 + q % 10];
  }
}
