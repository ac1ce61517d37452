/**
 * The arithmetic the backend's summaries share: totals, means that are 0 for
 * an empty list, and percentages guarded against a non-positive base. Values
 * are exact reals; rounding to two decimals is modelled where the code asks
 * for it, other floating-point rounding is not.
 */
module Stats {

  function Sum(s: seq<real>): real
    decreases |s|
  {
    if |s| == 0 then 0.0 else Sum(s[..|s| - 1]) + s[|s| - 1]
  }

  /** The total of two values. */
  lemma SumPair(a: real, b: real)
    ensures Sum([a, b]) == a + b
  {
    assert [a, b][..1] == [a];
    assert [a][..0] == [];
    assert Sum([a]) == a;
  }

  /** The mean of a list, 0 for an empty one. */
  function Mean(s: seq<real>): (m: real)
    ensures |s| > 0 ==> m * (|s| as real) == Sum(s)
    ensures |s| == 0 ==> m == 0.0
  {
    if |s| > 0 then Sum(s) / (|s| as real) else 0.0
  }

  /** Totals add up over concatenation. */
  lemma {:induction false} SumAppend(a: seq<real>, b: seq<real>)
    ensures Sum(a + b) == Sum(a) + Sum(b)
    decreases |b|
  {
    if |b| == 0 {
      assert a + b == a;
    } else {
      assert (a + b)[..|a + b| - 1] == a + b[..|b| - 1];
      SumAppend(a, b[..|b| - 1]);
    }
  }

  /** `part` as a percentage of a positive `whole`; 0 when `whole` is not positive. */
  function PercentOf(part: real, whole: real): (p: real)
    ensures whole <= 0.0 ==> p == 0.0
    ensures whole > 0.0 ==> p * whole == part * 100.0
  {
    if whole > 0.0 then part / whole * 100.0 else 0.0
  }

  /** A mean lies between any bounds of its values. */
  lemma MeanBetween(s: seq<real>, lo: real, hi: real)
    requires |s| > 0
    requires forall i :: 0 <= i < |s| ==> lo <= s[i] <= hi
    ensures lo <= Mean(s) <= hi
  {
    SumBetween(s, lo, hi);
    var n := |s| as real;
    assert Mean(s) * n == Sum(s);
    MeanScale(Mean(s), n, lo);
    MeanScale(Mean(s), n, hi);
  }

  lemma {:induction false} SumBetween(s: seq<real>, lo: real, hi: real)
    requires forall i :: 0 <= i < |s| ==> lo <= s[i] <= hi
    ensures lo * (|s| as real) <= Sum(s) <= hi * (|s| as real)
    decreases |s|
  {
    if |s| > 0 {
      var init := s[..|s| - 1];
      assert forall i :: 0 <= i < |init| ==> init[i] == s[i];
      SumBetween(init, lo, hi);
      assert lo * (|s| as real) == lo * (|init| as real) + lo;
      assert hi * (|s| as real) == hi * (|init| as real) + hi;
    }
  }

  lemma MeanScale(m: real, n: real, b: real)
    requires n > 0.0
    ensures b * n <= m * n ==> b <= m
    ensures m * n <= b * n ==> m <= b
  {
  }

  /** A whole number of hundredths: what a value rounded to two decimals is. */
  predicate Cents(x: real) {
    (x * 100.0).Floor as real == x * 100.0
  }

  /** `r` has two decimals and is within half a hundredth of `x`: `x` to two decimals. */
  predicate Near(r: real, x: real) {
    Cents(r) && x - 0.005 <= r <= x + 0.005
  }

  /** The number of hundredths a non-negative value rounds to. */
  function Hundredths(x: real): (n: int)
    requires x >= 0.0
    ensures n >= 0
    ensures n as real <= x * 100.0 + 0.5 < n as real + 1.0
  {
    (x * 100.0 + 0.5).Floor
  }

  /**
   * `round(x, 2)` in Python and `x.toFixed(2)` read back as a number, on an
   * exact value: the nearest hundredth, a half rounded away from zero.
   */
  function Round2(x: real): (r: real)
    ensures Near(r, x)
    ensures x >= 0.0 ==> r >= 0.0
    ensures x <= 0.0 ==> r <= 0.0
  {
    var n := if x >= 0.0 then Hundredths(x) else -Hundredths(-x);
    CentsOf(n);
    n as real / 100.0
  }

  lemma CentsOf(n: int)
    ensures Cents(n as real / 100.0)
  {
    assert (n as real / 100.0) * 100.0 == n as real;
  }

  /** A value that already has two decimals is left as it is. */
  lemma Round2Exact(x: real)
    requires Cents(x)
    ensures Round2(x) == x
  {
    var n := (x * 100.0).Floor;
    assert n as real == x * 100.0;
    if x >= 0.0 {
      assert Hundredths(x) == n;
    } else {
      assert Hundredths(-x) == -n;
    }
  }

  /** Rounding twice is rounding once. */
  lemma Round2Idempotent(x: real)
    ensures Round2(Round2(x)) == Round2(x)
  {
    Round2Exact(Round2(x));
  }

  /** Rounding is symmetric about zero. */
  lemma Round2Odd(x: real)
    ensures Round2(-x) == -Round2(x)
  {
    if x == 0.0 {
      assert Hundredths(0.0) == 0;
    }
  }

  /** Rounding never reorders two values. */
  lemma Round2Monotone(x: real, y: real)
    requires x <= y
    ensures Round2(x) <= Round2(y)
  {
    if x >= 0.0 {
      assert Hundredths(x) <= Hundredths(y);
    } else if y < 0.0 {
      assert Hundredths(-y) <= Hundredths(-x);
    }
  }
}
