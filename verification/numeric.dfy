/** Real-valued helpers shared by both implementations of the pipeline:
    complex bins, sums, means, population variance, maxima and rectification.
    Floating point is modelled by `real`; rounding is not modelled. */
module Numeric {

  /** A complex spectrum bin. */
  datatype Complex = Complex(re: real, im: real)

  const Zero: Complex := Complex(0.0, 0.0)

  function Conj(c: Complex): Complex {
    Complex(c.re, -c.im)
  }

  /** Division of a complex value by a positive count. */
  function Scale(c: Complex, n: nat): Complex
    requires n > 0
  {
    Complex(c.re / n as real, c.im / n as real)
  }

  function Abs(x: real): (r: real)
    ensures r >= 0.0 && (r == x || r == -x)
  {
    if x < 0.0 then -x else x
  }

  /** Element-wise absolute value. */
  function Rectified(s: seq<real>): (r: seq<real>)
    ensures |r| == |s|
    ensures forall i :: 0 <= i < |s| ==> r[i] >= 0.0 && (r[i] == s[i] || r[i] == -s[i])
  {
    seq(|s|, i requires 0 <= i < |s| => Abs(s[i]))
  }

  /** Sum, peeling the last element so that a left-to-right accumulation extends it. */
  function Sum(s: seq<real>): real
  {
    if |s| == 0 then 0.0 else Sum(s[..|s| - 1]) + s[|s| - 1]
  }

  lemma SumSnoc(s: seq<real>, lo: nat, hi: nat)
    requires lo <= hi < |s|
    ensures Sum(s[lo..hi + 1]) == Sum(s[lo..hi]) + s[hi]
  {
    assert s[lo..hi + 1][..hi - lo] == s[lo..hi];
  }

  lemma SumPrefixSnoc(s: seq<real>, k: nat)
    requires k < |s|
    ensures Sum(s[..k + 1]) == Sum(s[..k]) + s[k]
  {
    assert s[..k + 1][..k] == s[..k];
  }

  /** A sum of terms in [0, m] lies in [0, |s| * m]. */
  lemma {:induction false} SumBounds(s: seq<real>, m: real)
    requires forall i :: 0 <= i < |s| ==> 0.0 <= s[i] <= m
    ensures 0.0 <= Sum(s) <= |s| as real * m
  {
    if |s| > 0 {
      SumBounds(s[..|s| - 1], m);
    }
  }

  /** A sum of terms no smaller than m is at least |s| * m. */
  lemma {:induction false} SumLowerBound(s: seq<real>, m: real)
    requires forall i :: 0 <= i < |s| ==> m <= s[i]
    ensures |s| as real * m <= Sum(s)
  {
    if |s| > 0 {
      SumLowerBound(s[..|s| - 1], m);
    }
  }

  /** Arithmetic mean (numpy `mean`). */
  function Mean(s: seq<real>): real
    requires |s| > 0
  {
    Sum(s) / |s| as real
  }

  function Square(x: real): (r: real)
    ensures r >= 0.0
  {
    x * x
  }

  /** The terms (s[i] - m)^2 summed by the variance. */
  function SquaredDeviations(s: seq<real>, m: real): (r: seq<real>)
    ensures |r| == |s|
    ensures forall i :: 0 <= i < |s| ==> r[i] >= 0.0
  {
    seq(|s|, i requires 0 <= i < |s| => Square(s[i] - m))
  }

  /** Population variance (divide by the count): the square of numpy's default `std`. */
  function Variance(s: seq<real>): real
    requires |s| > 0
  {
    Sum(SquaredDeviations(s, Mean(s))) / |s| as real
  }

  /** The mean of terms in [0, m] lies in [0, m]. */
  lemma MeanBounds(s: seq<real>, m: real)
    requires |s| > 0
    requires forall i :: 0 <= i < |s| ==> 0.0 <= s[i] <= m
    ensures 0.0 <= Mean(s) <= m
  {
    SumBounds(s, m);
    var c := |s| as real;
    var q := Mean(s);
    assert q * c == Sum(s);
    MulMonotone(0.0, q, c);
    MulMonotone(q, m, c);
  }

  lemma {:induction false} SumNonNegative(s: seq<real>)
    requires forall i :: 0 <= i < |s| ==> s[i] >= 0.0
    ensures Sum(s) >= 0.0
  {
    if |s| > 0 {
      SumNonNegative(s[..|s| - 1]);
    }
  }

  lemma VarianceNonNegative(s: seq<real>)
    requires |s| > 0
    ensures Variance(s) >= 0.0
  {
    SumNonNegative(SquaredDeviations(s, Mean(s)));
  }

  /** Largest element (`*std::max_element`, numpy `max`). */
  function Max(s: seq<real>): (r: real)
    requires |s| > 0
    ensures r in s
    ensures forall i :: 0 <= i < |s| ==> s[i] <= r
  {
    if |s| == 1 then s[0]
    else
      var m := Max(s[..|s| - 1]);
      assert forall i :: 0 <= i < |s| - 1 ==> s[..|s| - 1][i] == s[i];
      if s[|s| - 1] > m then s[|s| - 1] else m
  }

  // ---------------------------------------------------------------- real arithmetic steps

  /** Multiplying by a positive factor keeps the order, in both directions. */
  lemma MulMonotone(a: real, b: real, c: real)
    requires c > 0.0
    ensures a <= b <==> a * c <= b * c
    ensures a < b <==> a * c < b * c
  {
    var d := b - a;
    assert b * c - a * c == d * c;
    if d > 0.0 {
      assert d * c > 0.0;
    } else if d < 0.0 {
      assert (-d) * c > 0.0;
    }
  }

  /** With f * n == x and n > 0, a bound on f is the same bound on x, scaled by n. */
  lemma ScaledBound(f: real, n: real, x: real, bound: real)
    requires n > 0.0 && f * n == x
    ensures bound <= f <==> bound * n <= x
    ensures f <= bound <==> x <= bound * n
  {
    MulMonotone(bound, f, n);
    MulMonotone(f, bound, n);
  }

  /** Squaring is strictly increasing on the non-negative reals. */
  lemma SquareStrict(x: real, c: real)
    requires 0.0 <= x < c
    ensures x * x < c * c
  {
    PosMul(c - x, c + x);
    assert c * c - x * x == (c - x) * (c + x);
  }

  lemma PosMul(a: real, b: real)
    requires a > 0.0 && b > 0.0
    ensures a * b > 0.0
  {
  }

  /** The quotient is the unique q with q * y == x. */
  lemma DivUnique(x: real, y: real, q: real)
    requires y != 0.0 && q * y == x
    ensures x / y == q
  {
    var r := x / y;
    assert r * y == x;
    assert (r - q) * y == 0.0;
  }

  /** A larger positive divisor gives a smaller quotient of a non-negative number. */
  lemma DivAntitone(k: real, a: real, b: real)
    requires k >= 0.0 && 0.0 < a <= b
    ensures k / b <= k / a
  {
    var qa, qb := k / a, k / b;
    assert qa * a == k && qb * b == k;
    MulMonotone(0.0, qb, b);
    if qb > qa {
      MulMonotone(a, b, qb);
      MulMonotone(qa, qb, a);
      assert false;
    }
  }

  /** Strictly increasing integers, compared pairwise. */
  predicate StrictlyIncreasing(s: seq<int>) {
    forall a, b :: 0 <= a < b < |s| ==> s[a] < s[b]
  }

  /** Putting a value below every element in front of an increasing sequence keeps it increasing. */
  lemma PrependIncreasing(x: int, s: seq<int>)
    requires StrictlyIncreasing(s) && forall k :: 0 <= k < |s| ==> x < s[k]
    ensures StrictlyIncreasing([x] + s)
  {
    var r := [x] + s;
    forall a, b | 0 <= a < b < |r|
      ensures r[a] < r[b]
    {
      assert r[b] == s[b - 1];
      if a > 0 {
        assert r[a] == s[a - 1];
      }
    }
  }
}
