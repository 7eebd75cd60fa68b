/** Sums, means, minima and maxima of finite real sequences, and the comparison
    semantics of floating-point cells that may be NaN or infinite. */
module Numeric {
  import opened Wrappers

  /** Sum of a sequence, folded from the left. */
  function Sum(xs: seq<real>): real
  {
    if |xs| == 0 then 0.0 else Sum(xs[..|xs| - 1]) + xs[|xs| - 1]
  }

  /** Arithmetic mean of a non-empty sequence. */
  function Mean(xs: seq<real>): real
    requires |xs| > 0
  {
    Sum(xs) / (|xs| as real)
  }

  function MinOf(xs: seq<real>): (m: real)
    requires |xs| > 0
    ensures m in xs
    ensures forall k :: 0 <= k < |xs| ==> m <= xs[k]
  {
    if |xs| == 1 then xs[0]
    else
      var rest := MinOf(xs[..|xs| - 1]);
      if xs[|xs| - 1] < rest then xs[|xs| - 1] else rest
  }

  function MaxOf(xs: seq<real>): (m: real)
    requires |xs| > 0
    ensures m in xs
    ensures forall k :: 0 <= k < |xs| ==> xs[k] <= m
  {
    if |xs| == 1 then xs[0]
    else
      var rest := MaxOf(xs[..|xs| - 1]);
      if xs[|xs| - 1] > rest then xs[|xs| - 1] else rest
  }

  /** The sum may also be folded from the right. */
  lemma {:induction false} SumFirst(xs: seq<real>)
    requires |xs| > 0
    ensures Sum(xs) == xs[0] + Sum(xs[1..])
  {
    if |xs| > 1 {
      SumFirst(xs[..|xs| - 1]);
      assert xs[..|xs| - 1][1..] == xs[1..][..|xs[1..]| - 1];
    } else {
      assert xs[..0] == [] && xs[1..] == [];
    }
  }

  /** Bounding every element bounds the sum. */
  lemma {:induction false} SumBounds(xs: seq<real>, lo: real, hi: real)
    requires forall k :: 0 <= k < |xs| ==> lo <= xs[k] <= hi
    ensures (|xs| as real) * lo <= Sum(xs) <= (|xs| as real) * hi
  {
    if |xs| > 0 {
      SumBounds(xs[..|xs| - 1], lo, hi);
    }
  }

  lemma {:induction false} SumNonnegative(xs: seq<real>)
    requires forall k :: 0 <= k < |xs| ==> xs[k] >= 0.0
    ensures Sum(xs) >= 0.0
  {
    if |xs| > 0 {
      SumNonnegative(xs[..|xs| - 1]);
    }
  }

  /** The sum of a constant sequence. */
  lemma {:induction false} SumConstant(xs: seq<real>, c: real)
    requires forall k :: 0 <= k < |xs| ==> xs[k] == c
    ensures Sum(xs) == (|xs| as real) * c
  {
    SumBounds(xs, c, c);
  }

  /** Bounding every element bounds the mean. */
  lemma MeanWithin(xs: seq<real>, lo: real, hi: real)
    requires |xs| > 0
    requires forall k :: 0 <= k < |xs| ==> lo <= xs[k] <= hi
    ensures lo <= Mean(xs) <= hi
  {
    var n := |xs| as real;
    var total := Sum(xs);
    SumBounds(xs, lo, hi);
    QuotientBounds(total, n, lo, hi);
  }

  /** The mean lies between the smallest and the largest element. */
  lemma MeanBounds(xs: seq<real>)
    requires |xs| > 0
    ensures MinOf(xs) <= Mean(xs) <= MaxOf(xs)
  {
    MeanWithin(xs, MinOf(xs), MaxOf(xs));
  }

  /** Dividing by a positive n keeps the bounds n*lo <= s <= n*hi as lo <= s/n <= hi. */
  lemma QuotientBounds(s: real, n: real, lo: real, hi: real)
    requires n > 0.0
    requires n * lo <= s <= n * hi
    ensures lo <= s / n <= hi
  {
  }

  /** The mean of a constant sequence is that constant. */
  lemma MeanConstant(xs: seq<real>, c: real)
    requires |xs| > 0
    requires forall k :: 0 <= k < |xs| ==> xs[k] == c
    ensures Mean(xs) == c
  {
    SumConstant(xs, c);
  }

  lemma QuotientPositive(s: real, d: real)
    requires s > 0.0 && d > 0.0
    ensures s / d > 0.0
  {
  }

  lemma MulPositive(a: real, b: real)
    requires a > 0.0 && b > 0.0
    ensures a * b > 0.0
  {
  }

  lemma MulNonnegative(a: real, b: real)
    requires a >= 0.0 && b >= 0.0
    ensures a * b >= 0.0
  {
  }

  /** Terms each at least c times their weight add up to at least c times the total
      weight. */
  lemma {:induction false} WeightedLower(t: seq<real>, w: seq<real>, c: real)
    requires |t| == |w|
    requires forall k :: 0 <= k < |t| ==> c * w[k] <= t[k]
    ensures c * Sum(w) <= Sum(t)
  {
    if |t| > 0 {
      var n := |t| - 1;
      WeightedLower(t[..n], w[..n], c);
      Distribute(c, Sum(w), Sum(w[..n]), w[n]);
    }
  }

  /** Terms each at most c times their weight add up to at most c times the total
      weight. */
  lemma {:induction false} WeightedUpper(t: seq<real>, w: seq<real>, c: real)
    requires |t| == |w|
    requires forall k :: 0 <= k < |t| ==> t[k] <= c * w[k]
    ensures Sum(t) <= c * Sum(w)
  {
    if |t| > 0 {
      var n := |t| - 1;
      WeightedUpper(t[..n], w[..n], c);
      Distribute(c, Sum(w), Sum(w[..n]), w[n]);
    }
  }

  lemma Distribute(c: real, s: real, a: real, b: real)
    requires s == a + b
    ensures c * s == c * a + c * b
  {
  }

  /** A floating-point value that is finite or one of the two infinities; NaN is
      `None` of `Option<Ext>`. */
  datatype Ext = Finite(value: real) | PosInf | NegInf

  /** IEEE division of two finite values: x/0 is an infinity of the sign of x, and
      0/0 is NaN. */
  function Divide(x: real, d: real): (r: Option<Ext>)
    ensures r.None? <==> x == 0.0 && d == 0.0
    ensures r == Some(PosInf) <==> d == 0.0 && x > 0.0
    ensures r == Some(NegInf) <==> d == 0.0 && x < 0.0
    ensures d != 0.0 ==> r.Some? && r.value.Finite? && r.value.value * d == x
  {
    if d != 0.0 then Some(Finite(x / d))
    else if x > 0.0 then Some(PosInf)
    else if x < 0.0 then Some(NegInf)
    else None
  }

  /** A defined real cell viewed as a floating-point value. */
  function Lift(x: Option<real>): Option<Ext>
  {
    match x
    case Some(v) => Some(Finite(v))
    case None => None
  }

  // Comparisons of a cell with a constant threshold. A NaN cell compares false with
  // everything, as pandas comparisons do; the infinities compare as the extended reals.

  predicate AtMost(x: Option<Ext>, c: real)
  {
    match x
    case Some(Finite(v)) => v <= c
    case Some(NegInf) => true
    case Some(PosInf) => false
    case None => false
  }

  predicate AtLeast(x: Option<Ext>, c: real)
  {
    match x
    case Some(Finite(v)) => v >= c
    case Some(PosInf) => true
    case Some(NegInf) => false
    case None => false
  }

  predicate Above(x: Option<Ext>, c: real)
  {
    match x
    case Some(Finite(v)) => v > c
    case Some(PosInf) => true
    case Some(NegInf) => false
    case None => false
  }

  predicate Below(x: Option<Ext>, c: real)
  {
    match x
    case Some(Finite(v)) => v < c
    case Some(NegInf) => true
    case Some(PosInf) => false
    case None => false
  }

  /** Strict comparison of two real cells; false when either is NaN. */
  predicate Greater(x: Option<real>, y: Option<real>)
  {
    x.Some? && y.Some? && x.value > y.value
  }

  /** No comparison involving a NaN cell holds. */
  lemma NaNComparesFalse(c: real, y: Option<real>)
    ensures !AtMost(None, c) && !AtLeast(None, c) && !Above(None, c) && !Below(None, c)
    ensures !Greater(None, y) && !Greater(y, None)
  {
  }
}
