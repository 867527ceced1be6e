/**
 * The numpy reductions the simulator applies to its result arrays: the sum and
 * mean of a column (np.mean(..., axis=0)) and the minimum and maximum of a
 * vector (np.min, np.max), together with the facts about them that the
 * aggregation proofs use.
 */
module Statistics {

  /** Sum of a sequence, accumulated from the left. */
  function Sum(s: seq<real>): real
    decreases |s|
  {
    if |s| == 0 then 0.0 else Sum(s[..|s| - 1]) + s[|s| - 1]
  }

  /** np.mean of a non-empty vector. */
  function Mean(s: seq<real>): real
    requires |s| > 0
  {
    Sum(s) / (|s| as real)
  }

  /** The values a[0, j], ..., a[Length0 - 1, j] of column j. */
  function Column(a: array2<real>, j: int): (c: seq<real>)
    requires 0 <= j < a.Length1
    reads a
    ensures |c| == a.Length0
    ensures forall i :: 0 <= i < a.Length0 ==> c[i] == a[i, j]
  {
    seq(a.Length0, i requires 0 <= i < a.Length0 reads a => a[i, j])
  }

  /** The mean of every column, as np.mean(a, axis=0) computes it. */
  function ColumnMeans(a: array2<real>): (m: seq<real>)
    requires a.Length0 > 0
    reads a
    ensures |m| == a.Length1
    ensures forall j :: 0 <= j < a.Length1 ==> m[j] == Mean(Column(a, j))
  {
    seq(a.Length1, j requires 0 <= j < a.Length1 reads a => Mean(Column(a, j)))
  }

  /** The contents of a two-dimensional array, row by row. */
  function Matrix(a: array2<real>): (m: seq<seq<real>>)
    reads a
    ensures |m| == a.Length0
    ensures forall i :: 0 <= i < a.Length0 ==> |m[i]| == a.Length1
    ensures forall i, j :: 0 <= i < a.Length0 && 0 <= j < a.Length1 ==> m[i][j] == a[i, j]
  {
    seq(a.Length0, i requires 0 <= i < a.Length0 reads a =>
      seq(a.Length1, j requires 0 <= j < a.Length1 reads a => a[i, j]))
  }

  lemma {:induction false} SumNonNegative(s: seq<real>)
    requires forall i :: 0 <= i < |s| ==> 0.0 <= s[i]
    ensures 0.0 <= Sum(s)
  {
    if |s| > 0 {
      SumNonNegative(s[..|s| - 1]);
    }
  }

  lemma {:induction false} SumAtMostLength(s: seq<real>)
    requires forall i :: 0 <= i < |s| ==> s[i] <= 1.0
    ensures Sum(s) <= |s| as real
  {
    if |s| > 0 {
      SumAtMostLength(s[..|s| - 1]);
    }
  }

  /** Sums are monotone under a pointwise ordering. */
  lemma {:induction false} SumMonotone(a: seq<real>, b: seq<real>)
    requires |a| == |b|
    requires forall i :: 0 <= i < |a| ==> a[i] <= b[i]
    ensures Sum(a) <= Sum(b)
  {
    if |a| > 0 {
      SumMonotone(a[..|a| - 1], b[..|b| - 1]);
    }
  }

  /** The sum of a pointwise sum is the sum of the sums. */
  lemma {:induction false} SumAdditive(a: seq<real>, b: seq<real>, c: seq<real>)
    requires |a| == |b| == |c|
    requires forall i :: 0 <= i < |a| ==> c[i] == a[i] + b[i]
    ensures Sum(c) == Sum(a) + Sum(b)
  {
    if |a| > 0 {
      SumAdditive(a[..|a| - 1], b[..|b| - 1], c[..|c| - 1]);
    }
  }

  /** The sum of pointwise midpoints is the midpoint of the sums. */
  lemma {:induction false} SumOfMidpoints(a: seq<real>, b: seq<real>, c: seq<real>)
    requires |a| == |b| == |c|
    requires forall i :: 0 <= i < |a| ==> c[i] == (a[i] + b[i]) / 2.0
    ensures Sum(c) == (Sum(a) + Sum(b)) / 2.0
  {
    if |a| > 0 {
      SumOfMidpoints(a[..|a| - 1], b[..|b| - 1], c[..|c| - 1]);
    }
  }

  /** The mean of a vector of outage indicators (each 0 or 1) is a probability. */
  lemma MeanOfIndicators(s: seq<real>)
    requires |s| > 0
    requires forall i :: 0 <= i < |s| ==> s[i] == 0.0 || s[i] == 1.0
    ensures 0.0 <= Mean(s) <= 1.0
  {
    SumNonNegative(s);
    SumAtMostLength(s);
    DivideBounds(Sum(s), |s| as real);
  }

  lemma MeanNonNegative(s: seq<real>)
    requires |s| > 0
    requires forall i :: 0 <= i < |s| ==> 0.0 <= s[i]
    ensures 0.0 <= Mean(s)
  {
    SumNonNegative(s);
    DivideBounds(Sum(s), |s| as real);
  }

  /** Pointwise domination carries over to means: below, b dominates a; above, b is dominated by a + c. */
  lemma MeanBetween(a: seq<real>, b: seq<real>, c: seq<real>)
    requires |a| == |b| == |c| > 0
    requires forall i :: 0 <= i < |a| ==> a[i] <= b[i] <= a[i] + c[i]
    ensures Mean(a) <= Mean(b) <= Mean(a) + Mean(c)
  {
    var n := |a| as real;
    SumMonotone(a, b);
    var d := seq(|a|, i requires 0 <= i < |a| => a[i] + c[i]);
    SumMonotone(b, d);
    SumAdditive(a, c, d);
    DivideMonotone(Sum(a), Sum(b), n);
    DivideMonotone(Sum(b), Sum(a) + Sum(c), n);
    DivideAdditive(Sum(a), Sum(c), n);
  }

  lemma MeanOfMidpoints(a: seq<real>, b: seq<real>, c: seq<real>)
    requires |a| == |b| == |c| > 0
    requires forall i :: 0 <= i < |a| ==> c[i] == (a[i] + b[i]) / 2.0
    ensures Mean(c) == (Mean(a) + Mean(b)) / 2.0
  {
    SumOfMidpoints(a, b, c);
    DivideAdditive(Sum(a), Sum(b), |a| as real);
  }

  lemma DivideBounds(x: real, n: real)
    requires 0.0 < n
    ensures 0.0 <= x ==> 0.0 <= x / n
    ensures x <= n ==> x / n <= 1.0
  {
  }

  lemma DivideMonotone(x: real, y: real, n: real)
    requires 0.0 < n && x <= y
    ensures x / n <= y / n
  {
  }

  lemma DivideAdditive(x: real, y: real, n: real)
    requires 0.0 < n
    ensures (x + y) / n == x / n + y / n
  {
  }

  /** np.min of a non-empty vector: one of its entries, below all of them. */
  function Min(s: seq<real>): (m: real)
    requires |s| > 0
    ensures m in s
    ensures forall i :: 0 <= i < |s| ==> m <= s[i]
  {
    if |s| == 1 then s[0]
    else
      var rest := Min(s[1..]);
      if s[0] <= rest then s[0] else rest
  }

  /** np.max of a non-empty vector: one of its entries, above all of them. */
  function Max(s: seq<real>): (m: real)
    requires |s| > 0
    ensures m in s
    ensures forall i :: 0 <= i < |s| ==> s[i] <= m
  {
    if |s| == 1 then s[0]
    else
      var rest := Max(s[1..]);
      if rest <= s[0] then s[0] else rest
  }
}
