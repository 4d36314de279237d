/**
 * Dense real tensors as nested sequences, with the sums and means that the
 * numeric backend computes (jnp.sum, jnp.mean) taken over exact reals.
 */
module Tensors {

  /** A matrix, row-major: m[x][y]. */
  type Mat = seq<seq<real>>

  /** A rank-3 tensor, t[i][x][y]; a batch of per-item matrices. */
  type Tensor3 = seq<Mat>

  /** m has shape [r, c]. */
  predicate IsMat(m: Mat, r: nat, c: nat) {
    |m| == r && forall x :: 0 <= x < r ==> |m[x]| == c
  }

  /** t has shape [n, r, c]. */
  predicate IsCube(t: Tensor3, n: nat, r: nat, c: nat) {
    |t| == n && forall i :: 0 <= i < n ==> IsMat(t[i], r, c)
  }

  /** Every matrix of items has shape [d, d]. */
  predicate AllSquare(items: seq<Mat>, d: nat) {
    forall j :: 0 <= j < |items| ==> IsMat(items[j], d, d)
  }

  /** Matrices of equal shape with equal entries are equal. */
  lemma MatExt(a: Mat, b: Mat, r: nat, c: nat)
    requires IsMat(a, r, c) && IsMat(b, r, c)
    requires forall x, y :: 0 <= x < r && 0 <= y < c ==> a[x][y] == b[x][y]
    ensures a == b
  {
    forall x | 0 <= x < r ensures a[x] == b[x] {
      assert forall y :: 0 <= y < c ==> a[x][y] == b[x][y];
    }
  }

  /** Multiplying both sides of a <= b by a natural number keeps the order. */
  lemma {:induction false} MulMono(a: nat, b: nat, p: nat)
    requires a <= b
    ensures a * p <= b * p
    decreases p
  {
    if p > 0 {
      MulMono(a, b, p - 1);
      assert a * p == a * (p - 1) + a;
      assert b * p == b * (p - 1) + b;
    }
  }

  /** Sum of a sequence, folded from the left. */
  function Sum(s: seq<real>): real {
    if |s| == 0 then 0.0 else Sum(s[..|s| - 1]) + s[|s| - 1]
  }

  /** A sum of non-negative values is non-negative. */
  lemma {:induction false} SumNonNegative(s: seq<real>)
    requires forall j :: 0 <= j < |s| ==> s[j] >= 0.0
    ensures Sum(s) >= 0.0
    decreases |s|
  {
    if |s| > 0 {
      SumNonNegative(s[..|s| - 1]);
    }
  }

  /** Arithmetic mean of a non-empty sequence. */
  function Mean(s: seq<real>): real
    requires |s| > 0
  {
    Sum(s) / (|s| as real)
  }

  /** s with t subtracted from every element (the broadcast `s - t`). */
  function Shifted(s: seq<real>, t: real): (r: seq<real>)
    ensures |r| == |s|
  {
    seq(|s|, j requires 0 <= j < |s| => s[j] - t)
  }

  /** Column (x, y) of a list of matrices: the values items[j][x][y] for every j. */
  function Col(items: seq<Mat>, d: nat, x: nat, y: nat): (r: seq<real>)
    requires AllSquare(items, d) && x < d && y < d
    ensures |r| == |items|
  {
    seq(|items|, j requires 0 <= j < |items| => items[j][x][y])
  }

  lemma SumSnoc(s: seq<real>, v: real)
    ensures Sum(s + [v]) == Sum(s) + v
  {
    assert (s + [v])[..|s|] == s;
  }

  lemma {:induction false} SumConcat(a: seq<real>, b: seq<real>)
    ensures Sum(a + b) == Sum(a) + Sum(b)
    decreases |b|
  {
    if |b| == 0 {
      assert a + b == a;
    } else {
      var b', v := b[..|b| - 1], b[|b| - 1];
      assert b == b' + [v];
      assert a + b == (a + b') + [v];
      SumSnoc(a + b', v);
      SumSnoc(b', v);
      SumConcat(a, b');
    }
  }

  /** Summing s - t over n elements removes n copies of t. */
  lemma {:induction false} SumShifted(s: seq<real>, t: real)
    ensures Sum(Shifted(s, t)) == Sum(s) - (|s| as real) * t
    decreases |s|
  {
    if |s| > 0 {
      var s' := s[..|s| - 1];
      assert Shifted(s, t)[..|s| - 1] == Shifted(s', t);
      SumShifted(s', t);
    }
  }

  /** Sums agree on pointwise-equal sequences given by different expressions. */
  lemma SumPointwise(a: seq<real>, b: seq<real>)
    requires |a| == |b| && forall j :: 0 <= j < |a| ==> a[j] == b[j]
    ensures Sum(a) == Sum(b)
  {
    assert a == b;
  }

  /** Adding two sequences elementwise adds their sums. */
  lemma {:induction false} SumAdd(a: seq<real>, b: seq<real>, c: seq<real>)
    requires |a| == |b| == |c| && forall j :: 0 <= j < |c| ==> c[j] == a[j] + b[j]
    ensures Sum(c) == Sum(a) + Sum(b)
    decreases |c|
  {
    if |c| > 0 {
      var k := |c| - 1;
      SumAdd(a[..k], b[..k], c[..k]);
    }
  }

  /** Multiplying every element by a constant multiplies the sum. */
  lemma {:induction false} SumScale(a: seq<real>, k: real, c: seq<real>)
    requires |a| == |c| && forall j :: 0 <= j < |c| ==> c[j] == k * a[j]
    ensures Sum(c) == k * Sum(a)
    decreases |c|
  {
    if |c| > 0 {
      var n := |c| - 1;
      SumScale(a[..n], k, c[..n]);
    }
  }

  /** The incremental mean update m' = m + (v - m) / (n + 1) applied to an exact mean. */
  lemma MeanStep(a: real, v: real, n: nat)
    requires n > 0
    ensures a / (n as real) + (v - a / (n as real)) / ((n + 1) as real) == (a + v) / ((n + 1) as real)
  {
    var q := a / (n as real);
    var n1 := (n + 1) as real;
    assert q * (n as real) == a;
    assert (q + (v - q) / n1) * n1 == q * n1 + (v - q);
    assert q * n1 + (v - q) == a + v;
  }

  /** The batch update T' = T + (Σ_j (g_j - T)) / (c + k) applied to an exact mean over c items. */
  lemma BatchMeanStep(a: real, b: real, c: nat, k: nat)
    requires c > 0
    ensures a / (c as real) + (b - (k as real) * (a / (c as real))) / ((c + k) as real)
         == (a + b) / ((c + k) as real)
  {
    var t := a / (c as real);
    var ck := (c + k) as real;
    assert t * (c as real) == a;
    assert (t + (b - (k as real) * t) / ck) * ck == t * ck + (b - (k as real) * t);
    assert t * ck + (b - (k as real) * t) == a + b;
  }

  /**
   * Merging a batch b into the exact mean of a: adding the summed deviations of b from
   * that mean, divided by the new count, gives the exact mean of a + b.
   */
  lemma MeanMerge(a: seq<real>, b: seq<real>)
    requires |a| > 0
    ensures Mean(a) + Sum(Shifted(b, Mean(a))) / ((|a| + |b|) as real) == Mean(a + b)
  {
    SumConcat(a, b);
    SumShifted(b, Mean(a));
    BatchMeanStep(Sum(a), Sum(b), |a|, |b|);
  }
}
