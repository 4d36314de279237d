/**
 * The reductions of the step functions and the epoch loops: the correct-prediction
 * count `jnp.sum(jnp.argmax(logits, -1) == y)` (src/train_utils.py:66, 122), the epoch
 * loss over the concatenated per-item losses and the epoch accuracy
 * (src/train_utils.py:306-307, 355-356).
 */
module Reductions {
  import opened Tensors

  /** jnp.argmax over one row of logits: the first index holding the maximum. */
  function ArgMax(row: seq<real>): (r: nat)
    requires |row| > 0
    ensures r < |row|
    ensures forall j :: 0 <= j < |row| ==> row[j] <= row[r]
    ensures forall j :: 0 <= j < r ==> row[j] < row[r]
  {
    if |row| == 1 then 0
    else
      var k := ArgMax(row[..|row| - 1]);
      if row[|row| - 1] > row[k] then |row| - 1 else k
  }

  predicate RowsNonEmpty(logits: seq<seq<real>>) {
    forall i :: 0 <= i < |logits| ==> |logits[i]| > 0
  }

  /** The number of items whose predicted class (argmax of the logits) is the label. */
  function NCorrect(logits: seq<seq<real>>, labels: seq<int>): (r: nat)
    requires |logits| == |labels| && RowsNonEmpty(logits)
    ensures r <= |logits|
  {
    if |logits| == 0 then 0
    else
      var k := |logits| - 1;
      NCorrect(logits[..k], labels[..k]) + (if ArgMax(logits[k]) == labels[k] then 1 else 0)
  }

  /** The items predicted correctly. */
  function Hits(logits: seq<seq<real>>, labels: seq<int>): set<nat>
    requires |logits| == |labels| && RowsNonEmpty(logits)
  {
    set i: nat | i < |logits| && ArgMax(logits[i]) == labels[i]
  }

  /** The count is the number of correctly predicted items, so it lies in 0..N. */
  lemma {:induction false} NCorrectIsHits(logits: seq<seq<real>>, labels: seq<int>)
    requires |logits| == |labels| && RowsNonEmpty(logits)
    ensures NCorrect(logits, labels) == |Hits(logits, labels)| <= |logits|
    decreases |logits|
  {
    if |logits| > 0 {
      var k := |logits| - 1;
      var pl, py := logits[..k], labels[..k];
      NCorrectIsHits(pl, py);
      HitsSnoc(logits, labels);
      assert k !in Hits(pl, py);
    }
  }

  /** The hits of N items are the hits of the first N - 1, and the last item if it is one. */
  lemma HitsSnoc(logits: seq<seq<real>>, labels: seq<int>)
    requires |logits| == |labels| > 0 && RowsNonEmpty(logits)
    ensures var k := |logits| - 1;
      && RowsNonEmpty(logits[..k])
      && Hits(logits, labels)
         == Hits(logits[..k], labels[..k]) + (if ArgMax(logits[k]) == labels[k] then {k} else {})
  {
    var k := |logits| - 1;
    var pl, py := logits[..k], labels[..k];
    assert RowsNonEmpty(pl) by {
      forall i | 0 <= i < k ensures |pl[i]| > 0 {
        assert pl[i] == logits[i];
      }
    }
    var last: set<nat> := if ArgMax(logits[k]) == labels[k] then {k} else {};
    forall i: nat ensures i in Hits(logits, labels) <==> i in Hits(pl, py) + last {
      if i < k {
        assert pl[i] == logits[i] && py[i] == labels[i];
      }
    }
  }

  /** jnp.concatenate of the per-step loss vectors. */
  function Concat(ls: seq<seq<real>>): (r: seq<real>)
    ensures |r| == ItemCount(ls)
  {
    if |ls| == 0 then [] else Concat(ls[..|ls| - 1]) + ls[|ls| - 1]
  }

  /** The number of items over all steps. */
  function ItemCount(ls: seq<seq<real>>): nat {
    if |ls| == 0 then 0 else ItemCount(ls[..|ls| - 1]) + |ls[|ls| - 1]|
  }

  lemma ItemCountSnoc(ls: seq<seq<real>>, l: seq<real>)
    ensures ItemCount(ls + [l]) == ItemCount(ls) + |l|
  {
    assert (ls + [l])[..|ls|] == ls;
  }

  /** The per-step sums of losses. */
  function StepSums(ls: seq<seq<real>>): (r: seq<real>)
    ensures |r| == |ls|
  {
    seq(|ls|, b requires 0 <= b < |ls| => Sum(ls[b]))
  }

  /** The per-step mean losses (the mean-of-means reading of an epoch loss). */
  function StepMeans(ls: seq<seq<real>>): (r: seq<real>)
    requires forall b :: 0 <= b < |ls| ==> |ls[b]| > 0
    ensures |r| == |ls|
  {
    seq(|ls|, b requires 0 <= b < |ls| => Mean(ls[b]))
  }

  /**
   * The epoch loss: jnp.mean over the concatenated per-item losses.  Non-negative
   * per-item losses (as cross-entropy losses are) give a non-negative epoch loss.
   */
  function EpochLoss(ls: seq<seq<real>>): (r: real)
    requires |Concat(ls)| > 0
    ensures NonNegativeLosses(ls) ==> r >= 0.0
  {
    MeanNonNegative(ls);
    Mean(Concat(ls))
  }

  lemma MeanNonNegative(ls: seq<seq<real>>)
    requires |Concat(ls)| > 0
    ensures NonNegativeLosses(ls) ==> Mean(Concat(ls)) >= 0.0
  {
    if NonNegativeLosses(ls) {
      var all := Concat(ls);
      ConcatNonNegative(ls);
      SumNonNegative(all);
      DivNonNegative(Sum(all), |all| as real);
    }
  }

  lemma DivNonNegative(x: real, y: real)
    requires x >= 0.0 && y > 0.0
    ensures x / y >= 0.0
  {
    var q := x / y;
    assert q * y == x;
  }

  /** Every per-item loss of every step is non-negative. */
  predicate NonNegativeLosses(ls: seq<seq<real>>) {
    forall b, j :: 0 <= b < |ls| && 0 <= j < |ls[b]| ==> ls[b][j] >= 0.0
  }

  lemma {:induction false} ConcatNonNegative(ls: seq<seq<real>>)
    requires NonNegativeLosses(ls)
    ensures forall j :: 0 <= j < |Concat(ls)| ==> Concat(ls)[j] >= 0.0
    decreases |ls|
  {
    if |ls| > 0 {
      var k := |ls| - 1;
      assert forall b :: 0 <= b < k ==> ls[..k][b] == ls[b];
      assert NonNegativeLosses(ls[..k]);
      ConcatNonNegative(ls[..k]);
    }
  }

  /** The epoch accuracy: correct predictions over the dataset size. */
  function Accuracy(correct: nat, size: nat): (r: real)
    requires size > 0
    ensures 0.0 <= r
    ensures correct <= size ==> r <= 1.0
    ensures r == 1.0 <==> correct == size
  {
    (correct as real) / (size as real)
  }

  lemma {:induction false} ConcatSpec(ls: seq<seq<real>>)
    ensures |Concat(ls)| == ItemCount(ls)
    ensures Sum(Concat(ls)) == Sum(StepSums(ls))
    decreases |ls|
  {
    if |ls| > 0 {
      var k := |ls| - 1;
      ConcatSpec(ls[..k]);
      SumConcat(Concat(ls[..k]), ls[k]);
      assert StepSums(ls) == StepSums(ls[..k]) + [Sum(ls[k])];
      SumSnoc(StepSums(ls[..k]), Sum(ls[k]));
    }
  }

  /**
   * The epoch loss is the mean over every item: the total of all losses divided by the
   * number of items, whatever the step sizes.
   */
  lemma EpochLossIsItemMean(ls: seq<seq<real>>)
    requires |Concat(ls)| > 0
    ensures ItemCount(ls) > 0
    ensures EpochLoss(ls) == Sum(StepSums(ls)) / (ItemCount(ls) as real)
  {
    ConcatSpec(ls);
  }

  /** With equal step sizes the epoch loss is also the mean of the per-step means. */
  lemma EqualStepsMeanOfMeans(ls: seq<seq<real>>, n: nat)
    requires |ls| > 0 && n > 0 && forall b :: 0 <= b < |ls| ==> |ls[b]| == n
    ensures |Concat(ls)| > 0
    ensures EpochLoss(ls) == Mean(StepMeans(ls))
  {
    var nr, lr := n as real, |ls| as real;
    var total := Sum(StepSums(ls));
    StepMeansSum(ls, n);
    ConcatSpec(ls);
    ItemCountUniform(ls, n);
    assert (|ls| * n) as real == lr * nr;
    MeanOfMeansArith(total, Sum(StepMeans(ls)), nr, lr);
  }

  lemma StepMeansSum(ls: seq<seq<real>>, n: nat)
    requires n > 0 && forall b :: 0 <= b < |ls| ==> |ls[b]| == n
    ensures Sum(StepMeans(ls)) == Sum(StepSums(ls)) / (n as real)
  {
    var means, sums := StepMeans(ls), StepSums(ls);
    forall b | 0 <= b < |ls| ensures means[b] == sums[b] / (n as real) {
      assert means[b] == Mean(ls[b]) && sums[b] == Sum(ls[b]);
    }
    SumDivided(sums, means, n as real);
  }

  /** Dividing every element by d divides the sum by d. */
  lemma {:induction false} SumDivided(a: seq<real>, c: seq<real>, d: real)
    requires d > 0.0 && |a| == |c| && forall j :: 0 <= j < |c| ==> c[j] == a[j] / d
    ensures Sum(c) == Sum(a) / d
    decreases |c|
  {
    if |c| > 0 {
      var k := |c| - 1;
      SumDivided(a[..k], c[..k], d);
      AddDiv(Sum(a[..k]), a[k], d);
    }
  }

  lemma AddDiv(x: real, y: real, d: real)
    requires d > 0.0
    ensures x / d + y / d == (x + y) / d
  {
  }

  lemma MeanOfMeansArith(total: real, sumMeans: real, nr: real, lr: real)
    requires nr > 0.0 && lr > 0.0 && sumMeans == total / nr
    ensures total / (lr * nr) == sumMeans / lr
  {
    DivDiv(total, nr, lr);
  }

  lemma DivDiv(t: real, a: real, b: real)
    requires a > 0.0 && b > 0.0
    ensures t / (b * a) == (t / a) / b
  {
    var q := t / a;
    assert q * a == t;
    assert (q / b) * (b * a) == q * a;
  }

  lemma {:induction false} ItemCountUniform(ls: seq<seq<real>>, n: nat)
    requires forall b :: 0 <= b < |ls| ==> |ls[b]| == n
    ensures ItemCount(ls) == |ls| * n
    decreases |ls|
  {
    if |ls| > 0 {
      ItemCountUniform(ls[..|ls| - 1], n);
    }
  }

  /**
   * With unequal step sizes the two differ: losses [1] and [2, 3] give an epoch loss of
   * 2, while the mean of the step means is 1.75.
   */
  lemma UnequalStepsNotMeanOfMeans()
    ensures |Concat([[1.0], [2.0, 3.0]])| > 0
    ensures EpochLoss([[1.0], [2.0, 3.0]]) == 2.0
    ensures Mean(StepMeans([[1.0], [2.0, 3.0]])) == 1.75
  {
    var ls: seq<seq<real>> := [[1.0], [2.0, 3.0]];
    var none: seq<seq<real>> := [];
    var empty: seq<real> := [];
    assert ls[..1] == [[1.0]] && ls[..1][..0] == none;
    assert Concat(ls) == [1.0, 2.0, 3.0];
    assert [1.0, 2.0, 3.0][..2] == [1.0, 2.0] && [1.0, 2.0][..1] == [1.0] && [1.0][..0] == empty;
    assert Sum([1.0, 2.0, 3.0]) == 6.0;
    assert [2.0, 3.0][..1] == [2.0] && [2.0][..0] == empty;
    assert Sum([2.0, 3.0]) == 5.0;
    assert Sum([1.0]) == 1.0;
    assert StepMeans(ls) == [1.0, 2.5];
    assert [1.0, 2.5][..1] == [1.0];
    assert Sum([1.0, 2.5]) == 3.5;
  }
}
