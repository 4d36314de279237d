/**
 * One GGN pass of the epoch driver (src/train_utils.py:252-290): the two
 * Welford-style running means GGN_samples and GGN_total, folded over the
 * per-batch GGN tensors [N, D, D], and the results saved along the way.
 */
module Aggregation {
  import opened Wrappers
  import opened Tensors

  /** A call of save_results: a samples checkpoint keyed by (step, batch count), or the total keyed by the step alone. */
  datatype Save =
    | SamplesSaved(step: int, batchSize: int, samples: Tensor3)
    | TotalSaved(step: int, total: Option<Mat>)

  /** A per-batch GGN as compute_ggn returns it: at least one item, every item D x D. */
  predicate GgnShaped(g: Tensor3, d: nat) {
    |g| > 0 && AllSquare(g, d)
  }

  /** Every batch has shape [n, d, d]. */
  predicate Uniform(gs: seq<Tensor3>, n: nat, d: nat) {
    forall k :: 0 <= k < |gs| ==> IsCube(gs[k], n, d, d)
  }

  /** Position (i, x, y) of every batch: the values averaged into GGN_samples[i][x][y]. */
  function Fiber(gs: seq<Tensor3>, n: nat, d: nat, i: nat, x: nat, y: nat): (r: seq<real>)
    requires Uniform(gs, n, d) && i < n && x < d && y < d
    ensures |r| == |gs|
  {
    seq(|gs|, k requires 0 <= k < |gs| => gs[k][i][x][y])
  }

  /** What GGN_samples stands for: the exact per-position mean across the batches seen. */
  function SamplesMean(gs: seq<Tensor3>, n: nat, d: nat): (r: Tensor3)
    requires |gs| > 0 && Uniform(gs, n, d)
    ensures IsCube(r, n, d, d)
  {
    seq(n, i requires 0 <= i < n =>
      seq(d, x requires 0 <= x < d =>
        seq(d, y requires 0 <= y < d => Mean(Fiber(gs, n, d, i, x, y)))))
  }

  /** What GGN_total stands for: the exact mean of a non-empty list of D x D matrices (also jnp.mean(GGN, axis=0)). */
  function MatMean(items: seq<Mat>, d: nat): (r: Mat)
    requires |items| > 0 && AllSquare(items, d)
    ensures IsMat(r, d, d)
  {
    seq(d, x requires 0 <= x < d =>
      seq(d, y requires 0 <= y < d => Mean(Col(items, d, x, y))))
  }

  /** All per-item GGNs of the batches, in order, ignoring batch boundaries. */
  function Items(gs: seq<Tensor3>): (r: seq<Mat>)
  {
    if |gs| == 0 then [] else Items(gs[..|gs| - 1]) + gs[|gs| - 1]
  }

  /** GGN_samples + (GGN - GGN_samples) / m (src/train_utils.py:270-272). */
  function SamplesUpdate(s: Tensor3, g: Tensor3, m: nat, n: nat, d: nat): (r: Tensor3)
    requires m > 0 && IsCube(s, n, d, d) && IsCube(g, n, d, d)
    ensures IsCube(r, n, d, d)
  {
    seq(n, i requires 0 <= i < n =>
      seq(d, x requires 0 <= x < d =>
        seq(d, y requires 0 <= y < d => s[i][x][y] + (g[i][x][y] - s[i][x][y]) / (m as real))))
  }

  /** GGN_total + jnp.sum(GGN - GGN_total[None], axis=0) / GGN_counter (src/train_utils.py:284-286). */
  function TotalUpdate(t: Mat, g: Tensor3, counter: nat, d: nat): (r: Mat)
    requires counter > 0 && IsMat(t, d, d) && AllSquare(g, d)
    ensures IsMat(r, d, d)
  {
    seq(d, x requires 0 <= x < d =>
      seq(d, y requires 0 <= y < d => t[x][y] + Sum(Shifted(Col(g, d, x, y), t[x][y])) / (counter as real)))
  }

  lemma {:induction false} ItemsShape(gs: seq<Tensor3>, d: nat)
    requires forall k :: 0 <= k < |gs| ==> AllSquare(gs[k], d)
    ensures AllSquare(Items(gs), d)
    decreases |gs|
  {
    if |gs| > 0 {
      ItemsShape(gs[..|gs| - 1], d);
    }
  }

  /** Three-level extensionality for tensors of equal shape. */
  lemma CubeExt(a: Tensor3, b: Tensor3, n: nat, d: nat)
    requires IsCube(a, n, d, d) && IsCube(b, n, d, d)
    requires forall i, x, y :: 0 <= i < n && 0 <= x < d && 0 <= y < d ==> a[i][x][y] == b[i][x][y]
    ensures a == b
  {
    forall i | 0 <= i < n ensures a[i] == b[i] {
      forall x | 0 <= x < d ensures a[i][x] == b[i][x] {
        assert forall y :: 0 <= y < d ==> a[i][x][y] == b[i][x][y];
      }
    }
  }

  /** The first batch, copied, is the mean over one batch (src/train_utils.py:268). */
  lemma SamplesFirst(g: Tensor3, n: nat, d: nat)
    requires IsCube(g, n, d, d)
    ensures SamplesMean([g], n, d) == g
  {
    var r := SamplesMean([g], n, d);
    forall i, x, y | 0 <= i < n && 0 <= x < d && 0 <= y < d ensures r[i][x][y] == g[i][x][y] {
      var f := Fiber([g], n, d, i, x, y);
      assert f == [] + [g[i][x][y]];
      SumSnoc([], g[i][x][y]);
      assert Mean(f) == g[i][x][y];
    }
    CubeExt(r, g, n, d);
  }

  /** One samples update turns the exact mean over m batches into the exact mean over m + 1. */
  lemma SamplesStep(gs: seq<Tensor3>, g: Tensor3, n: nat, d: nat)
    requires |gs| > 0 && Uniform(gs, n, d) && IsCube(g, n, d, d)
    ensures Uniform(gs + [g], n, d)
    ensures SamplesUpdate(SamplesMean(gs, n, d), g, |gs| + 1, n, d) == SamplesMean(gs + [g], n, d)
  {
    var gs' := gs + [g];
    assert Uniform(gs', n, d) by {
      forall k | 0 <= k < |gs'| ensures IsCube(gs'[k], n, d, d) {
        if k < |gs| { assert gs'[k] == gs[k]; }
      }
    }
    var lhs := SamplesUpdate(SamplesMean(gs, n, d), g, |gs| + 1, n, d);
    var rhs := SamplesMean(gs', n, d);
    forall i, x, y | 0 <= i < n && 0 <= x < d && 0 <= y < d ensures lhs[i][x][y] == rhs[i][x][y] {
      var f := Fiber(gs, n, d, i, x, y);
      assert Fiber(gs', n, d, i, x, y) == f + [g[i][x][y]];
      SumSnoc(f, g[i][x][y]);
      MeanStep(Sum(f), g[i][x][y], |gs|);
    }
    CubeExt(lhs, rhs, n, d);
  }

  /** One total update turns the exact mean over the items seen into the exact mean over those and a new batch of any size. */
  lemma TotalStep(items: seq<Mat>, g: Tensor3, d: nat)
    requires |items| > 0 && AllSquare(items, d) && AllSquare(g, d)
    ensures AllSquare(items + g, d)
    ensures TotalUpdate(MatMean(items, d), g, |items| + |g|, d) == MatMean(items + g, d)
  {
    var all := items + g;
    assert AllSquare(all, d) by {
      forall j | 0 <= j < |all| ensures IsMat(all[j], d, d) {
        if j < |items| { assert all[j] == items[j]; } else { assert all[j] == g[j - |items|]; }
      }
    }
    var lhs := TotalUpdate(MatMean(items, d), g, |items| + |g|, d);
    var rhs := MatMean(all, d);
    forall x, y | 0 <= x < d && 0 <= y < d ensures lhs[x][y] == rhs[x][y] {
      TotalStepAt(items, g, d, x, y);
    }
    MatExt(lhs, rhs, d, d);
  }

  lemma TotalStepAt(items: seq<Mat>, g: Tensor3, d: nat, x: nat, y: nat)
    requires |items| > 0 && AllSquare(items, d) && AllSquare(g, d) && AllSquare(items + g, d)
    requires x < d && y < d
    ensures TotalUpdate(MatMean(items, d), g, |items| + |g|, d)[x][y] == MatMean(items + g, d)[x][y]
  {
    var a, b := Col(items, d, x, y), Col(g, d, x, y);
    ColConcat(items, g, d, x, y);
    MeanMerge(a, b);
  }

  /** Column (x, y) of two lists of matrices, one after the other. */
  lemma ColConcat(items: seq<Mat>, g: seq<Mat>, d: nat, x: nat, y: nat)
    requires AllSquare(items, d) && AllSquare(g, d) && AllSquare(items + g, d) && x < d && y < d
    ensures Col(items + g, d, x, y) == Col(items, d, x, y) + Col(g, d, x, y)
  {
    var a, b, ab := Col(items, d, x, y), Col(g, d, x, y), Col(items + g, d, x, y);
    forall j | 0 <= j < |ab| ensures ab[j] == (a + b)[j] {
      if j < |items| { assert (items + g)[j] == items[j]; } else { assert (items + g)[j] == g[j - |items|]; }
    }
  }

  lemma {:induction false} ItemsCover(gs: seq<Tensor3>)
    requires |gs| > 0
    ensures |Items(gs)| >= |gs[0]|
    decreases |gs|
  {
    if |gs| > 1 {
      ItemsCover(gs[..|gs| - 1]);
    } else {
      assert Items(gs) == [] + gs[0];
    }
  }

  /** How many leading batches have n items: the batch before which the pass fails, or |gs|. */
  function MatchingPrefix(gs: seq<Tensor3>, n: nat): (k: nat)
    ensures k <= |gs|
    ensures forall j :: 0 <= j < k ==> |gs[j]| == n
    ensures k < |gs| ==> |gs[k]| != n
  {
    if |gs| == 0 || |gs[0]| != n then 0 else 1 + MatchingPrefix(gs[1..], n)
  }

  /**
   * The samples checkpoints of the first m batches: for every m' in 1..m that is
   * listed in sizes, in increasing order, the exact samples mean after m' batches.
   */
  function SampleSaves(sizes: seq<int>, step: int, gs: seq<Tensor3>, n: nat, d: nat, m: nat): (r: seq<Save>)
    requires m <= |gs| && Uniform(gs[..m], n, d)
    ensures forall j :: 0 <= j < |r| ==>
      r[j].SamplesSaved? && r[j].step == step && 0 < r[j].batchSize <= m && r[j].batchSize in sizes
    decreases m
  {
    if m == 0 then []
    else
      assert Uniform(gs[..m - 1], n, d) by {
        assert forall k :: 0 <= k < m - 1 ==> gs[..m - 1][k] == gs[..m][k];
      }
      SampleSaves(sizes, step, gs, n, d, m - 1)
      + (if m in sizes then [SamplesSaved(step, m, SamplesMean(gs[..m], n, d))] else [])
  }

  /**
   * The outcome of a complete GGN pass over the batch GGNs gs: whether it ran to the
   * end, and the saves it made. A batch whose item count differs from the first one's
   * stops the pass before anything of that batch is saved.
   */
  function PassOutcome(sizes: seq<int>, step: int, gs: seq<Tensor3>, d: nat): (r: (bool, seq<Save>))
    requires forall k :: 0 <= k < |gs| ==> GgnShaped(gs[k], d)
    ensures r.0 <==> forall j :: 0 <= j < |gs| ==> |gs[j]| == |gs[0]|
    ensures r.0 ==> |r.1| > 0 && r.1[|r.1| - 1].TotalSaved? && r.1[|r.1| - 1].step == step
    ensures forall j :: 0 <= j < |r.1| - (if r.0 then 1 else 0) ==> r.1[j].SamplesSaved? && r.1[j].step == step
  {
    if |gs| == 0 then (true, [TotalSaved(step, None)])
    else
      var n := |gs[0]|;
      var k := MatchingPrefix(gs, n);
      assert Uniform(gs[..k], n, d) by {
        forall j | 0 <= j < k ensures IsCube(gs[..k][j], n, d, d) {
          assert gs[..k][j] == gs[j] && GgnShaped(gs[j], d);
        }
      }
      if k < |gs| then (false, SampleSaves(sizes, step, gs, n, d, k))
      else
        ItemsShape(gs, d);
        ItemsCover(gs);
        assert GgnShaped(gs[0], d);
        assert gs[..k] == gs;
        (true, SampleSaves(sizes, step, gs, n, d, k) + [TotalSaved(step, Some(MatMean(Items(gs), d)))])
  }

  lemma PassStops(sizes: seq<int>, step: int, gs: seq<Tensor3>, d: nat, k: nat)
    requires forall j :: 0 <= j < |gs| ==> GgnShaped(gs[j], d)
    requires 0 < k < |gs| && Uniform(gs[..k], |gs[0]|, d) && |gs[k]| != |gs[0]|
    ensures PassOutcome(sizes, step, gs, d) == (false, SampleSaves(sizes, step, gs, |gs[0]|, d, k))
  {
    assert forall j :: 0 <= j < k ==> gs[..k][j] == gs[j];
    assert MatchingPrefix(gs, |gs[0]|) == k;
  }

  lemma PassCompletes(sizes: seq<int>, step: int, gs: seq<Tensor3>, d: nat)
    requires forall j :: 0 <= j < |gs| ==> GgnShaped(gs[j], d)
    requires 0 < |gs| && Uniform(gs, |gs[0]|, d)
    ensures |Items(gs)| > 0 && AllSquare(Items(gs), d)
    ensures PassOutcome(sizes, step, gs, d)
         == (true, SampleSaves(sizes, step, gs, |gs[0]|, d, |gs|) + [TotalSaved(step, Some(MatMean(Items(gs), d)))])
  {
    ItemsShape(gs, d);
    ItemsCover(gs);
    assert MatchingPrefix(gs, |gs[0]|) == |gs|;
    assert gs[..|gs|] == gs;
  }

  /**
   * One GGN pass (src/train_utils.py:254-289): GGN_samples and GGN_total start as None,
   * every batch is folded into both running means, the samples are saved whenever the
   * number of batches seen is in sizes, and the total is saved at the end.
   */
  method GgnPass(sizes: seq<int>, step: int, gs: seq<Tensor3>, d: nat) returns (ok: bool, log: seq<Save>)
    requires forall k :: 0 <= k < |gs| ==> GgnShaped(gs[k], d)
    ensures (ok, log) == PassOutcome(sizes, step, gs, d)
  {
    ghost var n := if |gs| > 0 then |gs[0]| else 0;
    var counter: nat := 0;
    var total: Option<Mat> := None;
    var samples: Option<Tensor3> := None;
    log := [];
    var k := 0;
    while k < |gs|
      invariant 0 <= k <= |gs|
      invariant Uniform(gs[..k], n, d)
      invariant k == 0 <==> samples.None?
      invariant k == 0 <==> total.None?
      invariant k > 0 ==> samples == Some(SamplesMean(gs[..k], n, d))
      invariant counter == |Items(gs[..k])|
      invariant k > 0 ==> AllSquare(Items(gs[..k]), d) && counter > 0
      invariant k > 0 ==> total == Some(MatMean(Items(gs[..k]), d))
      invariant log == SampleSaves(sizes, step, gs, n, d, k)
    {
      var g := gs[k];
      var m := k + 1;
      assert gs[..m] == gs[..k] + [g];
      assert Items(gs[..m]) == Items(gs[..k]) + g;
      if samples.None? {
        assert gs[..m] == [g];
        SamplesFirst(g, n, d);
        samples := Some(g);
      } else {
        if |g| != |samples.value| {
          PassStops(sizes, step, gs, d, k);
          ok := false;
          assert n == |gs[0]|;
          assert (ok, log) == PassOutcome(sizes, step, gs, d);
          return;
        }
        SamplesStep(gs[..k], g, n, d);
        samples := Some(SamplesUpdate(samples.value, g, m, |g|, d));
      }
      assert Uniform(gs[..m], n, d);
      if m in sizes {
        log := log + [SamplesSaved(step, m, samples.value)];
      }
      counter := counter + |g|;
      if total.None? {
        assert Items(gs[..m]) == g;
        total := Some(MatMean(g, d));
      } else {
        TotalStep(Items(gs[..k]), g, d);
        total := Some(TotalUpdate(total.value, g, counter, d));
      }
      k := k + 1;
    }
    assert gs[..k] == gs;
    ghost var saves := log;
    log := log + [TotalSaved(step, total)];
    ok := true;
    if |gs| > 0 {
      PassCompletes(sizes, step, gs, d);
      assert saves == SampleSaves(sizes, step, gs, |gs[0]|, d, |gs|);
      assert total == Some(MatMean(Items(gs), d));
      assert log == saves + [TotalSaved(step, Some(MatMean(Items(gs), d)))];
      assert PassOutcome(sizes, step, gs, d).1 == log;
      assert PassOutcome(sizes, step, gs, d).0 == ok;
    } else {
      assert saves == [] && total == None;
      assert PassOutcome(sizes, step, gs, d).1 == log;
      assert PassOutcome(sizes, step, gs, d).0 == ok;
    }
  }

  /** e is a samples checkpoint holding the exact samples mean after its batch count. */
  predicate HoldsSamplesMean(e: Save, gs: seq<Tensor3>, n: nat, d: nat) {
    e.SamplesSaved? && 0 < e.batchSize <= |gs| && Uniform(gs[..e.batchSize], n, d)
    && e.samples == SamplesMean(gs[..e.batchSize], n, d)
  }

  /**
   * r is the checkpoint log of m batches: keyed by the step, at exactly the batch
   * counts 1..m listed in sizes, in increasing order, each holding the exact running mean.
   */
  predicate IsCheckpointLog(r: seq<Save>, sizes: seq<int>, step: int, gs: seq<Tensor3>, n: nat, d: nat, m: nat) {
    (forall j :: 0 <= j < |r| ==>
       HoldsSamplesMean(r[j], gs, n, d) && r[j].step == step && r[j].batchSize <= m && r[j].batchSize in sizes)
    && (forall j, j' :: 0 <= j < j' < |r| ==> r[j].batchSize < r[j'].batchSize)
    && (forall b :: 1 <= b <= m && b in sizes ==> exists j :: 0 <= j < |r| && r[j].batchSize == b)
  }

  /** The samples checkpoints SampleSaves builds form the checkpoint log. */
  lemma {:induction false} SampleSavesSpec(sizes: seq<int>, step: int, gs: seq<Tensor3>, n: nat, d: nat, m: nat)
    requires m <= |gs| && Uniform(gs[..m], n, d)
    ensures IsCheckpointLog(SampleSaves(sizes, step, gs, n, d, m), sizes, step, gs, n, d, m)
    decreases m
  {
    if m > 0 {
      assert forall k :: 0 <= k < m - 1 ==> gs[..m - 1][k] == gs[..m][k];
      SampleSavesSpec(sizes, step, gs, n, d, m - 1);
      CheckpointExtend(SampleSaves(sizes, step, gs, n, d, m - 1), sizes, step, gs, n, d, m);
    }
  }

  /** Appending the checkpoint after m batches, when m is listed, extends the log of m - 1 batches to m. */
  lemma CheckpointExtend(r': seq<Save>, sizes: seq<int>, step: int, gs: seq<Tensor3>, n: nat, d: nat, m: nat)
    requires 0 < m <= |gs| && Uniform(gs[..m], n, d)
    requires IsCheckpointLog(r', sizes, step, gs, n, d, m - 1)
    ensures IsCheckpointLog(r' + (if m in sizes then [SamplesSaved(step, m, SamplesMean(gs[..m], n, d))] else []),
                            sizes, step, gs, n, d, m)
  {
    var tail := if m in sizes then [SamplesSaved(step, m, SamplesMean(gs[..m], n, d))] else [];
    var r := r' + tail;
    forall j | 0 <= j < |r|
      ensures HoldsSamplesMean(r[j], gs, n, d) && r[j].step == step && r[j].batchSize <= m && r[j].batchSize in sizes
    {
      if j < |r'| { assert r[j] == r'[j] && HoldsSamplesMean(r'[j], gs, n, d); } else { assert m in sizes && r[j] == tail[0]; }
    }
    forall b | 1 <= b <= m && b in sizes ensures exists j :: 0 <= j < |r| && r[j].batchSize == b {
      if b == m {
        assert r[|r'|].batchSize == m;
      } else {
        var j :| 0 <= j < |r'| && r'[j].batchSize == b;
        assert r[j] == r'[j];
      }
    }
  }

  /**
   * The total of a complete pass is saved once, last, keyed by the step alone, and holds
   * the exact mean of every per-item GGN of the pass (None for an empty GGN dataset);
   * every save before it is a samples checkpoint. A pass runs to the end exactly when
   * every batch has the first batch's item count; a failed pass saves no total.
   */
  lemma PassSavesTotalOnce(sizes: seq<int>, step: int, gs: seq<Tensor3>, d: nat)
    requires forall j :: 0 <= j < |gs| ==> GgnShaped(gs[j], d)
    ensures var (ok, log) := PassOutcome(sizes, step, gs, d);
      (ok <==> forall j :: 0 <= j < |gs| ==> |gs[j]| == |gs[0]|)
      && (ok ==> (|log| > 0 && log[|log| - 1].TotalSaved? && log[|log| - 1].step == step
                  && (|gs| == 0 ==> log[|log| - 1].total == None)
                  && (|gs| > 0 ==> |Items(gs)| > 0 && AllSquare(Items(gs), d)
                                   && log[|log| - 1].total == Some(MatMean(Items(gs), d)))))
      && (forall j :: 0 <= j < |log| - (if ok then 1 else 0) ==> log[j].SamplesSaved?)
  {
    if |gs| > 0 {
      var n := |gs[0]|;
      var k := MatchingPrefix(gs, n);
      assert Uniform(gs[..k], n, d) by {
        forall j | 0 <= j < k ensures IsCube(gs[..k][j], n, d, d) {
          assert gs[..k][j] == gs[j] && GgnShaped(gs[j], d);
        }
      }
      SampleSavesSpec(sizes, step, gs, n, d, k);
      var saves := SampleSaves(sizes, step, gs, n, d, k);
      if k == |gs| {
        PassCompletes(sizes, step, gs, d);
        var log := PassOutcome(sizes, step, gs, d).1;
        assert forall j :: 0 <= j < |saves| ==> log[j] == saves[j];
      } else {
        PassStops(sizes, step, gs, d, k);
      }
    }
  }

  /**
   * Checkpoints {1, 3} over five GGN batches: the samples are saved exactly twice, after
   * the first batch (the batch itself) and after the third (the mean of three).
   */
  lemma CheckpointExample(step: int, gs: seq<Tensor3>, n: nat, d: nat)
    requires |gs| == 5 && Uniform(gs, n, d)
    ensures Uniform(gs[..3], n, d)
    ensures SampleSaves([1, 3], step, gs, n, d, 5)
         == [SamplesSaved(step, 1, gs[0]), SamplesSaved(step, 3, SamplesMean(gs[..3], n, d))]
  {
    assert gs[..5] == gs;
    assert forall m, k :: 0 <= k < m <= 5 ==> gs[..m][k] == gs[k];
    assert gs[..1] == [gs[0]];
    SamplesFirst(gs[0], n, d);
    var s := [1, 3];
    assert 1 in s && 3 in s && 2 !in s && 4 !in s && 5 !in s;
    assert SampleSaves(s, step, gs, n, d, 1) == [SamplesSaved(step, 1, gs[0])];
    assert SampleSaves(s, step, gs, n, d, 2) == SampleSaves(s, step, gs, n, d, 1);
    assert SampleSaves(s, step, gs, n, d, 3)
        == SampleSaves(s, step, gs, n, d, 2) + [SamplesSaved(step, 3, SamplesMean(gs[..3], n, d))];
    assert SampleSaves(s, step, gs, n, d, 4) == SampleSaves(s, step, gs, n, d, 3);
    assert SampleSaves(s, step, gs, n, d, 5) == SampleSaves(s, step, gs, n, d, 4);
  }
}
