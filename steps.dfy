/**
 * The per-batch step functions train_step and test_step (src/train_utils.py:15-124).
 * The model forward pass, the softmax cross-entropy and the optimizer update are opaque
 * functions of a Model value; what is modelled is how a step combines them.
 */
module Steps {
  import opened Reductions

  /** A batch from a data loader: inputs x and integer labels y, one per item. */
  datatype Batch<X> = Batch(inputs: seq<X>, labels: seq<int>)

  /** A loader batch: at least one item, one label per input. */
  predicate BatchOk<X>(b: Batch<X>) {
    |b.inputs| > 0 && |b.inputs| == |b.labels|
  }

  /** One row of model output: at least one class, so argmax is defined. */
  type Row = r: seq<real> | |r| > 0 witness [0.0]

  /**
   * The collaborators of a step: the forward pass (one logits row per input item),
   * the per-item loss of a logits row against a label, and the parameter update that
   * state.apply_gradients performs with the gradient of the mean loss on a batch.
   */
  datatype Model<!St, !X> = Model(
    logits: (St, X) -> Row,
    loss: (seq<real>, int) -> real,
    update: (St, Batch<X>) -> St)

  /** The model output [N, C] on a batch. */
  function Logits<St, X>(m: Model<St, X>, s: St, b: Batch<X>): (r: seq<seq<real>>)
    ensures |r| == |b.inputs| && RowsNonEmpty(r)
  {
    var r := seq(|b.inputs|, i requires 0 <= i < |b.inputs| => m.logits(s, b.inputs[i]));
    assert RowsNonEmpty(r) by {
      forall i | 0 <= i < |r| ensures |r[i]| > 0 {
        var row: Row := m.logits(s, b.inputs[i]);
      }
    }
    r
  }

  /** The un-reduced per-item losses [N]. */
  function Losses<St, X>(m: Model<St, X>, s: St, b: Batch<X>): (r: seq<real>)
    requires BatchOk(b)
    ensures |r| == |b.inputs|
  {
    var z := Logits(m, s, b);
    seq(|b.inputs|, i requires 0 <= i < |b.inputs| => m.loss(z[i], b.labels[i]))
  }

  datatype TrainOut<St> = TrainOut(state: St, losses: seq<real>, nCorrect: nat)

  /** train_step: the updated state, the per-item losses and the number of correct predictions. */
  function TrainStep<St, X>(m: Model<St, X>, s: St, b: Batch<X>): (r: TrainOut<St>)
    requires BatchOk(b)
    ensures |r.losses| == |b.inputs| && r.nCorrect <= |b.inputs|
  {
    TrainOut(m.update(s, b), Losses(m, s, b), NCorrect(Logits(m, s, b), b.labels))
  }

  datatype TestOut = TestOut(losses: seq<real>, nCorrect: nat)

  /** test_step: the same losses and count at the given state, with no update. */
  function TestStep<St, X>(m: Model<St, X>, s: St, b: Batch<X>): (r: TestOut)
    requires BatchOk(b)
    ensures |r.losses| == |b.inputs| && r.nCorrect <= |b.inputs|
  {
    TestOut(Losses(m, s, b), NCorrect(Logits(m, s, b), b.labels))
  }

  /**
   * A training step reports what a test step at the same state reports, and its
   * correct count is the number of items whose first maximal logit is the label.
   */
  lemma TrainStepMatchesTestStep<St, X>(m: Model<St, X>, s: St, b: Batch<X>)
    requires BatchOk(b)
    ensures TrainStep(m, s, b).losses == TestStep(m, s, b).losses
    ensures TrainStep(m, s, b).nCorrect == TestStep(m, s, b).nCorrect
                                        == |Hits(Logits(m, s, b), b.labels)|
  {
    NCorrectIsHits(Logits(m, s, b), b.labels);
  }
}
