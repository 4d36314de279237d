/**
 * The epoch loops train_epoch and test_epoch (src/train_utils.py:205-358).  A
 * training epoch is a state machine over the training batches: before the training
 * step of a batch, a GGN pass over the GGN loader runs when fewer than
 * n_ggn_iterations passes have run and the global step count is a multiple of ggn_freq.
 */
module Epoch {
  import opened Wrappers
  import opened Tensors
  import opened Reductions
  import opened Steps
  import opened Aggregation

  /** The GGN arguments of train_epoch. */
  datatype Config = Config(ggnBatchSizes: seq<int>, ggnFreq: int, nGgnIterations: int)

  /** The ways an epoch ends in an exception instead of returning. */
  datatype Failure =
    | ZeroFrequency   // n_steps % ggn_freq with ggn_freq == 0
    | ShapeMismatch   // a GGN batch whose item count differs from the first one's
    | EmptyEpoch      // jnp.concatenate of an empty list of losses
    | EmptyDataset    // len(dataset) == 0: the accuracy has no real value

  /**
   * What an epoch runs against: the model, compute_ggn as a function of the state and
   * a GGN batch, the parameter dimension D, the GGN loader and the GGN arguments.
   */
  datatype Env<!St, !X> = Env(
    model: Model<St, X>,
    ggn: (St, Batch<X>) -> Tensor3,
    d: nat,
    ggnLoader: seq<Batch<X>>,
    cfg: Config)

  /** compute_ggn returns at least one D x D matrix for every GGN batch at every state. */
  ghost predicate GgnContract<St(!new), X>(env: Env<St, X>) {
    forall s: St, k :: 0 <= k < |env.ggnLoader| ==> GgnShaped(env.ggn(s, env.ggnLoader[k]), env.d)
  }

  /** Every batch of a loader holds at least one item and one label per input. */
  predicate AllOk<X>(bs: seq<Batch<X>>) {
    forall k :: 0 <= k < |bs| ==> BatchOk(bs[k])
  }

  /** The number of items over all batches of a loader. */
  function BatchItems<X>(bs: seq<Batch<X>>): nat {
    if |bs| == 0 then 0 else BatchItems(bs[..|bs| - 1]) + |bs[|bs| - 1].inputs|
  }

  /** The GGNs of one pass: compute_ggn at the given state on every GGN batch. */
  function Ggns<St, X>(env: Env<St, X>, s: St): (r: seq<Tensor3>)
    ensures |r| == |env.ggnLoader|
  {
    seq(|env.ggnLoader|, k requires 0 <= k < |env.ggnLoader| => env.ggn(s, env.ggnLoader[k]))
  }

  /** Under the contract, every GGN of a pass is shaped as compute_ggn returns it. */
  lemma GgnsShaped<St(!new), X>(env: Env<St, X>, s: St)
    requires GgnContract(env)
    ensures forall k :: 0 <= k < |Ggns(env, s)| ==> GgnShaped(Ggns(env, s)[k], env.d)
  {
  }

  /**
   * The driver state: the training state, n_steps, GGN_iter_counter, the saves so far,
   * loss_epoch, n_correct_epoch, and the exception that ended the epoch, if any.
   */
  datatype Progress<St> = Progress(
    state: St,
    nSteps: int,
    passes: nat,
    log: seq<Save>,
    losses: seq<seq<real>>,
    correct: nat,
    failure: Option<Failure>)

  /** The driver state at the start of an epoch. */
  function Start<St>(s: St, nSteps: int): (r: Progress<St>)
    ensures r.state == s && r.nSteps == nSteps && r.failure.None?
    ensures r.passes == 0 && r.log == [] && r.losses == [] && r.correct == 0
  {
    Progress(s, nSteps, 0, [], [], 0, None)
  }

  /** The trigger rule: a GGN pass runs before this batch's training step. */
  predicate Fires(cfg: Config, passes: nat, nSteps: int)
    requires passes < cfg.nGgnIterations ==> cfg.ggnFreq != 0
    ensures Fires(cfg, passes, nSteps) <==>
      passes < cfg.nGgnIterations && cfg.ggnFreq != 0 && Multiples(nSteps, 1, cfg.ggnFreq) == [nSteps]
  {
    assert cfg.ggnFreq != 0 ==> Multiples(nSteps, 0, cfg.ggnFreq) == [];
    passes < cfg.nGgnIterations && nSteps % cfg.ggnFreq == 0
  }

  /** The training step of a batch and the bookkeeping after it. */
  function Train<St, X>(env: Env<St, X>, p: Progress<St>, b: Batch<X>): (r: Progress<St>)
    requires BatchOk(b)
    ensures r.nSteps == p.nSteps + 1 && r.passes == p.passes && r.log == p.log
    ensures r.state == env.model.update(p.state, b) && r.failure == p.failure
    ensures r.losses == p.losses + [Losses(env.model, p.state, b)]
    ensures r.correct == p.correct + |Hits(Logits(env.model, p.state, b), b.labels)| <= p.correct + |b.inputs|
  {
    var o := TrainStep(env.model, p.state, b);
    TrainStepMatchesTestStep(env.model, p.state, b);
    p.(state := o.state, nSteps := p.nSteps + 1, losses := p.losses + [o.losses],
       correct := p.correct + o.nCorrect)
  }

  /** After a pass: train when it ran to the end, else end the epoch with the saves it made. */
  function AfterPass<St, X>(env: Env<St, X>, p: Progress<St>, b: Batch<X>, pass: (bool, seq<Save>)): (r: Progress<St>)
    requires BatchOk(b)
  {
    if pass.0 then Train(env, p.(log := p.log + pass.1, passes := p.passes + 1), b)
    else p.(log := p.log + pass.1, failure := Some(ShapeMismatch))
  }

  /**
   * One iteration of the loop over training batches.  An ended epoch stays ended.  A
   * pass uses the state from before the training step of the batch.
   */
  function Step<St(!new), X>(env: Env<St, X>, p: Progress<St>, b: Batch<X>): (r: Progress<St>)
    requires GgnContract(env) && BatchOk(b)
    ensures p.failure.Some? ==> r == p
  {
    var cfg := env.cfg;
    if p.failure.Some? then p
    else if p.passes < cfg.nGgnIterations && cfg.ggnFreq == 0 then p.(failure := Some(ZeroFrequency))
    else if Fires(cfg, p.passes, p.nSteps) then
      GgnsShaped(env, p.state);
      AfterPass(env, p, b, PassOutcome(cfg.ggnBatchSizes, p.nSteps, Ggns(env, p.state), env.d))
    else Train(env, p, b)
  }

  /** The loop over a sequence of training batches. */
  function Run<St(!new), X>(env: Env<St, X>, p: Progress<St>, bs: seq<Batch<X>>): (r: Progress<St>)
    requires GgnContract(env) && AllOk(bs)
    ensures p.failure.Some? ==> r == p
    ensures r.failure.None? ==> r.nSteps == p.nSteps + |bs| && |r.losses| == |p.losses| + |bs|
    ensures r.failure.None? ==> r.correct <= p.correct + BatchItems(bs)
    decreases |bs|
  {
    if |bs| == 0 then p
    else
      var k := |bs| - 1;
      var front := bs[..k];
      assert AllOk(front) && BatchOk(bs[k]);
      Step(env, Run(env, p, front), bs[k])
  }

  /** What train_epoch returns: state, loss, accuracy, n_steps and the remaining GGN iterations. */
  datatype EpochResult<St> = EpochResult(state: St, loss: real, accuracy: real, nSteps: int, remaining: int)

  /**
   * The end of train_epoch from the final driver state: the exception that ended the
   * loop, else jnp.concatenate of the losses (which raises on an empty list), else the
   * epoch loss and the accuracy over the dataset size, which must be positive for a real accuracy.
   */
  function Finish<St>(cfg: Config, p: Progress<St>, datasetSize: nat): (r: (Result<EpochResult<St>, Failure>, seq<Save>))
    requires p.failure.None? && |p.losses| > 0 ==> |Concat(p.losses)| > 0
    ensures r.1 == p.log
    ensures r.0.Ok? <==> p.failure.None? && |p.losses| > 0 && datasetSize > 0
    ensures r.0.Err? ==> r.0.error == (if p.failure.Some? then p.failure.value
                                       else if |p.losses| == 0 then EmptyEpoch else EmptyDataset)
    ensures r.0.Ok? ==> r.0.value.nSteps == p.nSteps && r.0.value.remaining == cfg.nGgnIterations - p.passes
    ensures r.0.Ok? && p.correct <= datasetSize ==> 0.0 <= r.0.value.accuracy <= 1.0
  {
    if p.failure.Some? then (Err(p.failure.value), p.log)
    else if |p.losses| == 0 then (Err(EmptyEpoch), p.log)
    else if datasetSize == 0 then (Err(EmptyDataset), p.log)
    else
      (Ok(EpochResult(p.state, EpochLoss(p.losses), Accuracy(p.correct, datasetSize), p.nSteps,
                      cfg.nGgnIterations - p.passes)), p.log)
  }

  /** A loop over at least one batch that ran to the end collected at least one loss. */
  lemma LossesNonEmpty<St(!new), X>(env: Env<St, X>, s: St, nSteps: int, train: seq<Batch<X>>)
    requires GgnContract(env) && AllOk(train)
    ensures var p := Run(env, Start(s, nSteps), train);
      p.failure.None? && |p.losses| > 0 ==> |Concat(p.losses)| > 0
  {
    var p := Run(env, Start(s, nSteps), train);
    if p.failure.None? && |p.losses| > 0 {
      RunLosses(env, Start(s, nSteps), train);
      ConcatSpec(p.losses);
    }
  }

  /** The outcome of train_epoch and the saves it made, whether or not it raised. */
  function EpochOutcome<St(!new), X>(env: Env<St, X>, s: St, nSteps: int, train: seq<Batch<X>>, datasetSize: nat)
    : (r: (Result<EpochResult<St>, Failure>, seq<Save>))
    requires GgnContract(env) && AllOk(train)
    ensures r.1 == Run(env, Start(s, nSteps), train).log
    ensures r.0.Ok? <==> Run(env, Start(s, nSteps), train).failure.None? && |train| > 0 && datasetSize > 0
    ensures r.0.Ok? ==> r.0.value.nSteps == nSteps + |train|
    ensures r.0.Ok? && datasetSize >= BatchItems(train) ==> 0.0 <= r.0.value.accuracy <= 1.0
  {
    LossesNonEmpty(env, s, nSteps, train);
    Finish(env.cfg, Run(env, Start(s, nSteps), train), datasetSize)
  }

  /**
   * The epoch loss train_epoch returns is the mean over every per-item loss of the
   * epoch: their total over their number, the number of items over all batches.
   */
  lemma TrainLossIsItemMean<St(!new), X>(env: Env<St, X>, s: St, nSteps: int, train: seq<Batch<X>>, datasetSize: nat)
    requires GgnContract(env) && AllOk(train)
    requires EpochOutcome(env, s, nSteps, train, datasetSize).0.Ok?
    ensures BatchItems(train) > 0
    ensures EpochOutcome(env, s, nSteps, train, datasetSize).0.value.loss
         == Sum(StepSums(Run(env, Start(s, nSteps), train).losses)) / (BatchItems(train) as real)
  {
    var p := Run(env, Start(s, nSteps), train);
    RunLosses(env, Start(s, nSteps), train);
    LossesNonEmpty(env, s, nSteps, train);
    EpochLossIsItemMean(p.losses);
  }

  /** Without a failure, the loop appends one loss vector per batch, holding one loss per item. */
  lemma {:induction false} RunLosses<St(!new), X>(env: Env<St, X>, p: Progress<St>, bs: seq<Batch<X>>)
    requires GgnContract(env) && AllOk(bs) && p.failure.None?
    requires Run(env, p, bs).failure.None?
    ensures ItemCount(Run(env, p, bs).losses) == ItemCount(p.losses) + BatchItems(bs)
    ensures |bs| > 0 ==> ItemCount(Run(env, p, bs).losses) > 0
    decreases |bs|
  {
    if |bs| > 0 {
      var k := |bs| - 1;
      var front := bs[..k];
      assert AllOk(front) && BatchOk(bs[k]);
      var q := Run(env, p, front);
      RunLosses(env, p, front);
      StepLosses(env, q, bs[k]);
      ItemCountSnoc(q.losses, Losses(env.model, q.state, bs[k]));
    }
  }

  /** An iteration that does not raise appends the losses of its batch at the state before it. */
  lemma StepLosses<St(!new), X>(env: Env<St, X>, q: Progress<St>, b: Batch<X>)
    requires GgnContract(env) && BatchOk(b) && q.failure.None? && Step(env, q, b).failure.None?
    ensures Step(env, q, b).losses == q.losses + [Losses(env.model, q.state, b)]
  {
  }

  /** Running over a + b is running over a, then over b. */
  lemma {:induction false} RunConcat<St(!new), X>(env: Env<St, X>, p: Progress<St>, a: seq<Batch<X>>, b: seq<Batch<X>>)
    requires GgnContract(env) && AllOk(a) && AllOk(b)
    ensures AllOk(a + b)
    ensures Run(env, p, a + b) == Run(env, Run(env, p, a), b)
    decreases |b|
  {
    assert AllOk(a + b) by {
      forall k | 0 <= k < |a + b| ensures BatchOk((a + b)[k]) {
        if k < |a| { assert BatchOk(a[k]); } else { assert BatchOk(b[k - |a|]); }
      }
    }
    if |b| == 0 {
      assert a + b == a;
    } else {
      var k := |b| - 1;
      assert AllOk(b[..k]);
      RunConcat(env, p, a, b[..k]);
      assert (a + b)[..|a + b| - 1] == a + b[..k];
    }
  }

  /** Once an iteration raises, the rest of the loop does not run. */
  lemma RunStops<St(!new), X>(env: Env<St, X>, p: Progress<St>, bs: seq<Batch<X>>, i: nat)
    requires GgnContract(env) && AllOk(bs) && i < |bs|
    ensures AllOk(bs[..i + 1])
    ensures Run(env, p, bs[..i + 1]).failure.Some? ==> Run(env, p, bs) == Run(env, p, bs[..i + 1])
  {
    var a, b := bs[..i + 1], bs[i + 1..];
    assert AllOk(a) && AllOk(b);
    assert a + b == bs;
    RunConcat(env, p, a, b);
  }

  /** The loop over one more batch is one more iteration. */
  lemma RunNext<St(!new), X>(env: Env<St, X>, p0: Progress<St>, train: seq<Batch<X>>, i: nat)
    requires GgnContract(env) && AllOk(train) && i < |train|
    ensures AllOk(train[..i]) && AllOk(train[..i + 1])
    ensures Run(env, p0, train[..i + 1]) == Step(env, Run(env, p0, train[..i]), train[i])
  {
    assert train[..i + 1][..i] == train[..i];
  }

  /** An iteration with ggn_freq == 0 while passes remain raises. */
  lemma StepZero<St(!new), X>(env: Env<St, X>, p: Progress<St>, b: Batch<X>)
    requires GgnContract(env) && BatchOk(b) && p.failure.None?
    requires p.passes < env.cfg.nGgnIterations && env.cfg.ggnFreq == 0
    ensures Step(env, p, b) == p.(failure := Some(ZeroFrequency))
  {
  }

  /** An iteration that fires runs a pass first, then trains unless the pass raised. */
  lemma StepPass<St(!new), X>(env: Env<St, X>, p: Progress<St>, b: Batch<X>, ok: bool, saves: seq<Save>)
    requires GgnContract(env) && BatchOk(b) && p.failure.None?
    requires p.passes < env.cfg.nGgnIterations && env.cfg.ggnFreq != 0 && p.nSteps % env.cfg.ggnFreq == 0
    requires (ok, saves) == PassOutcome(env.cfg.ggnBatchSizes, p.nSteps, Ggns(env, p.state), env.d)
    ensures !ok ==> Step(env, p, b) == p.(log := p.log + saves, failure := Some(ShapeMismatch))
    ensures ok ==> Step(env, p, b) == Train(env, p.(log := p.log + saves, passes := p.passes + 1), b)
  {
  }

  /** An iteration that does not fire only trains. */
  lemma StepSkip<St(!new), X>(env: Env<St, X>, p: Progress<St>, b: Batch<X>)
    requires GgnContract(env) && BatchOk(b) && p.failure.None?
    requires !(p.passes < env.cfg.nGgnIterations && (env.cfg.ggnFreq == 0 || p.nSteps % env.cfg.ggnFreq == 0))
    ensures Step(env, p, b) == Train(env, p, b)
  {
  }

  /**
   * One iteration of the loop of train_epoch (src/train_utils.py:251-303): the trigger
   * test, the GGN pass when it fires, then train_step and the bookkeeping after it.
   */
  method TrainIteration<St(!new), X>(env: Env<St, X>, p: Progress<St>, batch: Batch<X>)
    returns (r: Progress<St>)
    requires GgnContract(env) && BatchOk(batch) && p.failure.None?
    ensures r == Step(env, p, batch)
  {
    var cfg := env.cfg;
    if p.passes < cfg.nGgnIterations && cfg.ggnFreq == 0 {
      StepZero(env, p, batch);
      return p.(failure := Some(ZeroFrequency));
    }
    var ggnIterCounter, log := p.passes, p.log;
    if ggnIterCounter < cfg.nGgnIterations && p.nSteps % cfg.ggnFreq == 0 {
      GgnsShaped(env, p.state);
      var ok, saves := GgnPass(cfg.ggnBatchSizes, p.nSteps, Ggns(env, p.state), env.d);
      StepPass(env, p, batch, ok, saves);
      log := log + saves;
      if !ok {
        return p.(log := log, failure := Some(ShapeMismatch));
      }
      ggnIterCounter := ggnIterCounter + 1;
    } else {
      StepSkip(env, p, batch);
    }
    var out := TrainStep(env.model, p.state, batch);
    r := Progress(out.state, p.nSteps + 1, ggnIterCounter, log, p.losses + [out.losses],
                  p.correct + out.nCorrect, None);
  }

  /**
   * The loop of train_epoch over the training batches (src/train_utils.py:250-303), with
   * the GGN passes interleaved.  Stops at the first exception, which it reports.
   */
  method TrainLoop<St(!new), X>(env: Env<St, X>, state0: St, nSteps0: int, train: seq<Batch<X>>)
    returns (p: Progress<St>)
    requires GgnContract(env) && AllOk(train)
    ensures p == Run(env, Start(state0, nSteps0), train)
  {
    var p0 := Start(state0, nSteps0);
    p := p0;
    var i := 0;
    while i < |train|
      invariant 0 <= i <= |train|
      invariant AllOk(train[..i])
      invariant p == Run(env, p0, train[..i]) && p.failure.None?
    {
      RunNext(env, p0, train, i);
      p := TrainIteration(env, p, train[i]);
      if p.failure.Some? {
        RunStops(env, p0, train, i);
        return;
      }
      i := i + 1;
    }
    assert train[..|train|] == train;
  }

  /**
   * train_epoch (src/train_utils.py:205-309): the loop, then the epoch loss over the
   * concatenated per-item losses and the accuracy over the dataset size.  Returns the
   * outcome and every save made, also when the epoch raises.
   */
  method TrainEpoch<St(!new), X>(env: Env<St, X>, state0: St, nSteps0: int, train: seq<Batch<X>>, datasetSize: nat)
    returns (res: Result<EpochResult<St>, Failure>, log: seq<Save>)
    requires GgnContract(env) && AllOk(train)
    ensures (res, log) == EpochOutcome(env, state0, nSteps0, train, datasetSize)
  {
    var p := TrainLoop(env, state0, nSteps0, train);
    LossesNonEmpty(env, state0, nSteps0, train);
    res, log := EpochEnd(env.cfg, p, datasetSize);
  }

  /**
   * The end of train_epoch (src/train_utils.py:305-309): the exception that ended the
   * loop, or the epoch loss and accuracy and the values returned with them.
   */
  method EpochEnd<St>(cfg: Config, p: Progress<St>, datasetSize: nat)
    returns (res: Result<EpochResult<St>, Failure>, log: seq<Save>)
    requires p.failure.None? && |p.losses| > 0 ==> |Concat(p.losses)| > 0
    ensures (res, log) == Finish(cfg, p, datasetSize)
  {
    log := p.log;
    if p.failure.Some? {
      return Err(p.failure.value), log;
    }
    if |p.losses| == 0 {
      return Err(EmptyEpoch), log;
    }
    if datasetSize == 0 {
      return Err(EmptyDataset), log;
    }
    var loss := EpochLoss(p.losses);
    var accuracy := Accuracy(p.correct, datasetSize);
    res := Ok(EpochResult(p.state, loss, accuracy, p.nSteps, cfg.nGgnIterations - p.passes));
  }

  /** The steps in start .. start + count - 1 that are multiples of f, in increasing order. */
  function Multiples(start: int, count: nat, f: int): (r: seq<int>)
    requires f != 0
    ensures |r| <= count
    ensures forall j :: 0 <= j < |r| ==> r[j] % f == 0 && start <= r[j] < start + count
    ensures forall j, k :: 0 <= j < k < |r| ==> r[j] < r[k]
    ensures forall t :: start <= t < start + count && t % f == 0 ==> t in r
  {
    if count == 0 then []
    else
      var t := start + count - 1;
      Multiples(start, count - 1, f) + (if t % f == 0 then [t] else [])
  }

  /** The number of passes a limit allows when m triggers occur: min(max(limit, 0), m). */
  function Allowed(limit: int, m: nat): nat {
    if limit <= 0 then 0 else if limit < m then limit else m
  }

  /** The steps at which the total GGN was saved, in log order: one per completed pass. */
  function PassSteps(log: seq<Save>): seq<int> {
    if |log| == 0 then []
    else
      var front := PassSteps(log[..|log| - 1]);
      if log[|log| - 1].TotalSaved? then front + [log[|log| - 1].step] else front
  }

  lemma {:induction false} PassStepsConcat(a: seq<Save>, b: seq<Save>)
    ensures PassSteps(a + b) == PassSteps(a) + PassSteps(b)
    decreases |b|
  {
    if |b| == 0 {
      assert a + b == a;
    } else {
      var k := |b| - 1;
      assert (a + b)[..|a + b| - 1] == a + b[..k];
      PassStepsConcat(a, b[..k]);
    }
  }

  lemma {:induction false} PassStepsOfSamples(log: seq<Save>)
    requires forall j :: 0 <= j < |log| ==> log[j].SamplesSaved?
    ensures PassSteps(log) == []
    decreases |log|
  {
    if |log| > 0 {
      PassStepsOfSamples(log[..|log| - 1]);
    }
  }

  /** A completed pass saves the total once, keyed by its step. */
  lemma PassStepsOfPass(sizes: seq<int>, step: int, gs: seq<Tensor3>, d: nat)
    requires forall j :: 0 <= j < |gs| ==> GgnShaped(gs[j], d)
    requires PassOutcome(sizes, step, gs, d).0
    ensures PassSteps(PassOutcome(sizes, step, gs, d).1) == [step]
  {
    PassSavesTotalOnce(sizes, step, gs, d);
    var log := PassOutcome(sizes, step, gs, d).1;
    var k := |log| - 1;
    PassStepsOfSamples(log[..k]);
  }

  /** An iteration that fires and completes saves the total once, at the current step. */
  lemma ScheduleFires<St(!new), X>(env: Env<St, X>, q: Progress<St>, b: Batch<X>, m: seq<int>)
    requires GgnContract(env) && BatchOk(b) && env.cfg.ggnFreq != 0
    requires q.failure.None? && Step(env, q, b).failure.None?
    requires q.passes < env.cfg.nGgnIterations && q.nSteps % env.cfg.ggnFreq == 0
    requires q.passes == |m| && PassSteps(q.log) == m
    ensures Step(env, q, b).passes == |m| + 1
    ensures PassSteps(Step(env, q, b).log) == m + [q.nSteps]
  {
    var gs := Ggns(env, q.state);
    var pass := PassOutcome(env.cfg.ggnBatchSizes, q.nSteps, gs, env.d);
    StepPass(env, q, b, pass.0, pass.1);
    assert pass.0;
    PassStepsOfPass(env.cfg.ggnBatchSizes, q.nSteps, gs, env.d);
    PassStepsConcat(q.log, pass.1);
  }

  /** One iteration extends the schedule by the current step when that step is a multiple of ggn_freq. */
  lemma ScheduleStep<St(!new), X>(env: Env<St, X>, q: Progress<St>, b: Batch<X>, start: int, k: nat)
    requires GgnContract(env) && BatchOk(b) && env.cfg.ggnFreq != 0
    requires q.failure.None? && Step(env, q, b).failure.None? && q.nSteps == start + k
    requires q.passes == Allowed(env.cfg.nGgnIterations, |Multiples(start, k, env.cfg.ggnFreq)|)
    requires PassSteps(q.log) == Multiples(start, k, env.cfg.ggnFreq)[..q.passes]
    ensures Step(env, q, b).passes == Allowed(env.cfg.nGgnIterations, |Multiples(start, k + 1, env.cfg.ggnFreq)|)
    ensures PassSteps(Step(env, q, b).log) == Multiples(start, k + 1, env.cfg.ggnFreq)[..Step(env, q, b).passes]
  {
    var f, n, t := env.cfg.ggnFreq, env.cfg.nGgnIterations, q.nSteps;
    var m, m' := Multiples(start, k, f), Multiples(start, k + 1, f);
    MultiplesSnoc(start, k, f);
    var x := if t % f == 0 then [t] else [];
    assert m' == m + x;
    if q.passes < n && t % f == 0 {
      assert x == [t];
      AllowedGrows(n, m, t);
      ScheduleFires(env, q, b, m);
    } else {
      AllowedStays(n, m, x);
      StepSkip(env, q, b);
    }
  }

  /** The window of one more step adds that step when it is a multiple. */
  lemma MultiplesSnoc(start: int, k: nat, f: int)
    requires f != 0
    ensures Multiples(start, k + 1, f) == Multiples(start, k, f) + (if (start + k) % f == 0 then [start + k] else [])
  {
  }

  /** Below the limit, every trigger so far has run, and one more runs. */
  lemma AllowedGrows(n: int, m: seq<int>, t: int)
    requires Allowed(n, |m|) < n
    ensures Allowed(n, |m|) == |m| && m[..|m|] == m
    ensures Allowed(n, |m + [t]|) == |m| + 1 && (m + [t])[..|m| + 1] == m + [t]
  {
  }

  /** At the limit, or without a new trigger, the allowed prefix stays the same. */
  lemma AllowedStays(n: int, m: seq<int>, x: seq<int>)
    requires Allowed(n, |m|) >= n || |x| == 0
    ensures Allowed(n, |m + x|) == Allowed(n, |m|)
    ensures (m + x)[..Allowed(n, |m|)] == m[..Allowed(n, |m|)]
  {
  }

  /**
   * The trigger schedule: without an exception, the passes of a run over bs from a fresh
   * epoch start at the first min(n_ggn_iterations, #multiples) steps that are multiples
   * of ggn_freq, in order, and no others.
   */
  lemma {:induction false} TriggerSchedule<St(!new), X>(env: Env<St, X>, s: St, start: int, bs: seq<Batch<X>>)
    requires GgnContract(env) && AllOk(bs) && env.cfg.ggnFreq != 0
    requires Run(env, Start(s, start), bs).failure.None?
    ensures Run(env, Start(s, start), bs).passes
         == Allowed(env.cfg.nGgnIterations, |Multiples(start, |bs|, env.cfg.ggnFreq)|)
    ensures PassSteps(Run(env, Start(s, start), bs).log)
         == Multiples(start, |bs|, env.cfg.ggnFreq)[..Run(env, Start(s, start), bs).passes]
    decreases |bs|
  {
    if |bs| > 0 {
      var k := |bs| - 1;
      var p0 := Start(s, start);
      RunNext(env, p0, bs, k);
      assert bs[..k + 1] == bs;
      var q := Run(env, p0, bs[..k]);
      TriggerSchedule(env, s, start, bs[..k]);
      ScheduleStep(env, q, bs[k], start, k);
    }
  }

  /** With ggn_freq == 0 and a pass still due, the first training batch raises. */
  lemma ZeroFrequencyRaises<St(!new), X>(env: Env<St, X>, s: St, start: int, bs: seq<Batch<X>>)
    requires GgnContract(env) && AllOk(bs) && |bs| > 0
    requires env.cfg.ggnFreq == 0 && env.cfg.nGgnIterations > 0
    ensures Run(env, Start(s, start), bs).failure == Some(ZeroFrequency)
    ensures Run(env, Start(s, start), bs).log == []
  {
    var p0 := Start(s, start);
    RunNext(env, p0, bs, 0);
    assert bs[..0] == [];
    StepZero(env, p0, bs[0]);
    RunStops(env, p0, bs, 0);
  }

  /** Passes only run while fewer than n_ggn_iterations have run. */
  lemma {:induction false} PassesBound<St(!new), X>(env: Env<St, X>, p: Progress<St>, bs: seq<Batch<X>>)
    requires GgnContract(env) && AllOk(bs)
    ensures Run(env, p, bs).passes <= (if p.passes < env.cfg.nGgnIterations then env.cfg.nGgnIterations else p.passes)
    ensures Run(env, p, bs).passes >= p.passes
    decreases |bs|
  {
    if |bs| > 0 {
      var k := |bs| - 1;
      assert AllOk(bs[..k]);
      PassesBound(env, p, bs[..k]);
    }
  }

  /**
   * train_epoch returns n_ggn_iterations minus the passes it ran: at most
   * n_ggn_iterations passes run, so for a non-negative limit the result is never negative.
   */
  lemma RemainingBounds<St(!new), X>(env: Env<St, X>, s: St, nSteps: int, train: seq<Batch<X>>, datasetSize: nat)
    requires GgnContract(env) && AllOk(train)
    requires EpochOutcome(env, s, nSteps, train, datasetSize).0.Ok?
    ensures var rem := EpochOutcome(env, s, nSteps, train, datasetSize).0.value.remaining;
      rem == env.cfg.nGgnIterations - Run(env, Start(s, nSteps), train).passes
      && rem <= env.cfg.nGgnIterations
      && (env.cfg.nGgnIterations >= 0 ==> rem >= 0)
      && (env.cfg.nGgnIterations < 0 ==> rem == env.cfg.nGgnIterations)
  {
    PassesBound(env, Start(s, nSteps), train);
  }

  /**
   * The schedule of the trigger rule with ggn_freq = 3 and n_ggn_iterations = 2 over seven
   * batches from step 0: passes run before steps 0 and 3, and not before step 6.
   */
  lemma ScheduleExample<St(!new), X>(env: Env<St, X>, s: St, bs: seq<Batch<X>>)
    requires GgnContract(env) && AllOk(bs) && |bs| == 7
    requires env.cfg.ggnFreq == 3 && env.cfg.nGgnIterations == 2
    requires Run(env, Start(s, 0), bs).failure.None?
    ensures Run(env, Start(s, 0), bs).passes == 2
    ensures PassSteps(Run(env, Start(s, 0), bs).log) == [0, 3]
  {
    TriggerSchedule(env, s, 0, bs);
    MultiplesExample();
    assert [0, 3, 6][..2] == [0, 3];
  }

  /** The multiples of 3 among steps 0 .. 6. */
  lemma MultiplesExample()
    ensures Multiples(0, 7, 3) == [0, 3, 6]
  {
    assert Multiples(0, 1, 3) == [] + [0];
    assert Multiples(0, 2, 3) == [0] + [];
    assert Multiples(0, 3, 3) == [0] + [];
    assert Multiples(0, 4, 3) == [0] + [3];
    assert Multiples(0, 5, 3) == [0, 3] + [];
    assert Multiples(0, 6, 3) == [0, 3] + [];
    assert Multiples(0, 7, 3) == [0, 3] + [6];
  }

  /** The per-step loss vectors of a test epoch. */
  function TestLosses<St, X>(m: Model<St, X>, s: St, bs: seq<Batch<X>>): (r: seq<seq<real>>)
    requires AllOk(bs)
    ensures |r| == |bs|
  {
    seq(|bs|, k requires 0 <= k < |bs| => TestStep(m, s, bs[k]).losses)
  }

  /** n_correct_epoch of a test epoch. */
  function TestCorrect<St, X>(m: Model<St, X>, s: St, bs: seq<Batch<X>>): (r: nat)
    requires AllOk(bs)
    ensures r <= BatchItems(bs)
  {
    if |bs| == 0 then 0
    else
      var k := |bs| - 1;
      assert AllOk(bs[..k]);
      TestCorrect(m, s, bs[..k]) + TestStep(m, s, bs[k]).nCorrect
  }

  lemma {:induction false} TestLossesCount<St, X>(m: Model<St, X>, s: St, bs: seq<Batch<X>>)
    requires AllOk(bs)
    ensures ItemCount(TestLosses(m, s, bs)) == BatchItems(bs)
    ensures |bs| > 0 ==> |Concat(TestLosses(m, s, bs))| > 0
    decreases |bs|
  {
    var ls := TestLosses(m, s, bs);
    if |bs| > 0 {
      var k := |bs| - 1;
      assert AllOk(bs[..k]);
      TestLossesCount(m, s, bs[..k]);
      assert ls[..k] == TestLosses(m, s, bs[..k]);
      ConcatSpec(ls);
    }
  }

  /** What test_epoch returns: the epoch loss and accuracy, or the exception it raises. */
  function TestOutcome<St, X>(m: Model<St, X>, s: St, bs: seq<Batch<X>>, datasetSize: nat): (r: Result<(real, real), Failure>)
    requires AllOk(bs)
    ensures r.Ok? <==> |bs| > 0 && datasetSize > 0
    ensures !r.Ok? ==> r.error == (if |bs| == 0 then EmptyEpoch else EmptyDataset)
    ensures r.Ok? && datasetSize >= BatchItems(bs) ==> 0.0 <= r.value.1 <= 1.0
  {
    if |bs| == 0 then Err(EmptyEpoch)
    else if datasetSize == 0 then Err(EmptyDataset)
    else
      TestLossesCount(m, s, bs);
      Ok((EpochLoss(TestLosses(m, s, bs)), Accuracy(TestCorrect(m, s, bs), datasetSize)))
  }

  /**
   * The test loss is the mean over every per-item loss of the epoch: their total over
   * their number, the number of items over all batches.
   */
  lemma TestLossIsItemMean<St, X>(m: Model<St, X>, s: St, bs: seq<Batch<X>>, datasetSize: nat)
    requires AllOk(bs) && |bs| > 0 && datasetSize > 0
    ensures BatchItems(bs) > 0
    ensures TestOutcome(m, s, bs, datasetSize).value.0
         == Sum(StepSums(TestLosses(m, s, bs))) / (BatchItems(bs) as real)
  {
    TestLossesCount(m, s, bs);
    EpochLossIsItemMean(TestLosses(m, s, bs));
  }

  /** Testing one more batch appends its losses and adds its correct count. */
  lemma TestNext<St, X>(m: Model<St, X>, s: St, bs: seq<Batch<X>>, i: nat)
    requires AllOk(bs) && i < |bs|
    ensures AllOk(bs[..i]) && AllOk(bs[..i + 1])
    ensures TestLosses(m, s, bs[..i + 1]) == TestLosses(m, s, bs[..i]) + [TestStep(m, s, bs[i]).losses]
    ensures TestCorrect(m, s, bs[..i + 1]) == TestCorrect(m, s, bs[..i]) + TestStep(m, s, bs[i]).nCorrect
  {
    assert bs[..i + 1][..i] == bs[..i];
    assert AllOk(bs[..i]) && AllOk(bs[..i + 1]);
    assert TestLosses(m, s, bs[..i + 1]) == TestLosses(m, s, bs[..i]) + [TestStep(m, s, bs[i]).losses];
  }

  /**
   * test_epoch (src/train_utils.py:312-358): test_step on every batch at the one given
   * state, then the epoch loss and accuracy as in train_epoch.
   */
  method TestEpoch<St, X>(m: Model<St, X>, s: St, test: seq<Batch<X>>, datasetSize: nat)
    returns (res: Result<(real, real), Failure>)
    requires AllOk(test)
    ensures res == TestOutcome(m, s, test, datasetSize)
  {
    var lossEpoch: seq<seq<real>> := [];
    var nCorrectEpoch: nat := 0;
    var i := 0;
    while i < |test|
      invariant 0 <= i <= |test|
      invariant AllOk(test[..i])
      invariant lossEpoch == TestLosses(m, s, test[..i])
      invariant nCorrectEpoch == TestCorrect(m, s, test[..i])
    {
      TestNext(m, s, test, i);
      var out := TestStep(m, s, test[i]);
      lossEpoch := lossEpoch + [out.losses];
      nCorrectEpoch := nCorrectEpoch + out.nCorrect;
      i := i + 1;
    }
    assert test[..|test|] == test;
    if |test| == 0 {
      return Err(EmptyEpoch);
    }
    if datasetSize == 0 {
      return Err(EmptyDataset);
    }
    TestLossesCount(m, s, test);
    res := Ok((EpochLoss(lossEpoch), Accuracy(nCorrectEpoch, datasetSize)));
  }
}
