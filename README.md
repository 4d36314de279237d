# Sampling-based GGN approximation: the aggregation driver

A Dafny model of the discrete and arithmetic skeleton of `src/train_utils.py`, with reals in place of floats.

- **Training epochs.** A training epoch runs the training steps. Before the step of a batch, it may run a GGN pass over a separate GGN loader. A pass starts when fewer than `n_ggn_iterations` passes have run and `n_steps` is a multiple of `ggn_freq`.
- **What a pass computes.** A pass folds the per-batch GGN tensors [N, D, D] into two running means:
  - `GGN_samples` is a per-position mean across batches;
  - `GGN_total` is the mean over every per-item GGN.
- **What a pass saves.** It saves the samples whenever the number of batches seen is listed in `ggn_batch_sizes`, and the total once at the end.
- **Per-item GGN.** `compute_ggn` builds each item's GGN by flattening the Jacobian leaves into [N, C, D] and taking the sandwich J^T H J.
- **Epoch statistics.** The epoch loss is the mean over all per-item losses, and the accuracy is the correct count over the dataset size.

## Modules

- `wrappers.dfy` (`Wrappers`): `Option` and `Result`.
- `tensors.dfy` (`Tensors`): matrices and 3-tensors as nested sequences, with `Sum`, `Mean` and the mean-update algebra.
- `reductions.dfy` (`Reductions`): `argmax`, the correct count, the epoch loss and the accuracy.
- `steps.dfy` (`Steps`): `train_step` and `test_step` over an opaque model. The model has a forward pass, a per-item loss and an optimizer update.
- `aggregation.dfy` (`Aggregation`): one GGN pass.
  - `GgnPass` is an imperative loop.
  - It is proved equal to the functional `PassOutcome`.
  - `PassOutcome` is proved to produce the exact means and the checkpoint log.
- `epoch.dfy` (`Epoch`): the driver state machine (`Step`, `Run`).
  - Imperative `TrainEpoch`/`TrainLoop`/`TrainIteration` and `TestEpoch` are proved equal to it.
  - It also holds the trigger schedule theorem.
- `ggn.dfy` (`Ggn`): reshape and concatenation of the Jacobian leaves, and the einsum. It also proves that each item's GGN is symmetric, and positive semi-definite whenever its loss Hessian is.

What the model takes as inputs:
- The GGN of a batch is a function `Env.ggn` of the training state and the batch. `Ggn.ComputeGgn` models how `compute_ggn` builds that value from the Jacobian leaves and the Hessian.
- The contract `GgnContract` says every GGN batch yields at least one D x D matrix.

Exceptions are values of `Failure`:
- `ZeroFrequency`: `n_steps % ggn_freq` with `ggn_freq == 0`, while passes remain.
- `ShapeMismatch`: a GGN batch whose item count differs from the first batch's. The source raises at `GGN - GGN_samples` when the batch's item count differs from the current item count of `GGN_samples` and neither is 1. After a size-1 broadcast, `GGN_samples` takes the larger count. So the source completes a pass exactly when all item counts other than 1 are equal. The model reports `ShapeMismatch` at the first count that differs from the first batch's (see "## Left out").
- `EmptyEpoch`: `jnp.concatenate` of an empty list of losses.
- `EmptyDataset`: an accuracy over a dataset of size 0.

The saves made before an exception are kept in the returned log.

## Model

| member | source | states |
|---|---|---|
| `Reductions.ArgMax` | src/train_utils.py:66 | the index returned is in range, holds a maximal logit, and every earlier logit is strictly smaller (the first maximum) |
| `Reductions.NCorrect` | src/train_utils.py:122 | the correct count of N items lies in 0..N |
| `Reductions.NCorrectIsHits` | src/train_utils.py:66 | the correct count is the number of items whose argmax equals the label, hence at most N |
| `Reductions.Accuracy` | src/train_utils.py:307 | the accuracy is non-negative, at most 1 when the count does not exceed the dataset size, and 1 exactly when every item is correct |
| `Reductions.Concat` | src/train_utils.py:306 | `jnp.concatenate` of the per-step losses holds one entry per item of all steps |
| `Reductions.EpochLoss` | src/train_utils.py:306 | the mean of the concatenated losses, non-negative when every per-item loss is |
| `Reductions.ConcatSpec` | src/train_utils.py:306 | the concatenated losses hold one entry per item of all steps and sum to the total of the per-step sums |
| `Reductions.EpochLossIsItemMean` | src/train_utils.py:306 | the epoch loss is the total of all per-item losses divided by the number of items, whatever the step sizes |
| `Reductions.EqualStepsMeanOfMeans` | src/train_utils.py:306 | when every step has the same number of items, the epoch loss equals the mean of the per-step means |
| `Reductions.UnequalStepsNotMeanOfMeans` | src/train_utils.py:355 | with steps of 1 and 2 items the epoch loss (2) differs from the mean of the step means (1.75) |
| `Steps.Logits` | src/train_utils.py:54 | one non-empty logits row per input item |
| `Steps.Losses` | src/train_utils.py:55 | one loss per input item |
| `Steps.TrainStep` | src/train_utils.py:63-71 | train_step returns one loss per item and a correct count of at most N |
| `Steps.TestStep` | src/train_utils.py:121-124 | test_step returns one loss per item and a correct count of at most N |
| `Steps.TrainStepMatchesTestStep` | src/train_utils.py:112-122 | train_step reports the same losses and correct count as test_step at the same state; that count is the number of correctly predicted items |
| `Aggregation.SamplesUpdate` | src/train_utils.py:270-272 | the samples update keeps the [N, D, D] shape |
| `Aggregation.TotalUpdate` | src/train_utils.py:284-286 | the total update keeps the D x D shape |
| `Aggregation.MatMean` | src/train_utils.py:282 | the mean over the first axis is D x D |
| `Aggregation.SamplesFirst` | src/train_utils.py:267-268 | the copied first batch is the exact per-position mean over one batch |
| `Aggregation.SamplesStep` | src/train_utils.py:269-272 | `S + (G - S) / m` turns the exact mean over m - 1 batches into the exact mean over m |
| `Aggregation.TotalStep` | src/train_utils.py:280-286 | `T + sum(G - T) / counter`, with the counter advanced by the batch size, turns the exact mean over the items seen into the exact mean over those plus a batch of any size |
| `Aggregation.MatchingPrefix` | src/train_utils.py:270-272 | the batches before the returned index all have n items, and the batch at it (if any) does not |
| `Aggregation.GgnPass` | src/train_utils.py:254-289 | the loop's outcome and save log are those of `PassOutcome`; its invariants keep GGN_samples as the exact per-position mean, GGN_counter as the number of items seen, and GGN_total as the exact mean of those items |
| `Aggregation.SampleSaves` | src/train_utils.py:273-277 | every samples save of the first m batches is keyed by n_steps and by a batch count in 1..m listed in ggn_batch_sizes |
| `Aggregation.PassOutcome` | src/train_utils.py:254-289 | a pass completes exactly when every batch has the first batch's item count; a completed pass ends its log with one total save keyed by n_steps, and every earlier save is a samples save keyed by n_steps |
| `Aggregation.SampleSavesSpec` | src/train_utils.py:273-277 | over m batches, the samples are saved exactly once for each listed batch count b in 1..m and for no other count, in increasing b, keyed by (n_steps, b), each save holding the exact per-position mean of the first b batches |
| `Aggregation.CheckpointExtend` | src/train_utils.py:274-277 | appending the save after the m-th batch, when m is listed, extends a checkpoint log of m - 1 batches to a checkpoint log of m batches |
| `Aggregation.PassSavesTotalOnce` | src/train_utils.py:288-289 | a pass completes exactly when every batch has the first batch's item count. A completed pass saves the total once, last, keyed by n_steps, holding the exact mean of every per-item GGN (None for an empty GGN loader). Every other save is a samples checkpoint |
| `Aggregation.CheckpointExample` | src/train_utils.py:274-277 | with sizes [1, 3] over five batches, exactly two samples saves: the first batch itself, then the mean of three |
| `Aggregation.PassStops` | src/train_utils.py:270-272 | a batch with a different item count ends the pass unsuccessfully with only the checkpoints made before it |
| `Aggregation.PassCompletes` | src/train_utils.py:288-289 | a pass over uniform batches succeeds with the checkpoints followed by the exact total mean |
| `Epoch.Start` | src/train_utils.py:239-242 | the fresh epoch state: the given training state and n_steps, no pass run, no save, no losses, no correct prediction, no exception |
| `Epoch.Fires` | src/train_utils.py:252 | a pass starts exactly when fewer than n_ggn_iterations passes have run and n_steps is a multiple of ggn_freq (the one-step window from n_steps holds a multiple) |
| `Epoch.Ggns` | src/train_utils.py:263 | one GGN per batch of the GGN loader |
| `Epoch.Train` | src/train_utils.py:293-298 | the training step adds one to n_steps, appends the batch's losses at the pre-step state, applies the optimizer update to the pre-step state, adds the step's correct count (at most N), and leaves the pass counter and the log alone |
| `Epoch.Step` | src/train_utils.py:250-303 | an ended epoch stays ended |
| `Epoch.StepZero` | src/train_utils.py:252 | with passes remaining and ggn_freq == 0 the iteration raises ZeroFrequency |
| `Epoch.StepPass` | src/train_utils.py:252-293 | when the trigger holds, the pass runs on the GGNs at the state from before the batch's training step; its saves are logged; then either the epoch ends with ShapeMismatch or the counter rises by one and the step trains |
| `Epoch.StepSkip` | src/train_utils.py:292-298 | when the trigger does not hold the iteration only trains |
| `Epoch.StepLosses` | src/train_utils.py:293-295 | an iteration that does not raise appends the batch's losses at the state before it |
| `Epoch.Run` | src/train_utils.py:250-303 | after the loop over the batches, without an exception, n_steps has grown by the number of batches, with one loss vector per batch and at most one correct prediction per item |
| `Epoch.RunLosses` | src/train_utils.py:295 | without an exception, the collected losses hold one entry per item of the batches, so at least one when there is a batch |
| `Epoch.RunConcat` | src/train_utils.py:250 | the loop over a + b is the loop over a, then over b |
| `Epoch.RunStops` | src/train_utils.py:250-303 | once an iteration raises, the later batches change nothing |
| `Epoch.RunNext` | src/train_utils.py:250 | the loop over i + 1 batches is one more iteration after the loop over i |
| `Epoch.Finish` | src/train_utils.py:305-309 | the end of train_epoch. It succeeds exactly when no exception ended the loop, some losses were collected and the dataset is non-empty; otherwise it reports the first failing cause. It returns n_steps and n_ggn_iterations minus the passes run, keeps the log, and has accuracy in [0, 1] when the count fits the dataset |
| `Epoch.LossesNonEmpty` | src/train_utils.py:306 | a completed loop with at least one batch has a non-empty concatenation of losses |
| `Epoch.EpochOutcome` | src/train_utils.py:205-309 | train_epoch succeeds exactly when no exception arises, some training batch exists and the dataset is non-empty; n_steps grows by the number of batches, the log is that of the loop, and the accuracy is in [0, 1] when the batches fit in the dataset |
| `Epoch.TrainIteration` | src/train_utils.py:251-303 | one imperative iteration (trigger test, pass, training step and bookkeeping) yields exactly `Step` |
| `Epoch.TrainLoop` | src/train_utils.py:239-303 | the imperative loop over the training batches yields exactly `Run` from the fresh epoch state, stopping at the first exception |
| `Epoch.TrainEpoch` | src/train_utils.py:205-309 | the imperative train_epoch returns exactly `EpochOutcome` |
| `Epoch.EpochEnd` | src/train_utils.py:305-309 | the imperative end of train_epoch returns exactly `Finish` |
| `Epoch.Multiples` | src/train_utils.py:252 | exactly the steps of a window that are multiples of ggn_freq: every listed step is such a multiple, every such multiple is listed, and the list is strictly increasing |
| `Epoch.PassStepsConcat` | src/train_utils.py:289 | the total-save steps of two logs, one after the other, are those of the first followed by those of the second |
| `Epoch.PassStepsOfSamples` | src/train_utils.py:275-277 | a log of samples saves holds no total save |
| `Epoch.PassStepsOfPass` | src/train_utils.py:289 | a completed pass contributes exactly one total save, at its step |
| `Epoch.ScheduleFires` | src/train_utils.py:252-290 | an iteration whose trigger holds and that does not raise adds one pass with a total save at the current step |
| `Epoch.ScheduleStep` | src/train_utils.py:252-290 | each iteration keeps the pass count equal to min(n_ggn_iterations, number of multiples of ggn_freq so far), and the total saves equal to the first that many multiples |
| `Epoch.TriggerSchedule` | src/train_utils.py:252 | without an exception, passes run exactly at the first min(n_ggn_iterations, #multiples) steps that are multiples of ggn_freq, in increasing order, one total save per pass |
| `Epoch.ScheduleExample` | src/train_utils.py:252 | with ggn_freq = 3 and n_ggn_iterations = 2 over seven batches from step 0, passes run before steps 0 and 3 only |
| `Epoch.MultiplesExample` | src/train_utils.py:252 | the multiples of 3 among steps 0..6 are 0, 3 and 6 |
| `Epoch.ZeroFrequencyRaises` | src/train_utils.py:252 | with ggn_freq == 0 and a pass due, the first batch raises and nothing is saved |
| `Epoch.PassesBound` | src/train_utils.py:290 | the loop never lowers the pass count, nor raises it past n_ggn_iterations |
| `Epoch.RemainingBounds` | src/train_utils.py:309 | the returned remaining count is n_ggn_iterations minus the passes run: at most n_ggn_iterations, non-negative for a non-negative limit, and the limit itself when it is negative (no pass runs) |
| `Epoch.TrainLossIsItemMean` | src/train_utils.py:295-306 | a successful train_epoch has at least one training item, and its loss is the total of all per-item losses of the loop divided by the number of training items |
| `Epoch.TestLosses` | src/train_utils.py:341-345 | one loss vector per test batch |
| `Epoch.TestCorrect` | src/train_utils.py:346 | the correct count of a test epoch is at most the number of items |
| `Epoch.TestLossesCount` | src/train_utils.py:345 | the test losses hold one entry per item, at least one when there is a batch |
| `Epoch.TestNext` | src/train_utils.py:343-346 | one more test batch appends its losses and adds its correct count |
| `Epoch.TestOutcome` | src/train_utils.py:354-358 | test_epoch succeeds exactly when some batch exists and the dataset is non-empty, reports which cause failed otherwise, and has accuracy in [0, 1] when the batches fit in the dataset |
| `Epoch.TestLossIsItemMean` | src/train_utils.py:355 | the test loss is the total of all per-item losses over their number |
| `Epoch.TestEpoch` | src/train_utils.py:312-358 | the imperative test_epoch returns exactly `TestOutcome` |
| `Ggn.LeafRow` | src/train_utils.py:196 | row [i][a] of a reshaped leaf has the leaf's width |
| `Ggn.Reshape` | src/train_utils.py:196 | `x.reshape(N, C, -1)` of a leaf of N * C * P values, with N and C positive, has shape [N, C, P] |
| `Ggn.ReshapeAt` | src/train_utils.py:196 | entry [i][a][q] of the reshaped leaf is entry (i * C + a) * P + q of the row-major leaf |
| `Ggn.ReshapeCovers` | src/train_utils.py:196 | every value of the leaf appears at its row-major position in the reshaped leaf |
| `Ggn.JointRow` | src/train_utils.py:195-197 | row [i][a] of the concatenation has length D, the sum of the leaf widths |
| `Ggn.FlattenLeaves` | src/train_utils.py:195-197 | the concatenation exists exactly when there is a leaf and every leaf reshapes, and then has shape [N, C, D] |
| `Ggn.ParamDimOfSizes` | src/train_utils.py:195-197 | N * C * D, with D = `ParamDim` the sum of the leaf widths, is the total size of the leaves |
| `Ggn.OffsetBound` | src/train_utils.py:197 | each leaf's slot along D lies within D |
| `Ggn.JointRowAt` | src/train_utils.py:195-197 | within row [i][a] of the concatenation, leaf l occupies positions Offset(l) .. Offset(l) + P_l, in leaf order |
| `Ggn.FlattenAt` | src/train_utils.py:195-197 | the flattened Jacobian at [i][a][Offset(l) + q] is entry (i * C + a) * P_l + q of leaf l |
| `Ggn.ItemGgn` | src/train_utils.py:200 | one item's GGN is D x D |
| `Ggn.Sandwich` | src/train_utils.py:200 | the einsum gives [N, D, D] |
| `Ggn.ComputeGgn` | src/train_utils.py:194-200 | the GGN exists exactly when the leaves flatten, and then has shape [N, D, D] |
| `Ggn.SumByColumns` | src/train_utils.py:200 | summing the terms of the einsum by rows or by columns gives the same value |
| `Ggn.ItemGgnIsProduct` | src/train_utils.py:199-200 | the einsum entry sum_a sum_b J[a][x] H[a][b] J[b][y] is the matrix product J^T (H J) |
| `Ggn.ItemGgnSymmetric` | src/train_utils.py:200 | an item's GGN is symmetric in x, y whenever its Hessian is symmetric |
| `Ggn.SandwichSymmetric` | src/train_utils.py:200 | every GGN[n] of the einsum is symmetric when every H[n] is |
| `Ggn.ComputeGgnSymmetric` | src/train_utils.py:194-200 | compute_ggn's result is symmetric per item whenever the loss Hessians are |
| `Ggn.MatVecMul` | src/train_utils.py:200 | (A B) v = A (B v) |
| `Ggn.DotTranspose` | src/train_utils.py:200 | (J^T w) . v = w . (J v) |
| `Ggn.ItemGgnQuad` | src/train_utils.py:199-200 | for every v, v^T (J^T H J) v equals u^T H u with u = J v |
| `Ggn.ItemGgnPsd` | src/train_utils.py:200 | an item's GGN is positive semi-definite whenever its Hessian is |
| `Ggn.ComputeGgnPsd` | src/train_utils.py:194-200 | compute_ggn's result is positive semi-definite per item whenever the loss Hessians are |

## Left out

- Automatic differentiation (`jax.jacrev`, `jax.grad`, `jax.jacfwd`, `jax.vmap`) and `jax.jit`. The Jacobian leaves and the Hessian are inputs of `Ggn.ComputeGgn`.
- The forward pass, the softmax cross-entropy and `state.apply_gradients` are opaque functions in `Steps.Model`. The forward pass maps one input item to one logits row, so a model whose output for one item depends on the rest of the batch is not covered.
- `compute_ggn` inside the driver is the function `Env.ggn` of the state and the GGN batch, constrained only by `GgnContract`: at least one item, each D x D. `Ggn.ComputeGgn` models its flatten-and-einsum tail separately.
- The GGN loader is one fixed sequence of batches, the same on every pass. A loader that reshuffles between passes is not modelled.
- The source calls `compute_ggn` once per GGN batch inside the pass loop (src/train_utils.py:263). The model computes all GGNs of a pass up front, from the one state before the training step (`Epoch.Ggns`). The two agree because `compute_ggn` is pure and the training state does not change during a pass.
- `save_results` is an entry appended to the returned log; its file output is not modelled. `log_utils`, which defines it, is not part of this model. An empty GGN loader is modelled as saving `TotalSaved(step, None)`, which assumes that `save_results(None, …)` at src/train_utils.py:289 succeeds. `DataLoader` is a sequence of batches, each with at least one item and one label per input.
- Floating point is not modelled; everything is over reals. So are NaN and infinity, and the int32 width of the correct counts.
- NumPy broadcasting of a size-1 item axis is not modelled, in either direction. A one-item GGN batch against a larger `GGN_samples` broadcasts in the source. So does a one-item `GGN_samples` (from a one-item first batch) against a larger later batch; `GGN_samples` then takes the larger shape. The source completes the pass in both cases, and the model treats both as `ShapeMismatch`.
- `Aggregation.PassSavesTotalOnce`: its "completes exactly when every batch has the first batch's item count" is stricter than the source. Because of the broadcasting above, the source completes a pass exactly when all item counts other than 1 are equal. With item counts 1, 3, 2, both the source and the model raise: the source at the third batch, because `GGN_samples` has become [3, D, D], and the model at the second.
- A dataset of size 0 with a non-empty loop is `EmptyDataset`. The source divides a JAX integer array by zero there and returns a non-finite float. A loader drawing from an empty dataset yields no batch, so the case is reached only with inconsistent inputs.
- `x.reshape(N, C, -1)` infers the width from the leaf's size. A model leaf carries the width of its parameter leaf, and a leaf whose size is not N * C * width, or with N * C == 0 (where -1 cannot be inferred), is treated as not reshapable. An array that a reshape would split differently is not modelled.
- tqdm progress reporting and the rounded postfix statistics (src/train_utils.py:246-248, 300-303, 337-352) are observational only and are left out.
- `Aggregation.SamplesUpdate`: its contract states only the shape; the exact-mean property is in `Aggregation.SamplesStep`.
- `Aggregation.TotalUpdate`: its contract states only the shape; the exact-mean property is in `Aggregation.TotalStep`.
- `Epoch.Step`: its own contract states only that an ended epoch stays ended. The trigger rule is stated independently by `Epoch.TriggerSchedule` (where the passes run), `Epoch.PassesBound` (never more than n_ggn_iterations) and `Epoch.ZeroFrequencyRaises` (ggn_freq == 0); `Epoch.StepZero`, `Epoch.StepPass` and `Epoch.StepSkip` only unfold its branches.
