# Robust training engine: a verified model of `ptb/train/train.py`

This project models the training engine of the repository: `one_epoch`, one pass over a data loader, and `train_classifier`, which orchestrates the epochs around it.

**One pass.** `one_epoch` builds a closure for every batch and either hands it to the optimizer's `step` (training) or calls it once (evaluation). The closure computes the loss. That loss is the criterion of the network's output, plus, when `epsilon > 0 and factor > 0`, `factor` times the criterion of the worst-case logits obtained by bound propagation. A captured `first_time` flag makes the loss, top-1 and top-5 meters record a batch only on the first evaluation of its closure, however often the optimizer re-evaluates it. Two timing meters record the data-loading and total time of every batch.

**The epochs.** `train_classifier` works in this order:
- it optionally resumes from a checkpoint;
- it runs one baseline validation pass, and returns there when only evaluating;
- otherwise it trains epoch by epoch, with the step learning rate `learning_rate * 0.1 ** (epoch // 30)` written into the optimizer whenever `epoch % 30 == 0`;
- after each epoch it validates, keeps the best top-1 accuracy and writes a checkpoint whenever that best is reached;
- it stops after the first epoch whose training loss is NaN.

**How the model is built.**
- All tensor mathematics is opaque. The forward pass, the criterion, bound propagation, `bounds_logits`, the temperature rescaling and `compute_accuracy` are uninterpreted functions that the caller supplies (module `Collaborators`). Every property holds whatever they compute.
- The stateful objects of the source are classes whose methods update their fields:
  - the network, with its trainable state, its train/eval mode and a log of the calls made into it;
  - the optimizer, which calls the closure `evaluations(step)` times per step and, after each call, moves the trainable state by an opaque `adjust` of the learning rate, the state, the batch and the returned loss;
  - the meters, which are `(sum, count)` accumulators;
  - the closure, with its `first_time` flag;
  - the clock, which counts the readings taken, its k-th reading being `readings(k)`;
  - the loaders and the checkpoint disk (modules `Meters`, `Engine`, `Training`).
- Each method is proved against specification functions:
  - `EpochSpec` says what a pass leaves in the network and the meters;
  - `Training.EpochResult` says what the two passes of an epoch leave and report, and `Training.EpochsFrom` chains epochs;
  - `Schedule` says what the epoch loop decides from the epochs' reports.
- `Training.TrainClassifier` is proved to run a chain of epochs as `EpochResult` describes, from the state the baseline validation leaves, and to take the decisions `Schedule.Run` describes on the reports those epochs produce. So the NaN break tests the real training loss meter, and the checkpoint decision uses the real validation accuracy.
- The properties the code promises are proved as lemmas about those functions.

**Two behaviours of the code.**
- The NaN test is at line 144, after the validation pass (line 117) and the checkpoint decision (lines 133-142) of the same epoch. So the epoch whose training loss is NaN is still validated, and may still write a checkpoint, before the loop breaks. `Training.EpochLoop` records that epoch's report and its checkpoint, if one is written, before it stops.
- The learning rate is written into the optimizer only when `epoch % 30 == 0` (lines 107-110). On a resume at an epoch that is not a multiple of 30, the rate in effect is the one restored from the checkpoint's optimizer state (line 80). So `get_lr(epoch)` holds for every epoch only when the run resumes on schedule (`Schedule.ResumesOnSchedule`). `Schedule.WrittenCheckpointsResumeOnSchedule` shows that a checkpoint allows that under two conditions: the run that wrote it was itself on schedule, and the resumed run is given the same `learning_rate`. A resume between two multiples of 30 with a changed `learning_rate` ignores the new value until the next multiple of 30 (`Schedule.RestoredLrKeptWithinDecade`). For example, a run with `learning_rate` 0.1 saves a checkpoint for epoch 45 holding 0.01. A resume from it with `learning_rate` 0.5 trains epochs 45 to 59 at 0.01, not at get_lr(45) = 0.05 (`Schedule.ChangedLrResumesOffSchedule`).

## Model

| member | source | states |
|---|---|---|
| EpochSpec.BatchLoss | ptb/train/train.py:164-175 | when epsilon <= 0 or factor <= 0 the loss is exactly the criterion of the output; otherwise it is that plus factor times the criterion of the rescaled bound logits |
| EpochSpec.BatchStep | ptb/train/train.py:202-217 | k evaluations of a fresh closure: each metric meter's count grows by the batch size exactly when k > 0, and by nothing otherwise; without training the weights do not move |
| EpochSpec.StateAfter | ptb/train/train.py:193-217 | after the first n batches, each metric meter's count has grown by exactly the samples of the batches whose closure ran; without training the weights are those the pass started with |
| Engine.Pass.ForwardLoss | ptb/train/train.py:166-175 | returns net(inputs) at the current weights and the batch loss; logs one forward pass, plus one bound propagation exactly when epsilon > 0 and factor > 0 |
| Engine.Pass.RecordMetrics | ptb/train/train.py:178-184 | the loss, top-1 and top-5 meters each gain one update weighted by the batch size: the loss and the two accuracies of the unperturbed output |
| Engine.Pass.ComputeLoss | ptb/train/train.py:164-191 | returns the batch loss at the current weights; logs the forward pass, the bound propagation when enabled, and zero_grad and backward when training; each metric meter gains one weighted update when update_metrics is set and is unchanged otherwise |
| Engine.Closure.constructor | ptb/train/train.py:202-204 | a fresh closure for the batch has first_time set |
| Engine.Closure.Call | ptb/train/train.py:204-212 | returns the batch loss at the current weights; the metric meters record the batch exactly when first_time was still set; first_time is cleared afterwards |
| Engine.Network.constructor | ptb/train/train.py:54 | a network holding the given trainable state, in evaluation mode, with no calls made into it |
| Engine.Optimizer.constructor | ptb/train/train.py:60-64 | an optimizer over the network at the given learning rate and update rule, no step taken |
| Engine.Optimizer.Evaluate | ptb/train/train.py:215 | one closure call inside a step, then the weights move by the optimizer's update for the returned loss |
| Engine.Optimizer.Step | ptb/train/train.py:215 | after the k calls of this step, the weights have been updated k times and the call log has grown by k evaluations; the metric meters record the batch once, at the weights the batch started with, exactly when the closure was fresh and k > 0; first_time is cleared exactly when k > 0 |
| Engine.Pass.EvaluateBatch | ptb/train/train.py:202-217 | a fresh closure is stepped by the optimizer when training and called once otherwise; one optimizer step is taken and its learning rate is unchanged; network and metric meters end as one batch step of the specification says |
| Engine.Clock.Now | ptb/train/train.py:194-197 | time() returns the clock's reading at the number of readings taken so far, and counts one more reading |
| Engine.Loader.Iterate | ptb/train/train.py:195 | iterating a loader yields the batches of its next iteration |
| Engine.RecordElapsed | ptb/train/train.py:197 | reads the clock once, getting its next reading t; the meter gains one unit-weight update of t - end |
| Engine.Pass.RunBatch | ptb/train/train.py:195-221 | takes the clock's next three readings loaded, done and the new end; data_time gains loaded - end, batch_time gains done - end; network and metric meters end as one batch step of the specification says |
| Engine.Pass.RunNext | ptb/train/train.py:195-221 | one round of the batch loop extends the loop invariant from i to i + 1 batches: weights, call log, metric meters, clock readings and timing meters |
| Engine.TimedStep | ptb/train/train.py:195-221 | three more clock readings after end extend the data_time and batch_time sums by exactly one batch each |
| Engine.Pass.RunBatches | ptb/train/train.py:193-221 | after the batch loop, the weights, the call log and the metric meters equal the specification's state after all batches; the timing meters hold exactly the DataTimes and BatchTimes sums over the clock's readings; three readings are taken per batch; there is one optimizer step per batch and the learning rate is unchanged |
| Engine.Pass.constructor | ptb/train/train.py:154-158 | five fresh, distinct meters, all empty, named Time/BatchTotal, Time/BatchData, Loss, Acc@1 and Acc@5 |
| Engine.MeterNamesDistinct | ptb/train/train.py:154-158 | the five meter names are pairwise distinct |
| Engine.Pass.Progress | ptb/train/train.py:223 | the returned dictionary has exactly the five names as keys, each mapped to its own meter |
| Engine.ClosureCalls | ptb/train/train.py:214-217 | every closure is called exactly once when evaluating; when training, batch i's closure is called as often as the optimizer's step i decides |
| Engine.OneEpoch | ptb/train/train.py:151-223 | sets the mode to training exactly when an optimizer is given; iterates the loader once; returns the five fresh meters by name; the weights, the call log and the Loss/Acc@1/Acc@5 tallies equal the specification's state after the drawn batches from empty meters; the timing meters equal the per-batch differences of the clock's readings; the optimizer takes one step per batch at an unchanged learning rate |
| Meters.AverageMeter.constructor | ptb/train/train.py:154-158 | a new meter has its name and the empty tally: sum 0 and count 0 |
| Meters.AverageMeter.Update | ptb/train/train.py:182-184 | update(value, n) adds value * n to the sum and n to the count |
| Meters.AverageMeter.Average | ptb/train/train.py:133 | avg times count is the sum when the count is positive; avg is 0 before any update |
| Meters.Tally.Mean | ptb/train/train.py:133 | the mean of a tally times its count is its sum when the count is positive; 0 for an empty tally |
| EpochSpec.StateAfterAccounts | ptb/train/train.py:193-217 | batch by batch, the weights, the call log and each metric meter are accounted separately: each meter's tally is its start plus exactly the updates Recorded lists |
| EpochSpec.RecordedOncePerCalledBatch | ptb/train/train.py:202-212 | each metric meter gets one update per batch whose closure ran at least once, and none for a batch whose closure never ran; its weight total is the number of samples in those batches |
| EpochSpec.RecordedAtFirstEvaluation | ptb/train/train.py:202-212 | the update for a called batch sits at the position of that batch among the called batches and holds the metric at the weights the batch started with, weighted by the batch size, not at weights a later evaluation produced |
| EpochSpec.RepeatedEvaluationsCountOnce | ptb/train/train.py:202-215 | two optimizers that call the same batches' closures at least once, however often each, give the metric meters the same number of updates and the same count |
| EpochSpec.EveryBatchCalled | ptb/train/train.py:214-217 | when every closure runs at least once, every batch and every sample is counted |
| EpochSpec.EvaluationKeepsWeights | ptb/train/train.py:216-217 | a pass without an optimizer leaves the weights unchanged |
| EpochSpec.EvaluationRecordsEveryBatch | ptb/train/train.py:216-217 | in evaluation each batch is recorded exactly once, in order, with its metric at the unchanged weights and the batch size as weight; the count is the number of samples |
| EpochSpec.TimingCountsBatches | ptb/train/train.py:195-221 | data_time and batch_time each gain exactly one unit-weight update per batch, so their counts grow by the number of batches |
| EpochSpec.DataTimeWithinBatchTime | ptb/train/train.py:194-221 | with a clock that never runs backwards, data_time's sum never exceeds batch_time's |
| EpochSpec.CallEventsCounts | ptb/train/train.py:164-191 | one closure evaluation runs the forward pass once; it propagates bounds once exactly when epsilon > 0 and factor > 0; it zeroes gradients and back-propagates once exactly when training |
| EpochSpec.PassEventOccurrences | ptb/train/train.py:193-217 | over a pass, each call made once by a closure evaluation happens once per evaluation, and a call it never makes never happens |
| EpochSpec.PassEventCounts | ptb/train/train.py:164-217 | over a pass, forward passes equal the number of closure evaluations; bound propagations equal it when the robust term is enabled and are 0 otherwise; gradient zeroing and back-propagation equal it when training and are 0 otherwise |
| EpochSpec.EvaluationPassEvents | ptb/train/train.py:186-189 | in evaluation the forward pass runs once per batch, and gradients are never zeroed or back-propagated |
| Schedule.DecayEveryThirtyEpochs | ptb/train/train.py:28 | get_lr thirty epochs later is a tenth of get_lr now |
| Schedule.SameLrWithinDecade | ptb/train/train.py:28 | get_lr changes only on entering an epoch that is a multiple of 30 |
| Schedule.GetLr | ptb/train/train.py:28 | get_lr(epoch) stands for learning_rate * 0.1^(epoch // 30) |
| Schedule.EpochLr | ptb/train/train.py:104-110 | the optimizer's rate during epoch e is get_lr(e) when e % 30 == 0 and the rate it held before otherwise |
| Schedule.EpochStep | ptb/train/train.py:106-142 | one epoch's decisions: the rate follows EpochLr; the new best is at least the old best and the epoch's accuracy and is one of them; at most one checkpoint is appended and none removed |
| Schedule.Run | ptb/train/train.py:104-146 | the decisions after n epochs, folding EpochStep in epoch order: the checkpoints already on disk are kept and at most one per epoch is appended |
| Schedule.OptimizerLrFollowsSchedule | ptb/train/train.py:104-110 | on a run that resumes on schedule, the optimizer holds get_lr of the last epoch run after every epoch, including when the start epoch is not a multiple of 30 |
| Schedule.WrittenCheckpointsResumeOnSchedule | ptb/train/train.py:133-142 | every checkpoint written by a run that is itself on schedule lets a later run with the same learning_rate resume on schedule |
| Schedule.RestoredLrKeptWithinDecade | ptb/train/train.py:104-110 | after a resume at an epoch that is not a multiple of 30, the optimizer keeps the restored learning rate up to the next multiple of 30, whatever learning_rate the run was given |
| Schedule.ChangedLrResumesOffSchedule | ptb/train/train.py:104-142 | a checkpoint for epoch 45 written at learning_rate 0.1 resumes a run with learning_rate 0.1 on schedule but not one with 0.5, which trains epochs 45 to 59 at get_lr(45) of 0.1 instead of that of 0.5 |
| Schedule.BestIsMaximum | ptb/train/train.py:133-134 | best_acc1 is the maximum of its starting value and the validation accuracies reported so far, and it is one of them |
| Schedule.BestNeverDecreases | ptb/train/train.py:133-134 | best_acc1 never decreases from one epoch to a later one |
| Schedule.CheckpointWrittenIff | ptb/train/train.py:133-142 | epoch e writes a checkpoint if and only if its validation accuracy is at least the previous best and a path was given; the record has epoch e + 1, the weights, the updated best and the optimizer's learning rate; otherwise nothing is written |
| Schedule.SavedEpochsIncrease | ptb/train/train.py:137-142 | checkpoints are appended in strictly increasing epoch order, and none is ahead of the epochs run |
| Schedule.LastCheckpointHoldsBest | ptb/train/train.py:133-142 | with a path, the last checkpoint written holds the final best_acc1 |
| Schedule.RunPrefix | ptb/train/train.py:105 | the state after n epochs depends only on the first n reports |
| Training.LossConfigOf | ptb/train/train.py:67-69 | one_epoch receives epsilon times the input range, with factor and temperature unchanged; with a positive input range, the bounds term is used exactly when epsilon > 0 and factor > 0 |
| Training.Diverged | ptb/train/train.py:144-146 | the NaN test `train_loss != train_loss` is the self-inequality of the training loss meter's tally |
| Training.StartEpoch | ptb/train/train.py:72-76 | the loop starts at the checkpoint's epoch when resuming and at 0 otherwise |
| Training.InitialState | ptb/train/train.py:72-80 | the loop starts after the baseline validation pass; best_acc1 and the optimizer's learning rate come from the checkpoint when resuming, and are 0 and the initial learning rate otherwise |
| Training.ResumeOnSchedule | ptb/train/train.py:72-80 | a fresh run is on schedule, and so is a run resumed from a checkpoint that allows it |
| Training.Validated | ptb/train/train.py:117-119 | a validation pass leaves the weights, the optimizer's steps and rate and the training loader alone, and iterates the validation loader once |
| Training.EpochResult | ptb/train/train.py:106-119 | epoch e sets the optimizer's rate as EpochLr says, iterates each loader once, and reports and leaves the trainable state of a training pass at that rate; its NaN flag is the test on that training pass's loss meter |
| Training.OptimizerFollowsSchedule | ptb/train/train.py:104-110 | in a chain of epochs that starts on schedule, the optimizer holds get_lr of each epoch after it |
| Training.EpochTrainsOnSchedule | ptb/train/train.py:104-119 | in a chain of epochs that starts on schedule, epoch start + i trains at exactly get_lr(start + i), and its NaN flag and the trainable state it reports are those of the training pass at that rate, even when the start epoch is not a multiple of 30 |
| Training.Trained | ptb/train/train.py:113-114 | a training pass leaves the trainable state and the call log of its pass specification, takes one optimizer step per batch, iterates the training loader once and keeps the learning rate and the validation loader |
| Training.EpochPasses | ptb/train/train.py:113-119 | the two passes of an epoch report the validation top-1 mean taken after training and the NaN test of the training loss meter; the reported and the final trainable state are both the training pass's, since validation keeps it; the rate is kept and each loader is iterated once |
| Training.TrainPass | ptb/train/train.py:113-114 | a training pass leaves the trainer as Trained says and returns the tally of its loss meter; the network is left in training mode, and the pass takes one clock reading plus three per batch |
| Training.ValidatePass | ptb/train/train.py:93-95 | a validation pass leaves the trainer as Validated says and returns the tally of its top-1 meter; the network is left in evaluation mode, and the pass takes one clock reading plus three per batch |
| Training.ChainExtend | ptb/train/train.py:105-146 | an epoch run as EpochResult describes and decided as EpochStep describes extends the chain of epochs and the schedule's Run by one |
| Training.NextEpoch | ptb/train/train.py:105-146 | one round of the epoch loop extends the chain and the decisions by that epoch's report, leaves the network in evaluation mode and takes the epoch's clock readings |
| Training.Setup | ptb/train/train.py:54-80 | a network in evaluation mode and SGD over it, one closure evaluation per step; when resuming, the start epoch, best_acc1, weights and optimizer learning rate come from the checkpoint |
| Training.Disk.constructor | ptb/train/train.py:135-142 | no checkpoint has been written |
| Training.Disk.Save | ptb/train/train.py:137-142 | torch.save appends the record to the checkpoints written |
| Training.RunEpoch | ptb/train/train.py:113-119 | a training pass with the optimizer, then a validation pass without it, each iterating its loader once; the report holds the validation top-1 mean, the NaN test of the training loss meter and the weights after both passes, as the pass specification computes them; the network is left in evaluation mode and the epoch takes two clock readings plus three per batch of either pass |
| Training.Decide | ptb/train/train.py:133-142 | the new best is the larger of the validation accuracy and the previous best, with ties taken; a checkpoint with epoch + 1, the weights, the new best and the learning rate is appended exactly when the accuracy reached the best and a path was given |
| Training.TrainEpoch | ptb/train/train.py:106-142 | writes get_lr(epoch) into the optimizer exactly when epoch % 30 == 0; the report and the trainer state afterwards are EpochResult's from the state before, so the training pass runs at that rate; best_acc1, the optimizer's rate and the checkpoints on disk are the schedule's epoch step on that report; the network is left in evaluation mode and the epoch takes two clock readings plus three per batch of either pass |
| Training.EpochLoop | ptb/train/train.py:104-146 | the epochs run form a chain from the state on entry to the state on exit, each epoch as EpochResult describes; best_acc1, the optimizer's rate and the checkpoints follow the schedule's Run over their reports; every epoch but the last passed the NaN test; the loop ends before the epoch count only right after an epoch whose training loss meter failed it; after at least one epoch the network is in evaluation mode |
| Training.TrainClassifier | ptb/train/train.py:72-146 | one baseline validation pass always runs, from the initial or resumed state; only evaluating runs no epoch; otherwise the epochs from the start epoch form a chain as EpochResult describes, never past the epoch count, stopping exactly after the first epoch whose real training loss meter fails the NaN test; the disk and the optimizer's rate are what the schedule's Run says on the real reports |

## Left out

- Device selection, `to_device`/preprocess and DataParallel wrapping (lines 31-47, 59, 85-90, 200): these are hardware plumbing. The wrapped network is still one opaque forward function of the trainable state, the mode and the inputs. Per-device batch-norm statistics over each replica's slice of a batch are not captured.
- Seeding (line 25), console printing and TensorBoard logging (lines 100-103, 121-130, 147-148): these are output only.
- Tensor mathematics: the forward pass, `CrossEntropyLoss`, `propagate_bounds`, `bounds_logits`, the `abs().max` temperature rescaling and `compute_accuracy` are uninterpreted functions, because they are floating-point tensor code.
- Gradients and the SGD update are not modelled in detail. The trainable state is one opaque value: the network's parameters and buffers (batch-norm running statistics included) together with the optimizer's momentum buffers. After each closure evaluation it moves by the opaque function `Settings.sgd` of the learning rate, that state, the batch and the returned loss. So a training-mode forward pass that moves batch-norm statistics is folded into that one update, and the model does not say how momentum or weight decay enter it.
- `ptb/train/utils.py` is not part of this model.
  - `AverageMeter` is modelled as a weighted `(sum, count)` accumulator whose `avg` is 0 before any update. Its `val` field and format strings are not modelled.
  - `get_device_order` and `manual_seed` are left out.
- The NaN test `train_loss != train_loss` (line 144) is the abstract predicate `Settings.selfUnequal` on the training loss meter's tally. Its outcome depends on `AverageMeter`'s comparison and on float semantics, which are not modelled.
- Wall-clock time: the k-th `time()` returns the clock's k-th reading, a function given to `Clock`.
- Loaders: the k-th iteration of a loader yields a sequence of batches, a function given to `Loader`. A training loader that reshuffles gives a different sequence on each iteration through `draw`. The random order itself and the worker processes are not modelled.
- Files:
  - `torch.load` is an optional checkpoint record passed in (`Option<Checkpoint>`), and a resume path that does not exist is `None`;
  - `torch.save` appends to `Disk.saved`;
  - the state dict's key names are not modelled.
- Paths: `Settings.checkpointPath` is the checkpoint path after normalisation, with `""` standing for `Path()`. So `"."` and `"./"`, which equal `Path()`, are given as `""` and write no checkpoint, as at line 135.
- Learning rates are `Lr(base, decay)`, meaning `base * 0.1^decay`, with an integer decay exponent instead of a float. The optimizer state a checkpoint stores is its learning rate; the momentum buffers travel inside the trainable state.
- `input_range` (lines 45-47) is the real parameter `Settings.inputRange`; the loss receives `epsilon * input_range` (line 69).
- Training.EpochLoop: the total number of clock readings over several epochs is not stated, and neither is it for Training.TrainClassifier; Training.NextEpoch states each epoch's count.
- Training.EpochLoop: the printed `lr` variable is kept and updated as at lines 104-108, but it is not exposed beyond the round that updates it.
- Engine.OneEpoch: `first_time` is modelled, and so is the closure as an object the optimizer calls. Python's closure capture of the loop variables is not modelled beyond that: each closure holds its own batch.
