/**
  train_classifier: optionally resume from a checkpoint, validate once,
  return when only evaluating, and otherwise train epoch by epoch with the
  step learning-rate schedule, remembering the best validation accuracy,
  writing a checkpoint whenever it is reached, and stopping after the first
  epoch whose training loss is NaN.

  An epoch is described twice: by what its two passes of one_epoch do to the
  trainer's state and what they report (EpochResult, built on EpochSpec), and
  by what the loop decides from that report (Schedule.EpochStep). The method
  TrainClassifier is proved to run, from the state the baseline validation
  leaves, a chain of epochs each as EpochResult describes, and to take the
  decisions Schedule.Run describes on the reports those epochs produce.
 */
module Training {
  import opened Collaborators
  import opened Meters
  import opened EpochSpec
  import opened Schedule
  import opened Engine

  datatype Option<T> = None | Some(value: T)

  /** Where torch.save writes: the checkpoints written, in order. */
  class Disk {
    var saved: seq<Checkpoint>

    constructor ()
      ensures saved == []
    {
      saved := [];
    }

    /** torch.save(record, checkpoint). */
    method Save(c: Checkpoint)
      modifies this
      ensures saved == old(saved) + [c]
    {
      saved := saved + [c];
    }
  }

  /** The arguments of train_classifier that the model keeps. */
  datatype Settings = Settings(
    learningRate: real,
    epsilon: real,
    factor: real,
    temperature: real,
    // the mean input range of the dataset's normalisation, which scales epsilon
    inputRange: real,
    epochs: nat,
    // the normalised checkpoint path: "" stands for Path(), and so for "." and "./" too
    checkpointPath: string,
    // one SGD update (momentum and weight decay included): the trainable state
    // after an evaluation, from the learning rate, the trainable state, the
    // batch and the loss
    sgd: (Lr, Weights, Batch, real) -> Weights,
    // `train_loss != train_loss` on the training loss meter
    selfUnequal: Tally -> bool)

  function PlanOf(s: Settings): Plan
  {
    Plan(s.learningRate, s.checkpointPath)
  }

  /** The settings one_epoch receives from `process`. */
  function LossConfigOf(s: Settings): (cfg: LossConfig)
    ensures cfg.epsilon == s.epsilon * s.inputRange && cfg.factor == s.factor && cfg.temperature == s.temperature
    ensures s.inputRange > 0.0 ==> (RobustTermEnabled(cfg) <==> s.epsilon > 0.0 && s.factor > 0.0)
  {
    LossConfig(s.epsilon * s.inputRange, s.factor, s.temperature)
  }

  /** The NaN test of a training loss meter. */
  predicate Diverged(s: Settings, t: Tally): (nan: bool)
    ensures nan <==> s.selfUnequal(t)
  {
    s.selfUnequal(t)
  }

  /** SGD hands the closure to a single evaluation on every step. */
  function OneEvaluation(step: nat): nat
  {
    1
  }

  /** The epoch the loop starts at: the checkpoint's when resuming, 0 otherwise. */
  function StartEpoch(resume: Option<Checkpoint>): (e: nat)
    ensures resume.None? ==> e == 0
    ensures resume.Some? ==> e == resume.value.epoch
  {
    if resume.Some? then resume.value.epoch else 0
  }

  /** The decision state the epoch loop starts from: the resumed best
      accuracy and optimizer learning rate (0 and the initial learning rate
      otherwise) and the checkpoints already on disk. */
  function InitialState(s: Settings, resume: Option<Checkpoint>, saved: seq<Checkpoint>): (init: RunState)
    ensures init.saved == saved
    ensures resume.None? ==> init.best == 0.0 && init.optLr == GetLr(s.learningRate, 0)
    ensures resume.Some? ==> init.best == resume.value.bestAcc1 && init.optLr == resume.value.lr
  {
    match resume
    case None => RunState(0.0, Lr(s.learningRate, 0), saved)
    case Some(c) => RunState(c.bestAcc1, c.lr, saved)
  }

  /** A fresh run starts on schedule, and so does one resumed from any
      checkpoint that a run on schedule wrote. */
  lemma ResumeOnSchedule(s: Settings, resume: Option<Checkpoint>, saved: seq<Checkpoint>)
    requires resume.Some? ==> ResumableOnSchedule(PlanOf(s), resume.value)
    ensures ResumesOnSchedule(PlanOf(s), InitialState(s, resume, saved), StartEpoch(resume))
  {
  }

  // ---------------------------------------------------------------------------
  // What the passes of an epoch do

  /** What the passes of train_classifier read and change besides their own
      meters and the clock: the trainable state, the network's call log, the
      optimizer's step count and learning rate, and how often each loader
      has been iterated. */
  datatype Trainer = Trainer(weights: Weights, events: seq<Event>, steps: nat,
                             trainIters: nat, valIters: nat, lr: Lr)

  /** The trainer state these objects hold. */
  ghost function TrainerOf(net: Network, optimizer: Optimizer, trainLoader: Loader, valLoader: Loader): Trainer
    reads net, optimizer, trainLoader, valLoader
  {
    Trainer(net.weights, net.events, optimizer.steps, trainLoader.iterations, valLoader.iterations, optimizer.lr)
  }

  /** process(val_loader) from trainer t: the network and metric meters after
      a pass without optimizer over the loader's next iteration. */
  function ValidationState(s: Settings, env: Collaborators, valLoader: Loader, t: Trainer): PassState
  {
    var vbs := valLoader.draw(t.valIters);
    StateAfter(PassContext(env, LossConfigOf(s), false, KeepWeights, NoLr),
               PassState(t.weights, t.events, Empty, Empty, Empty), vbs, ClosureCalls(null, 0, |vbs|), |vbs|)
  }

  /** The trainer after that validation pass; the pass never moves the weights. */
  function Validated(s: Settings, env: Collaborators, valLoader: Loader, t: Trainer): (after: Trainer)
    ensures after.weights == t.weights && after.valIters == t.valIters + 1
    ensures after.steps == t.steps && after.trainIters == t.trainIters && after.lr == t.lr
  {
    var vbs := valLoader.draw(t.valIters);
    var ctx := PassContext(env, LossConfigOf(s), false, KeepWeights, NoLr);
    var s0 := PassState(t.weights, t.events, Empty, Empty, Empty);
    var val := ValidationState(s, env, valLoader, t);
    StateAfterAccounts(ctx, s0, vbs, ClosureCalls(null, 0, |vbs|), |vbs|);
    EvaluationKeepsWeights(ctx, t.weights, vbs, ClosureCalls(null, 0, |vbs|), |vbs|);
    Trainer(val.weights, val.events, t.steps, t.trainIters, t.valIters + 1, t.lr)
  }

  /** process(train_loader, optimizer) from trainer t, at the optimizer's
      learning rate t.lr: the network and metric meters after a training pass
      over the loader's next iteration. */
  function TrainingState(s: Settings, env: Collaborators, optimizer: Optimizer, trainLoader: Loader, t: Trainer): PassState
  {
    var tbs := trainLoader.draw(t.trainIters);
    StateAfter(PassContext(env, LossConfigOf(s), true, optimizer.adjust, t.lr),
               PassState(t.weights, t.events, Empty, Empty, Empty), tbs, ClosureCalls(optimizer, t.steps, |tbs|), |tbs|)
  }

  /** The trainer after that training pass: one optimizer step per batch. */
  function Trained(s: Settings, env: Collaborators, optimizer: Optimizer, trainLoader: Loader, t: Trainer): (after: Trainer)
    ensures var train := TrainingState(s, env, optimizer, trainLoader, t);
            after.weights == train.weights && after.events == train.events
    ensures after.steps == t.steps + |trainLoader.draw(t.trainIters)|
    ensures after.trainIters == t.trainIters + 1 && after.valIters == t.valIters && after.lr == t.lr
  {
    var train := TrainingState(s, env, optimizer, trainLoader, t);
    Trainer(train.weights, train.events, t.steps + |trainLoader.draw(t.trainIters)|,
            t.trainIters + 1, t.valIters, t.lr)
  }

  /** The two passes of an epoch from trainer t: what they report (the
      validation top-1 average, the NaN test of the training loss meter and
      the trainable state a checkpoint would store) and the trainer after them. */
  function EpochPasses(s: Settings, env: Collaborators, optimizer: Optimizer, trainLoader: Loader,
                       valLoader: Loader, t: Trainer): (result: (EpochReport, Trainer))
    ensures var train := TrainingState(s, env, optimizer, trainLoader, t);
            && result.0.weights == result.1.weights == train.weights
            && result.0.diverged == Diverged(s, train.losses)
    ensures var trained := Trained(s, env, optimizer, trainLoader, t);
            result.0.valAcc == ValidationState(s, env, valLoader, trained).top1.Mean()
    ensures result.1.steps == t.steps + |trainLoader.draw(t.trainIters)| && result.1.lr == t.lr
    ensures result.1.trainIters == t.trainIters + 1 && result.1.valIters == t.valIters + 1
  {
    var trained := Trained(s, env, optimizer, trainLoader, t);
    var validated := Validated(s, env, valLoader, trained);
    (EpochReport(ValidationState(s, env, valLoader, trained).top1.Mean(),
                 Diverged(s, TrainingState(s, env, optimizer, trainLoader, t).losses),
                 validated.weights),
     validated)
  }

  /** Epoch e from trainer t: the learning rate update, then both passes at
      the new rate. The epoch trains at that rate, iterates each loader once,
      and reports, and leaves, the trainable state its training pass produced. */
  function EpochResult(s: Settings, env: Collaborators, optimizer: Optimizer, trainLoader: Loader,
                       valLoader: Loader, t: Trainer, e: nat): (result: (EpochReport, Trainer))
    ensures result.1.lr == EpochLr(s.learningRate, e, t.lr)
    ensures result.1.trainIters == t.trainIters + 1 && result.1.valIters == t.valIters + 1
    ensures var train := TrainingState(s, env, optimizer, trainLoader, t.(lr := result.1.lr));
            && result.0.weights == result.1.weights == train.weights
            && result.0.diverged == Diverged(s, train.losses)
  {
    EpochPasses(s, env, optimizer, trainLoader, valLoader, t.(lr := EpochLr(s.learningRate, e, t.lr)))
  }

  /** Epoch start + i from trainers[i]. */
  function EpochAt(s: Settings, env: Collaborators, optimizer: Optimizer, trainLoader: Loader,
                   valLoader: Loader, start: nat, trainers: seq<Trainer>, i: nat): (EpochReport, Trainer)
    requires i < |trainers|
  {
    EpochResult(s, env, optimizer, trainLoader, valLoader, trainers[i], start + i)
  }

  /** trainers[i] is the trainer before epoch start + i, and that epoch, as
      EpochResult describes it, reported reports[i] and left trainers[i + 1]. */
  predicate EpochsFrom(s: Settings, env: Collaborators, optimizer: Optimizer, trainLoader: Loader,
                       valLoader: Loader, start: nat, trainers: seq<Trainer>, reports: seq<EpochReport>)
  {
    && |trainers| == |reports| + 1
    && forall i {:trigger EpochAt(s, env, optimizer, trainLoader, valLoader, start, trainers, i)} :: 0 <= i < |reports| ==>
         EpochAt(s, env, optimizer, trainLoader, valLoader, start, trainers, i) == (reports[i], trainers[i + 1])
  }

  lemma EpochsFromExtend(s: Settings, env: Collaborators, optimizer: Optimizer, trainLoader: Loader,
                         valLoader: Loader, start: nat, trainers: seq<Trainer>, reports: seq<EpochReport>,
                         r: EpochReport, t: Trainer)
    requires EpochsFrom(s, env, optimizer, trainLoader, valLoader, start, trainers, reports)
    requires EpochResult(s, env, optimizer, trainLoader, valLoader, trainers[|reports|], start + |reports|) == (r, t)
    ensures EpochsFrom(s, env, optimizer, trainLoader, valLoader, start, trainers + [t], reports + [r])
  {
    var ts, rs := trainers + [t], reports + [r];
    forall i | 0 <= i < |rs|
      ensures EpochAt(s, env, optimizer, trainLoader, valLoader, start, ts, i) == (rs[i], ts[i + 1])
    {
      assert ts[i] == trainers[i];
      if i < |reports| {
        assert EpochAt(s, env, optimizer, trainLoader, valLoader, start, trainers, i) == (reports[i], trainers[i + 1]);
        assert ts[i + 1] == trainers[i + 1] && rs[i] == reports[i];
      }
    }
  }

  /** In a chain of epochs that starts on schedule (at a multiple of 30, or
      with the optimizer holding get_lr of the start epoch), the optimizer
      holds get_lr(start + j - 1) after the j-th epoch, whatever the start. */
  lemma {:induction false} OptimizerFollowsSchedule(s: Settings, env: Collaborators, optimizer: Optimizer,
                                                    trainLoader: Loader, valLoader: Loader, start: nat,
                                                    trainers: seq<Trainer>, reports: seq<EpochReport>, n: nat)
    requires EpochsFrom(s, env, optimizer, trainLoader, valLoader, start, trainers, reports) && n <= |reports|
    requires start % 30 == 0 || trainers[0].lr == GetLr(s.learningRate, start)
    ensures forall j :: 1 <= j <= n ==> trainers[j].lr == GetLr(s.learningRate, start + j - 1)
  {
    if n > 0 {
      OptimizerFollowsSchedule(s, env, optimizer, trainLoader, valLoader, start, trainers, reports, n - 1);
      var i := n - 1;
      assert EpochAt(s, env, optimizer, trainLoader, valLoader, start, trainers, i) == (reports[i], trainers[i + 1]);
      if i > 0 && (start + i) % 30 != 0 {
        SameLrWithinDecade(s.learningRate, start + i - 1);
      }
    }
  }

  /** In a chain of epochs that starts on schedule, epoch start + i trains at
      exactly get_lr(start + i): its NaN test and the trainable state it
      reports and leaves are those of a training pass at that rate. */
  lemma EpochTrainsOnSchedule(s: Settings, env: Collaborators, optimizer: Optimizer,
                              trainLoader: Loader, valLoader: Loader, start: nat,
                              trainers: seq<Trainer>, reports: seq<EpochReport>, i: nat)
    requires EpochsFrom(s, env, optimizer, trainLoader, valLoader, start, trainers, reports) && i < |reports|
    requires start % 30 == 0 || trainers[0].lr == GetLr(s.learningRate, start)
    ensures var train := TrainingState(s, env, optimizer, trainLoader,
                                       trainers[i].(lr := GetLr(s.learningRate, start + i)));
            && trainers[i + 1].lr == GetLr(s.learningRate, start + i)
            && reports[i].diverged == Diverged(s, train.losses)
            && reports[i].weights == trainers[i + 1].weights == train.weights
  {
    OptimizerFollowsSchedule(s, env, optimizer, trainLoader, valLoader, start, trainers, reports, |reports|);
    assert trainers[i + 1].lr == GetLr(s.learningRate, start + i + 1 - 1);
    assert EpochAt(s, env, optimizer, trainLoader, valLoader, start, trainers, i) == (reports[i], trainers[i + 1]);
  }

  /** The clock readings one epoch takes: each of its two passes reads the
      clock once before its first batch and three times per batch. */
  function EpochReadings(trainLoader: Loader, valLoader: Loader, trainIter: nat, valIter: nat): nat
  {
    (1 + 3 * |trainLoader.draw(trainIter)|) + (1 + 3 * |valLoader.draw(valIter)|)
  }

  // ---------------------------------------------------------------------------
  // The methods

  /** process(train_loader, optimizer): a training pass; returns the tally
      of its loss meter. */
  method TrainPass(s: Settings, env: Collaborators, net: Network, optimizer: Optimizer,
                   trainLoader: Loader, valLoader: Loader, clock: Clock)
    returns (losses: Tally)
    requires optimizer.net == net && trainLoader != valLoader
    modifies trainLoader`iterations, net`training, net`weights, net`events, optimizer, clock`taken
    ensures optimizer.lr == old(optimizer.lr)
    ensures TrainerOf(net, optimizer, trainLoader, valLoader)
         == Trained(s, env, optimizer, trainLoader, old(TrainerOf(net, optimizer, trainLoader, valLoader)))
    ensures losses == TrainingState(s, env, optimizer, trainLoader, old(TrainerOf(net, optimizer, trainLoader, valLoader))).losses
    ensures net.training && clock.taken == old(clock.taken) + 1 + 3 * |trainLoader.draw(old(trainLoader.iterations))|
  {
    var cfg := LossConfigOf(s);
    assert ContextOf(env, cfg, optimizer, RateOf(optimizer)) == PassContext(env, cfg, true, optimizer.adjust, optimizer.lr);
    var progress := OneEpoch(trainLoader, net, optimizer, env, cfg, clock);
    losses := progress[LossName].Current();
  }

  /** process(val_loader): a validation pass; returns the tally of its top-1
      accuracy meter. */
  method ValidatePass(s: Settings, env: Collaborators, net: Network, optimizer: Optimizer,
                      trainLoader: Loader, valLoader: Loader, clock: Clock)
    returns (top1: Tally)
    requires optimizer.net == net && trainLoader != valLoader
    modifies valLoader`iterations, net`training, net`weights, net`events, clock`taken
    ensures !net.training
    ensures TrainerOf(net, optimizer, trainLoader, valLoader)
         == Validated(s, env, valLoader, old(TrainerOf(net, optimizer, trainLoader, valLoader)))
    ensures top1 == ValidationState(s, env, valLoader, old(TrainerOf(net, optimizer, trainLoader, valLoader))).top1
    ensures clock.taken == old(clock.taken) + 1 + 3 * |valLoader.draw(old(valLoader.iterations))|
  {
    var cfg := LossConfigOf(s);
    assert ContextOf(env, cfg, null, RateOf(null)) == PassContext(env, cfg, false, KeepWeights, NoLr);
    var progress := OneEpoch(valLoader, net, null, env, cfg, clock);
    top1 := progress[Acc1Name].Current();
  }

  /** The training pass and then the validation pass of one epoch, and what
      they report: the validation top-1 average, the NaN test of the
      training loss meter, and the trainable state a checkpoint would store. */
  method RunEpoch(s: Settings, env: Collaborators, net: Network, optimizer: Optimizer,
                  trainLoader: Loader, valLoader: Loader, clock: Clock)
    returns (r: EpochReport)
    requires optimizer.net == net && trainLoader != valLoader
    modifies trainLoader`iterations, valLoader`iterations, net`training, net`weights, net`events
    modifies optimizer, clock`taken
    ensures optimizer.lr == old(optimizer.lr) && !net.training
    ensures (r, TrainerOf(net, optimizer, trainLoader, valLoader))
         == EpochPasses(s, env, optimizer, trainLoader, valLoader, old(TrainerOf(net, optimizer, trainLoader, valLoader)))
    ensures clock.taken == old(clock.taken) + EpochReadings(trainLoader, valLoader, old(trainLoader.iterations), old(valLoader.iterations))
  {
    // train for one epoch and evaluate on validation set
    var trainLoss := TrainPass(s, env, net, optimizer, trainLoader, valLoader, clock);
    var valAcc := ValidatePass(s, env, net, optimizer, trainLoader, valLoader, clock);
    r := EpochReport(valAcc.Mean(), Diverged(s, trainLoss), net.weights);
  }

  /** The set-up of train_classifier: the network in evaluation mode, SGD
      over its parameters at the initial learning rate, and, when resuming,
      the start epoch, best accuracy, trainable state and optimizer learning
      rate of the checkpoint. */
  method Setup(s: Settings, initialWeights: Weights, resume: Option<Checkpoint>)
    returns (net: Network, optimizer: Optimizer, startEpoch: nat, bestAcc1: real)
    ensures fresh(net) && fresh(optimizer) && optimizer.net == net && !net.training
    ensures net.weights == (if resume.Some? then resume.value.weights else initialWeights) && net.events == []
    ensures optimizer.evaluations == OneEvaluation && optimizer.adjust == s.sgd && optimizer.steps == 0
    ensures var init := InitialState(s, resume, []);
            && startEpoch == StartEpoch(resume) && bestAcc1 == init.best && optimizer.lr == init.optLr
  {
    net := new Network(initialWeights);
    optimizer := new Optimizer(net, Lr(s.learningRate, 0), OneEvaluation, s.sgd);

    // optionally resume from a checkpoint
    bestAcc1 := 0.0;
    startEpoch := 0;
    if resume.Some? {
      startEpoch := resume.value.epoch;
      bestAcc1 := resume.value.bestAcc1;
      net.weights := resume.value.weights;
      optimizer.lr := resume.value.lr;
    }
  }

  /** train_classifier(evaluate_only, ...): resume when a checkpoint is
      given, validate, and unless only evaluating, run the epochs from the
      start epoch up to s.epochs, stopping after the first epoch whose
      training loss is NaN. Ghost results: `optimizer` is the SGD optimizer
      created; `trainers[0]` is the state the baseline validation leaves and
      `trainers[i + 1]` the state after the i-th epoch run, which reported
      `reports[i]`; `run` holds the decisions taken (best_acc1, the
      optimizer's learning rate and the checkpoints on disk). */
  method TrainClassifier(evaluateOnly: bool, s: Settings, env: Collaborators, initialWeights: Weights,
                         trainLoader: Loader, valLoader: Loader, clock: Clock, disk: Disk,
                         resume: Option<Checkpoint>)
    returns (ghost reports: seq<EpochReport>, ghost run: RunState, ghost trainers: seq<Trainer>,
             ghost optimizer: Optimizer)
    requires trainLoader != valLoader
    modifies trainLoader`iterations, valLoader`iterations, clock`taken, disk
    ensures optimizer.adjust == s.sgd && optimizer.evaluations == OneEvaluation
    ensures var start := StartEpoch(resume);
            var init := InitialState(s, resume, old(disk.saved));
            && EpochsFrom(s, env, optimizer, trainLoader, valLoader, start, trainers, reports)
            && trainers[0] == Validated(s, env, valLoader,
                                        Trainer(if resume.Some? then resume.value.weights else initialWeights, [], 0,
                                                old(trainLoader.iterations), old(valLoader.iterations), init.optLr))
            && run == Run(PlanOf(s), init, start, reports, |reports|)
            && disk.saved == run.saved && optimizer.lr == run.optLr
            && valLoader.iterations == old(valLoader.iterations) + 1 + |reports|
            && trainLoader.iterations == old(trainLoader.iterations) + |reports|
            && (evaluateOnly ==> reports == [])
            && (!evaluateOnly ==> start + |reports| <= s.epochs || reports == [])
            && (forall i :: 0 <= i < |reports| - 1 ==> !reports[i].diverged)
            && (!evaluateOnly && start + |reports| < s.epochs ==> |reports| > 0 && reports[|reports| - 1].diverged)
  {
    var net, opt, startEpoch, bestAcc1 := Setup(s, initialWeights, resume);
    optimizer := opt;
    ghost var init := InitialState(s, resume, disk.saved);

    // evaluate the model before training
    var valAcc := ValidatePass(s, env, net, opt, trainLoader, valLoader, clock);
    if evaluateOnly {
      reports := [];
      run := init;
      trainers := [TrainerOf(net, opt, trainLoader, valLoader)];
      return;
    }
    reports, run, trainers := EpochLoop(s, env, net, opt, trainLoader, valLoader, clock, disk, startEpoch, bestAcc1, init);
  }

  /** `for epoch in range(start_epoch, epochs)`, stopping after the first
      epoch whose training loss is NaN; `init` is the decision state before
      the first epoch. `trainers` and `reports` are the chain of epochs run,
      from the objects' state on entry to their state on exit. */
  method EpochLoop(s: Settings, env: Collaborators, net: Network, optimizer: Optimizer,
                   trainLoader: Loader, valLoader: Loader, clock: Clock, disk: Disk,
                   startEpoch: nat, bestAcc1: real, ghost init: RunState)
    returns (ghost reports: seq<EpochReport>, ghost run: RunState, ghost trainers: seq<Trainer>)
    requires optimizer.net == net && trainLoader != valLoader
    requires init.best == bestAcc1 && init.optLr == optimizer.lr && init.saved == disk.saved
    modifies trainLoader`iterations, valLoader`iterations, net`training, net`weights, net`events
    modifies optimizer, clock`taken, disk
    ensures EpochsFrom(s, env, optimizer, trainLoader, valLoader, startEpoch, trainers, reports)
    ensures trainers[0] == old(TrainerOf(net, optimizer, trainLoader, valLoader))
    ensures trainers[|reports|] == TrainerOf(net, optimizer, trainLoader, valLoader)
    ensures run == Run(PlanOf(s), init, startEpoch, reports, |reports|)
    ensures disk.saved == run.saved && optimizer.lr == run.optLr
    ensures valLoader.iterations == old(valLoader.iterations) + |reports|
    ensures trainLoader.iterations == old(trainLoader.iterations) + |reports|
    ensures startEpoch + |reports| <= s.epochs || reports == []
    ensures forall i :: 0 <= i < |reports| - 1 ==> !reports[i].diverged
    ensures startEpoch + |reports| < s.epochs ==> |reports| > 0 && reports[|reports| - 1].diverged
    ensures if |reports| == 0 then net.training == old(net.training) else !net.training
  {
    ghost var t0 := TrainerOf(net, optimizer, trainLoader, valLoader);
    ghost var training0 := net.training;
    reports := [];
    run := init;
    trainers := [t0];
    var bestAcc1 := bestAcc1;
    var lr := GetLr(s.learningRate, startEpoch);
    var epoch := startEpoch;
    while epoch < s.epochs
      invariant epoch == startEpoch + |reports| && (reports == [] || epoch <= s.epochs)
      invariant Looped(s, env, net, optimizer, trainLoader, valLoader, disk, startEpoch, init, t0,
                       reports, run, trainers, bestAcc1)
      invariant forall i :: 0 <= i < |reports| ==> !reports[i].diverged
      invariant lr == GetLr(s.learningRate, if epoch == startEpoch then epoch else epoch - 1)
      invariant if |reports| == 0 then net.training == training0 else !net.training
    {
      var r;
      lr, r, bestAcc1, reports, run, trainers :=
        NextEpoch(s, env, net, optimizer, trainLoader, valLoader, clock, disk, startEpoch, init, t0,
                  epoch, lr, bestAcc1, reports, run, trainers);
      epoch := epoch + 1;

      if r.diverged {
        // Training was stopped (reached NaN)
        break;
      }
    }
  }

  /** Where the epoch loop stands after the epochs that reported `reports`,
      on values: `now` is the last trainer of the chain that starts at t0,
      the decisions are Run's on those reports, best_acc1 and the
      checkpoints on disk are Run's, and each loader has been iterated once
      per epoch. */
  ghost predicate Chain(s: Settings, env: Collaborators, optimizer: Optimizer, trainLoader: Loader,
                        valLoader: Loader, start: nat, init: RunState, t0: Trainer, reports: seq<EpochReport>,
                        run: RunState, trainers: seq<Trainer>, bestAcc1: real, now: Trainer, saved: seq<Checkpoint>)
  {
    && EpochsFrom(s, env, optimizer, trainLoader, valLoader, start, trainers, reports)
    && trainers[0] == t0 && trainers[|reports|] == now
    && run == Run(PlanOf(s), init, start, reports, |reports|)
    && run.best == bestAcc1 && run.optLr == now.lr && run.saved == saved
    && now.trainIters == t0.trainIters + |reports| && now.valIters == t0.valIters + |reports|
  }

  /** One more epoch, run as EpochResult describes and decided as EpochStep
      describes, extends the chain. */
  lemma ChainExtend(s: Settings, env: Collaborators, optimizer: Optimizer, trainLoader: Loader,
                    valLoader: Loader, start: nat, init: RunState, t0: Trainer, reports: seq<EpochReport>,
                    run: RunState, trainers: seq<Trainer>, bestAcc1: real, now: Trainer, saved: seq<Checkpoint>,
                    e: nat, r: EpochReport, t: Trainer, best: real, saved': seq<Checkpoint>)
    requires Chain(s, env, optimizer, trainLoader, valLoader, start, init, t0, reports, run, trainers, bestAcc1, now, saved)
    requires e == start + |reports|
    requires EpochResult(s, env, optimizer, trainLoader, valLoader, now, e) == (r, t)
    requires var after := EpochStep(PlanOf(s), run, e, r);
             after.best == best && after.optLr == t.lr && after.saved == saved'
    ensures Chain(s, env, optimizer, trainLoader, valLoader, start, init, t0, reports + [r],
                  EpochStep(PlanOf(s), run, e, r), trainers + [t], best, t, saved')
  {
    EpochsFromExtend(s, env, optimizer, trainLoader, valLoader, start, trainers, reports, r, t);
    RunExtend(PlanOf(s), init, start, reports, r);
  }

  /** Where the epoch loop stands: the objects hold the chain's last trainer. */
  ghost predicate Looped(s: Settings, env: Collaborators, net: Network, optimizer: Optimizer,
                         trainLoader: Loader, valLoader: Loader, disk: Disk, start: nat, init: RunState,
                         t0: Trainer, reports: seq<EpochReport>, run: RunState, trainers: seq<Trainer>,
                         bestAcc1: real)
    reads net, optimizer, trainLoader, valLoader, disk
  {
    Chain(s, env, optimizer, trainLoader, valLoader, start, init, t0, reports, run, trainers, bestAcc1,
          TrainerOf(net, optimizer, trainLoader, valLoader), disk.saved)
  }

  /** One round of the epoch loop, for epoch `epoch`: the chain and the
      decisions grow by that epoch, which reported r. */
  method NextEpoch(s: Settings, env: Collaborators, net: Network, optimizer: Optimizer,
                   trainLoader: Loader, valLoader: Loader, clock: Clock, disk: Disk,
                   startEpoch: nat, ghost init: RunState, ghost t0: Trainer,
                   epoch: nat, lr: Lr, bestAcc1: real,
                   ghost reports: seq<EpochReport>, ghost run: RunState, ghost trainers: seq<Trainer>)
    returns (newLr: Lr, r: EpochReport, best: real,
             ghost reports': seq<EpochReport>, ghost run': RunState, ghost trainers': seq<Trainer>)
    requires optimizer.net == net && trainLoader != valLoader && epoch == startEpoch + |reports|
    requires Looped(s, env, net, optimizer, trainLoader, valLoader, disk, startEpoch, init, t0,
                    reports, run, trainers, bestAcc1)
    modifies trainLoader`iterations, valLoader`iterations, net`training, net`weights, net`events
    modifies optimizer, clock`taken, disk
    ensures Looped(s, env, net, optimizer, trainLoader, valLoader, disk, startEpoch, init, t0,
                   reports', run', trainers', best)
    ensures reports' == reports + [r]
    ensures newLr == if epoch % 30 == 0 then GetLr(s.learningRate, epoch) else lr
    ensures !net.training
    ensures clock.taken == old(clock.taken) + EpochReadings(trainLoader, valLoader, old(trainLoader.iterations), old(valLoader.iterations))
  {
    ghost var now := TrainerOf(net, optimizer, trainLoader, valLoader);
    ghost var saved := disk.saved;
    newLr, r, best := TrainEpoch(s, env, net, optimizer, trainLoader, valLoader, clock, disk, epoch, lr, bestAcc1, run);
    ghost var t := TrainerOf(net, optimizer, trainLoader, valLoader);
    ChainExtend(s, env, optimizer, trainLoader, valLoader, startEpoch, init, t0, reports, run, trainers, bestAcc1,
                now, saved, epoch, r, t, best, disk.saved);
    reports' := reports + [r];
    trainers' := trainers + [t];
    run' := EpochStep(PlanOf(s), run, epoch, r);
  }

  /** The body of the epoch loop for epoch `epoch`: apply the learning rate
      decay, train and validate, then remember the best accuracy and save a
      checkpoint; `run` is the loop's decision state before the epoch and
      `lr` the learning rate last printed. */
  method TrainEpoch(s: Settings, env: Collaborators, net: Network, optimizer: Optimizer,
                    trainLoader: Loader, valLoader: Loader, clock: Clock, disk: Disk,
                    epoch: nat, lr: Lr, bestAcc1: real, ghost run: RunState)
    returns (newLr: Lr, r: EpochReport, best: real)
    requires optimizer.net == net && trainLoader != valLoader
    requires run.best == bestAcc1 && run.optLr == optimizer.lr && run.saved == disk.saved
    modifies trainLoader`iterations, valLoader`iterations, net`training, net`weights, net`events
    modifies optimizer, clock`taken, disk
    ensures (r, TrainerOf(net, optimizer, trainLoader, valLoader))
         == EpochResult(s, env, optimizer, trainLoader, valLoader, old(TrainerOf(net, optimizer, trainLoader, valLoader)), epoch)
    ensures var after := EpochStep(PlanOf(s), run, epoch, r);
            && after.best == best && after.optLr == optimizer.lr && after.saved == disk.saved
    ensures newLr == if epoch % 30 == 0 then GetLr(s.learningRate, epoch) else lr
    ensures !net.training
    ensures clock.taken == old(clock.taken) + EpochReadings(trainLoader, valLoader, old(trainLoader.iterations), old(valLoader.iterations))
  {
    // decay the learning rate by 10 every 30 epochs
    newLr := lr;
    if epoch % 30 == 0 {
      newLr := GetLr(s.learningRate, epoch);
      optimizer.lr := newLr;
    }

    r := RunEpoch(s, env, net, optimizer, trainLoader, valLoader, clock);
    best := Decide(s, disk, r, bestAcc1, epoch, optimizer.lr);
  }

  /** Remember the best top-1 accuracy and save a checkpoint when it is
      reached: the record resumes at the next epoch and holds the trainable
      state, the new best and the optimizer's learning rate. */
  method Decide(s: Settings, disk: Disk, r: EpochReport, bestAcc1: real, epoch: nat, lr: Lr)
    returns (best: real)
    modifies disk
    ensures best == if r.valAcc >= bestAcc1 then r.valAcc else bestAcc1
    ensures disk.saved == if r.valAcc >= bestAcc1 && s.checkpointPath != ""
                          then old(disk.saved) + [Checkpoint(epoch + 1, r.weights, best, lr)]
                          else old(disk.saved)
  {
    best := bestAcc1;
    if r.valAcc >= best {
      best := r.valAcc;
      if s.checkpointPath != "" {
        disk.Save(Checkpoint(epoch + 1, r.weights, best, lr));
      }
    }
  }
}
