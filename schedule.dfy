/**
  The decisions train_classifier makes from epoch to epoch, as functions of
  what each epoch's passes report: the step learning-rate schedule, the
  best-accuracy tracking and the checkpoint decision.
  The method Training.TrainClassifier is proved to follow them.
 */
module Schedule {
  import opened Collaborators

  /** A learning rate base * 0.1^decay, kept as its base and integer decay exponent. */
  datatype Lr = Lr(base: real, decay: nat)

  /** 0.1^d. */
  function Tenth(d: nat): (r: real)
    ensures 0.0 < r <= 1.0
  {
    if d == 0 then 1.0 else 0.1 * Tenth(d - 1)
  }

  /** The real learning rate an Lr stands for. */
  function LrValue(lr: Lr): real
  {
    lr.base * Tenth(lr.decay)
  }

  /** get_lr(epoch): the initial learning rate, divided by 10 once for every
      thirty epochs completed. */
  function GetLr(learningRate: real, epoch: nat): (r: Lr)
    ensures LrValue(r) == learningRate * Tenth(epoch / 30)
  {
    Lr(learningRate, epoch / 30)
  }

  /** The learning rate the optimizer holds during epoch e when it held
      `current` before: get_lr(e) is written into it when e is a multiple of
      30, and it is left alone otherwise. */
  function EpochLr(learningRate: real, e: nat, current: Lr): (r: Lr)
    ensures e % 30 == 0 ==> r == GetLr(learningRate, e)
    ensures e % 30 != 0 ==> r == current
  {
    if e % 30 == 0 then GetLr(learningRate, e) else current
  }

  /** A checkpoint record: the epoch to resume from, the weights, the best
      top-1 accuracy so far and the optimizer's state (its learning rate). */
  datatype Checkpoint = Checkpoint(epoch: nat, weights: Weights, bestAcc1: real, lr: Lr)

  /** What an epoch's passes report to the orchestrator: the validation top-1
      average, whether the training loss failed the self-equality test, and the
      weights a checkpoint would store. */
  datatype EpochReport = EpochReport(valAcc: real, diverged: bool, weights: Weights)

  /** The orchestrator's state between epochs: best_acc1, the optimizer's
      learning rate and the checkpoints written. */
  datatype RunState = RunState(best: real, optLr: Lr, saved: seq<Checkpoint>)

  /** The settings of train_classifier that the epoch loop consults; the
      checkpoint path is normalised, "" standing for Path(). */
  datatype Plan = Plan(learningRate: real, checkpointPath: string)

  /** One iteration of the epoch loop, epoch e, after its passes reported r. */
  function EpochStep(plan: Plan, s: RunState, e: nat, r: EpochReport): (after: RunState)
    ensures after.optLr == EpochLr(plan.learningRate, e, s.optLr)
    ensures after.best >= s.best && after.best >= r.valAcc
    ensures after.best == s.best || after.best == r.valAcc
    ensures s.saved <= after.saved && |after.saved| <= |s.saved| + 1
  {
    var lr := EpochLr(plan.learningRate, e, s.optLr);
    var improved := r.valAcc >= s.best;
    var best := if improved then r.valAcc else s.best;
    var saved := if improved && plan.checkpointPath != ""
                 then s.saved + [Checkpoint(e + 1, r.weights, best, lr)]
                 else s.saved;
    RunState(best, lr, saved)
  }

  /** The state after the first n of the epochs start, start + 1, ...,
      which reported rs, in order. */
  function Run(plan: Plan, init: RunState, start: nat, rs: seq<EpochReport>, n: nat): (s: RunState)
    requires n <= |rs|
    ensures init.saved <= s.saved && |s.saved| <= |init.saved| + n
  {
    if n == 0 then init
    else EpochStep(plan, Run(plan, init, start, rs, n - 1), start + n - 1, rs[n - 1])
  }

  /** Reports after the n-th do not change the state after n epochs. */
  lemma {:induction false} RunPrefix(plan: Plan, init: RunState, start: nat, rs: seq<EpochReport>, more: seq<EpochReport>, n: nat)
    requires n <= |rs|
    ensures Run(plan, init, start, rs + more, n) == Run(plan, init, start, rs, n)
  {
    if n > 0 {
      assert (rs + more)[n - 1] == rs[n - 1];
      RunPrefix(plan, init, start, rs, more, n - 1);
    }
  }

  /** One more epoch extends a run by one step. */
  lemma RunExtend(plan: Plan, init: RunState, start: nat, rs: seq<EpochReport>, r: EpochReport)
    ensures Run(plan, init, start, rs + [r], |rs| + 1)
         == EpochStep(plan, Run(plan, init, start, rs, |rs|), start + |rs|, r)
  {
    RunPrefix(plan, init, start, rs, [r], |rs|);
  }

  // ---------------------------------------------------------------------------
  // The learning rate schedule

  /** Thirty epochs on, the learning rate is a tenth of what it was. */
  lemma DecayEveryThirtyEpochs(learningRate: real, e: nat)
    ensures LrValue(GetLr(learningRate, e + 30)) == 0.1 * LrValue(GetLr(learningRate, e))
  {
    assert (e + 30) / 30 == e / 30 + 1;
  }

  /** Within a block of thirty epochs the learning rate stays the same: it
      changes only on entering an epoch that is a multiple of 30. */
  lemma SameLrWithinDecade(learningRate: real, e: nat)
    requires (e + 1) % 30 != 0
    ensures GetLr(learningRate, e + 1) == GetLr(learningRate, e)
  {
  }

  /** What a run must start from for its learning rates to follow get_lr:
      either its first epoch sets the rate itself, or the restored optimizer
      already holds get_lr(start). */
  predicate ResumesOnSchedule(plan: Plan, init: RunState, start: nat)
  {
    start % 30 == 0 || init.optLr == GetLr(plan.learningRate, start)
  }

  /** After the first n epochs the optimizer holds the learning rate of the
      last of them. */
  lemma {:induction false} OptimizerLrFollowsSchedule(plan: Plan, init: RunState, start: nat, rs: seq<EpochReport>, n: nat)
    requires n <= |rs| && ResumesOnSchedule(plan, init, start)
    ensures n > 0 ==> Run(plan, init, start, rs, n).optLr == GetLr(plan.learningRate, start + n - 1)
    ensures n == 0 ==> Run(plan, init, start, rs, n).optLr == init.optLr
  {
    if n > 1 {
      OptimizerLrFollowsSchedule(plan, init, start, rs, n - 1);
      if (start + n - 1) % 30 != 0 {
        SameLrWithinDecade(plan.learningRate, start + n - 2);
      }
    }
  }

  /** A checkpoint that lets a run resume on schedule. */
  predicate ResumableOnSchedule(plan: Plan, c: Checkpoint)
  {
    c.epoch % 30 == 0 || c.lr == GetLr(plan.learningRate, c.epoch)
  }

  /** Every checkpoint a run on schedule writes lets a later run resume on
      schedule: it stores get_lr of the epoch it resumes at, or that epoch is
      a multiple of 30. */
  lemma {:induction false} WrittenCheckpointsResumeOnSchedule(plan: Plan, init: RunState, start: nat, rs: seq<EpochReport>, n: nat)
    requires n <= |rs| && ResumesOnSchedule(plan, init, start)
    ensures var saved := Run(plan, init, start, rs, n).saved;
            forall j :: |init.saved| <= j < |saved| ==> ResumableOnSchedule(plan, saved[j])
  {
    if n > 0 {
      WrittenCheckpointsResumeOnSchedule(plan, init, start, rs, n - 1);
      assert var saved := Run(plan, init, start, rs, n - 1).saved;
             forall j :: |init.saved| <= j < |saved| ==> ResumableOnSchedule(plan, saved[j]);
      OptimizerLrFollowsSchedule(plan, init, start, rs, n);
      var e := start + n - 1;
      if (e + 1) % 30 != 0 {
        SameLrWithinDecade(plan.learningRate, e);
      }
    }
  }

  /** A run that resumes between two multiples of 30 keeps the restored
      learning rate until the next multiple of 30, whatever learning rate it
      was given. */
  lemma {:induction false} RestoredLrKeptWithinDecade(plan: Plan, init: RunState, start: nat, rs: seq<EpochReport>, n: nat)
    requires n <= |rs| && start % 30 != 0 && start % 30 + n <= 30
    ensures Run(plan, init, start, rs, n).optLr == init.optLr
  {
    if n > 0 {
      RestoredLrKeptWithinDecade(plan, init, start, rs, n - 1);
      NotMultipleWithinDecade(start, n - 1);
    }
  }

  /** The epochs after one that is not a multiple of 30, up to the next multiple, are not multiples of 30 either. */
  lemma NotMultipleWithinDecade(start: nat, i: nat)
    requires start % 30 != 0 && start % 30 + i < 30
    ensures (start + i) % 30 != 0
  {
    var q, k := start / 30, start % 30;
    assert start + i == 30 * q + (k + i);
  }

  /** A checkpoint at epoch 45 written by a run with learning rate 0.1 stores
      get_lr(45) = 0.1 * 0.1 and resumes that run on schedule, but a resume
      from it with learning rate 0.5 does not: it trains epochs 45 to 59 at
      0.01, not at get_lr(45) = 0.05. */
  lemma ChangedLrResumesOffSchedule(w: Weights, best: real, path: string, saved: seq<Checkpoint>, rs: seq<EpochReport>)
    requires |rs| == 15
    ensures var c := Checkpoint(45, w, best, GetLr(0.1, 45));
            && ResumableOnSchedule(Plan(0.1, path), c)
            && !ResumableOnSchedule(Plan(0.5, path), c)
            && Run(Plan(0.5, path), RunState(best, c.lr, saved), 45, rs, 15).optLr == GetLr(0.1, 45) != GetLr(0.5, 45)
  {
    RestoredLrKeptWithinDecade(Plan(0.5, path), RunState(best, GetLr(0.1, 45), saved), 45, rs, 15);
  }

  // ---------------------------------------------------------------------------
  // Best accuracy and checkpoints

  /** best_acc1 is the maximum of its starting value and the validation
      accuracies reported so far. */
  lemma {:induction false} BestIsMaximum(plan: Plan, init: RunState, start: nat, rs: seq<EpochReport>, n: nat)
    requires n <= |rs|
    ensures var best := Run(plan, init, start, rs, n).best;
            && best >= init.best
            && (forall i :: 0 <= i < n ==> best >= rs[i].valAcc)
            && (best == init.best || exists i :: 0 <= i < n && best == rs[i].valAcc)
  {
    if n > 0 {
      BestIsMaximum(plan, init, start, rs, n - 1);
    }
  }

  /** best_acc1 never decreases from one epoch to a later one. */
  lemma {:induction false} BestNeverDecreases(plan: Plan, init: RunState, start: nat, rs: seq<EpochReport>, m: nat, n: nat)
    requires m <= n <= |rs|
    ensures Run(plan, init, start, rs, m).best <= Run(plan, init, start, rs, n).best
  {
    if m < n {
      BestNeverDecreases(plan, init, start, rs, m, n - 1);
    }
  }

  /** Epoch start + i writes a checkpoint if and only if its validation
      accuracy reaches the best so far and a checkpoint path was given; the
      record then resumes at the next epoch and holds the updated best
      accuracy, the weights and the optimizer's learning rate. */
  lemma CheckpointWrittenIff(plan: Plan, init: RunState, start: nat, rs: seq<EpochReport>, i: nat)
    requires i < |rs|
    ensures var before := Run(plan, init, start, rs, i);
            var after := Run(plan, init, start, rs, i + 1);
            var written := rs[i].valAcc >= before.best && plan.checkpointPath != "";
            && (written ==> after.saved == before.saved + [Checkpoint(start + i + 1, rs[i].weights, after.best, after.optLr)])
            && (!written ==> after.saved == before.saved)
            && (written ==> after.best == rs[i].valAcc)
  {
  }

  /** The epochs of a sequence of checkpoints strictly increase. */
  predicate EpochsIncrease(saved: seq<Checkpoint>)
  {
    forall i, j :: 0 <= i < j < |saved| ==> saved[i].epoch < saved[j].epoch
  }

  /** Checkpoints are written in the order of their epochs, each after all
      earlier ones, and none is ahead of the epochs run. */
  lemma {:induction false} SavedEpochsIncrease(plan: Plan, init: RunState, start: nat, rs: seq<EpochReport>, n: nat)
    requires n <= |rs|
    requires EpochsIncrease(init.saved) && forall c :: c in init.saved ==> c.epoch <= start
    ensures var saved := Run(plan, init, start, rs, n).saved;
            && init.saved <= saved
            && EpochsIncrease(saved)
            && forall c :: c in saved ==> c.epoch <= start + n
  {
    if n > 0 {
      SavedEpochsIncrease(plan, init, start, rs, n - 1);
      var before := Run(plan, init, start, rs, n - 1).saved;
      var after := Run(plan, init, start, rs, n).saved;
      if after != before {
        AppendLaterEpoch(before, after[|after| - 1]);
      }
    }
  }

  /** A checkpoint later than all before it keeps the epochs increasing. */
  lemma AppendLaterEpoch(saved: seq<Checkpoint>, c: Checkpoint)
    requires EpochsIncrease(saved) && forall x :: x in saved ==> x.epoch < c.epoch
    ensures EpochsIncrease(saved + [c])
  {
    forall i, j | 0 <= i < j < |saved + [c]|
      ensures (saved + [c])[i].epoch < (saved + [c])[j].epoch
    {
      if j == |saved| {
        assert (saved + [c])[i] == saved[i] && saved[i] in saved;
      }
    }
  }

  /** With a checkpoint path, the last checkpoint written holds the final
      best accuracy: best_acc1 only changes in an epoch that writes one. */
  lemma {:induction false} LastCheckpointHoldsBest(plan: Plan, init: RunState, start: nat, rs: seq<EpochReport>, n: nat)
    requires n <= |rs| && plan.checkpointPath != ""
    ensures var s := Run(plan, init, start, rs, n);
            |s.saved| > |init.saved| ==> s.saved[|s.saved| - 1].bestAcc1 == s.best
  {
    if n > 0 {
      LastCheckpointHoldsBest(plan, init, start, rs, n - 1);
    }
  }
}
