/**
  What one pass of one_epoch computes, as functions of its inputs.

  A pass is described by its context (the collaborators, the loss settings,
  whether it trains, and how the optimizer moves the weights after each
  closure evaluation), the weights it starts from, the batches the loader
  yields and, per batch, how many times the closure is evaluated (k >= 0 under
  an optimizer step, exactly 1 when evaluating). The method Engine.OneEpoch is
  proved to leave its meters and the network exactly as these functions say;
  the lemmas below state what the source promises about them.
 */
module EpochSpec {
  import opened Collaborators
  import opened Meters
  import opened Schedule

  /** The calls into the network and optimizer that a closure evaluation makes. */
  datatype Event = Forward | PropagateBounds | ZeroGrad | Backward

  datatype PassContext = PassContext(
    env: Collaborators,
    cfg: LossConfig,
    training: bool,
    // the weights an optimizer step at a learning rate leaves after one
    // evaluation on a batch returned a loss
    adjust: (Lr, Weights, Batch, real) -> Weights,
    // the learning rate in effect during the pass
    lr: Lr)

  /** The weight update of a pass without an optimizer: none. */
  function KeepWeights(lr: Lr, w: Weights, b: Batch, loss: real): Weights
  {
    w
  }

  /** The weights an optimizer step leaves after an evaluation on batch b returned `loss`. */
  function Adjusted(ctx: PassContext, w: Weights, b: Batch, loss: real): Weights
  {
    ctx.adjust(ctx.lr, w, b, loss)
  }

  /** The guard `epsilon > 0 and factor > 0` of the bounds term. */
  predicate RobustTermEnabled(cfg: LossConfig)
  {
    cfg.epsilon > 0.0 && cfg.factor > 0.0
  }

  /** net(inputs) at the given weights, in the pass's mode. */
  function Output(ctx: PassContext, w: Weights, b: Batch): Tensor
  {
    ctx.env.forward(w, ctx.training, b.inputs)
  }

  /** criterion(output, targets): the loss without the bounds term. */
  function StandardLoss(ctx: PassContext, w: Weights, b: Batch): real
  {
    ctx.env.criterion(Output(ctx, w, b), b.targets)
  }

  /** criterion of the worst-case logits, rescaled by temperature and their largest magnitude. */
  function BoundsLoss(ctx: PassContext, w: Weights, b: Batch): real
  {
    var offset := ctx.env.propagateBounds(w, ctx.training, b.inputs, ctx.cfg.epsilon);
    var logits := ctx.env.boundsLogits(Output(ctx, w, b), offset, b.targets);
    ctx.env.criterion(ctx.env.rescale(logits, ctx.cfg.temperature), b.targets)
  }

  /** The loss compute_loss returns for batch b at weights w. */
  function BatchLoss(ctx: PassContext, w: Weights, b: Batch): (r: real)
    ensures !RobustTermEnabled(ctx.cfg) ==> r == StandardLoss(ctx, w, b)
    ensures RobustTermEnabled(ctx.cfg) ==>
              r == StandardLoss(ctx, w, b) + ctx.cfg.factor * BoundsLoss(ctx, w, b)
  {
    var loss := StandardLoss(ctx, w, b);
    if RobustTermEnabled(ctx.cfg) then loss + ctx.cfg.factor * BoundsLoss(ctx, w, b) else loss
  }

  /** The three meters compute_loss updates when asked to. */
  datatype Metric = Loss | Acc1 | Acc5

  /** The value a metric meter receives for batch b at weights w; accuracy is
      always taken on the unperturbed output, never on the bound logits. */
  function MetricValue(ctx: PassContext, m: Metric, w: Weights, b: Batch): real
  {
    match m
    case Loss => BatchLoss(ctx, w, b)
    case Acc1 => ctx.env.accuracy(Output(ctx, w, b), b.targets).0
    case Acc5 => ctx.env.accuracy(Output(ctx, w, b), b.targets).1
  }

  /** The weights after the closure for batch b has been evaluated k times:
      a training step adjusts them after every evaluation, a direct call in
      evaluation mode leaves them alone. */
  function AfterEvaluations(ctx: PassContext, w: Weights, b: Batch, k: nat): Weights
    decreases k
  {
    if k == 0 || !ctx.training then w
    else AfterEvaluations(ctx, Adjusted(ctx, w, b, BatchLoss(ctx, w, b)), b, k - 1)
  }

  /** The weights after the first n batches of bs, batch i having been
      evaluated ks[i] times. */
  function WeightsAfter(ctx: PassContext, w0: Weights, bs: seq<Batch>, ks: seq<nat>, n: nat): Weights
    requires |bs| == |ks| && n <= |bs|
  {
    if n == 0 then w0
    else AfterEvaluations(ctx, WeightsAfter(ctx, w0, bs, ks, n - 1), bs[n - 1], ks[n - 1])
  }

  /** What a metric meter receives from one evaluation of compute_loss at
      weights w: an update weighted by the batch size when metrics are to be
      updated, nothing otherwise. */
  function Recording(ctx: PassContext, m: Metric, w: Weights, b: Batch, updateMetrics: bool): seq<Entry>
  {
    if updateMetrics then [Entry(MetricValue(ctx, m, w, b), b.size)] else []
  }

  /** The updates a metric meter receives over the first n batches: one per
      batch whose closure was evaluated at all, taken at the weights the batch
      started with (the first evaluation), weighted by the batch size. */
  function Recorded(ctx: PassContext, m: Metric, w0: Weights, bs: seq<Batch>, ks: seq<nat>, n: nat): seq<Entry>
    requires |bs| == |ks| && n <= |bs|
  {
    if n == 0 then []
    else
      Recorded(ctx, m, w0, bs, ks, n - 1)
        + Recording(ctx, m, WeightsAfter(ctx, w0, bs, ks, n - 1), bs[n - 1], ks[n - 1] > 0)
  }

  /** The number of the first n batches whose closure was evaluated at least once. */
  function CalledBatches(ks: seq<nat>, n: nat): nat
    requires n <= |ks|
  {
    if n == 0 then 0 else CalledBatches(ks, n - 1) + (if ks[n - 1] > 0 then 1 else 0)
  }

  /** The number of samples in those of the first n batches whose closure was
      evaluated at least once. */
  function CalledSamples(bs: seq<Batch>, ks: seq<nat>, n: nat): nat
    requires |bs| == |ks| && n <= |bs|
  {
    if n == 0 then 0 else CalledSamples(bs, ks, n - 1) + (if ks[n - 1] > 0 then bs[n - 1].size else 0)
  }

  /** The number of samples in the first n batches. */
  function Samples(bs: seq<Batch>, n: nat): nat
    requires n <= |bs|
  {
    if n == 0 then 0 else Samples(bs, n - 1) + bs[n - 1].size
  }

  /** The number of closure evaluations over the first n batches. */
  function Sum(ks: seq<nat>, n: nat): nat
    requires n <= |ks|
  {
    if n == 0 then 0 else Sum(ks, n - 1) + ks[n - 1]
  }

  /** The data_time meter after n batches, starting from tally t0, for a
      clock whose k-th reading is readings(k): reading c0 is the `end` taken
      before the loop and each batch reads the clock three times (data
      loaded, batch done, new end); data_time receives loaded - end. */
  function DataTimes(t0: Tally, readings: nat -> real, c0: nat, n: nat): Tally
  {
    if n == 0 then t0
    else DataTimes(t0, readings, c0, n - 1).Add(readings(c0 + 3 * (n - 1) + 1) - readings(c0 + 3 * (n - 1)), 1)
  }

  /** The batch_time meter after n batches, under the same clock discipline;
      batch_time receives done - end. */
  function BatchTimes(t0: Tally, readings: nat -> real, c0: nat, n: nat): Tally
  {
    if n == 0 then t0
    else BatchTimes(t0, readings, c0, n - 1).Add(readings(c0 + 3 * (n - 1) + 2) - readings(c0 + 3 * (n - 1)), 1)
  }

  /** The collaborator calls of one closure evaluation. */
  function CallEvents(ctx: PassContext): seq<Event>
  {
    [Forward]
      + (if RobustTermEnabled(ctx.cfg) then [PropagateBounds] else [])
      + (if ctx.training then [ZeroGrad, Backward] else [])
  }

  function Repeat(es: seq<Event>, k: nat): seq<Event>
  {
    if k == 0 then [] else Repeat(es, k - 1) + es
  }

  /** The collaborator calls over the first n batches, batch i being evaluated ks[i] times. */
  function PassEvents(ctx: PassContext, ks: seq<nat>, n: nat): seq<Event>
    requires n <= |ks|
  {
    if n == 0 then [] else PassEvents(ctx, ks, n - 1) + Repeat(CallEvents(ctx), ks[n - 1])
  }

  /** What a metric meter holds after one evaluation of compute_loss at
      weights w: one more update, weighted by the batch size, when metrics are
      to be updated; the same tally otherwise. */
  function Record(t: Tally, ctx: PassContext, m: Metric, w: Weights, b: Batch, updateMetrics: bool): Tally
  {
    if updateMetrics then t.Add(MetricValue(ctx, m, w, b), b.size) else t
  }

  /** What one batch of a pass changes: the network's weights and call log
      and the three metric meters. */
  datatype PassState = PassState(weights: Weights, events: seq<Event>, losses: Tally, top1: Tally, top5: Tally)

  /** k evaluations of the closure of batch b from state s, its first_time
      flag being `first`: the optimizer adjusts the weights after each
      evaluation, every evaluation makes the collaborator calls, and only the
      first evaluation of a fresh closure records the metrics, at the weights
      the batch started with. */
  function BatchStep(ctx: PassContext, s: PassState, b: Batch, k: nat, first: bool): (r: PassState)
    ensures var n := if first && k > 0 then b.size else 0;
            && r.losses.count == s.losses.count + n
            && r.top1.count == s.top1.count + n
            && r.top5.count == s.top5.count + n
    ensures !ctx.training ==> r.weights == s.weights
  {
    var counted := first && k > 0;
    PassState(AfterEvaluations(ctx, s.weights, b, k),
              s.events + Repeat(CallEvents(ctx), k),
              Record(s.losses, ctx, Loss, s.weights, b, counted),
              Record(s.top1, ctx, Acc1, s.weights, b, counted),
              Record(s.top5, ctx, Acc5, s.weights, b, counted))
  }

  /** The state after the first n batches, batch i's fresh closure being
      evaluated ks[i] times. */
  function StateAfter(ctx: PassContext, s0: PassState, bs: seq<Batch>, ks: seq<nat>, n: nat): (s: PassState)
    requires |bs| == |ks| && n <= |bs|
    ensures s.losses.count == s0.losses.count + CalledSamples(bs, ks, n)
    ensures s.top1.count == s0.top1.count + CalledSamples(bs, ks, n)
    ensures s.top5.count == s0.top5.count + CalledSamples(bs, ks, n)
    ensures !ctx.training ==> s.weights == s0.weights
  {
    if n == 0 then s0 else BatchStep(ctx, StateAfter(ctx, s0, bs, ks, n - 1), bs[n - 1], ks[n - 1], true)
  }

  /** A meter's tally follows its log of updates. */
  lemma RecordExtendsLog(t: Tally, us: seq<Entry>, ctx: PassContext, m: Metric, w: Weights, b: Batch, c: bool)
    ensures Record(t.AddAll(us), ctx, m, w, b, c) == t.AddAll(us + Recording(ctx, m, w, b, c))
  {
    if c {
      AddAllAppendOne(t, us, Entry(MetricValue(ctx, m, w, b), b.size));
    } else {
      assert us + [] == us;
    }
  }

  /** Batch by batch, the pass leaves the weights, the call log and each
      metric meter as the per-quantity accounts WeightsAfter, PassEvents and
      Recorded say: each meter's tally is its starting tally plus the updates
      Recorded lists. */
  lemma {:induction false} StateAfterAccounts(ctx: PassContext, s0: PassState, bs: seq<Batch>, ks: seq<nat>, n: nat)
    requires |bs| == |ks| && n <= |bs|
    ensures var s := StateAfter(ctx, s0, bs, ks, n);
            && s.weights == WeightsAfter(ctx, s0.weights, bs, ks, n)
            && s.events == s0.events + PassEvents(ctx, ks, n)
            && s.losses == s0.losses.AddAll(Recorded(ctx, Loss, s0.weights, bs, ks, n))
            && s.top1 == s0.top1.AddAll(Recorded(ctx, Acc1, s0.weights, bs, ks, n))
            && s.top5 == s0.top5.AddAll(Recorded(ctx, Acc5, s0.weights, bs, ks, n))
  {
    if n == 0 {
      assert s0.events + [] == s0.events;
    } else {
      StateAfterAccounts(ctx, s0, bs, ks, n - 1);
      var w := WeightsAfter(ctx, s0.weights, bs, ks, n - 1);
      var r := Repeat(CallEvents(ctx), ks[n - 1]);
      assert s0.events + PassEvents(ctx, ks, n - 1) + r == s0.events + (PassEvents(ctx, ks, n - 1) + r);
      var c := ks[n - 1] > 0;
      RecordExtendsLog(s0.losses, Recorded(ctx, Loss, s0.weights, bs, ks, n - 1), ctx, Loss, w, bs[n - 1], c);
      RecordExtendsLog(s0.top1, Recorded(ctx, Acc1, s0.weights, bs, ks, n - 1), ctx, Acc1, w, bs[n - 1], c);
      RecordExtendsLog(s0.top5, Recorded(ctx, Acc5, s0.weights, bs, ks, n - 1), ctx, Acc5, w, bs[n - 1], c);
    }
  }

  /** How often e occurs in es. */
  function Occurrences(es: seq<Event>, e: Event): nat
  {
    OccurrencesIn(es, e, |es|)
  }

  /** How often e occurs among the first n elements of es. */
  function OccurrencesIn(es: seq<Event>, e: Event, n: nat): nat
    requires n <= |es|
  {
    if n == 0 then 0 else OccurrencesIn(es, e, n - 1) + (if es[n - 1] == e then 1 else 0)
  }

  // ---------------------------------------------------------------------------
  // Exactly-once accounting

  /** Each metric meter receives one update per batch whose closure ran, and
      its count grows by exactly the samples of those batches, however many
      times each closure was evaluated. */
  lemma {:induction false} RecordedOncePerCalledBatch(ctx: PassContext, m: Metric, w0: Weights, bs: seq<Batch>, ks: seq<nat>, n: nat)
    requires |bs| == |ks| && n <= |bs|
    ensures |Recorded(ctx, m, w0, bs, ks, n)| == CalledBatches(ks, n)
    ensures TotalWeight(Recorded(ctx, m, w0, bs, ks, n)) == CalledSamples(bs, ks, n)
  {
    if n > 0 {
      RecordedOncePerCalledBatch(ctx, m, w0, bs, ks, n - 1);
      var tail := Recording(ctx, m, WeightsAfter(ctx, w0, bs, ks, n - 1), bs[n - 1], ks[n - 1] > 0);
      TotalWeightAppend(Recorded(ctx, m, w0, bs, ks, n - 1), tail);
      assert TotalWeight(tail) == (if ks[n - 1] > 0 then bs[n - 1].size else 0) by {
        if ks[n - 1] > 0 {
          AppendOne([], tail[0]);
          assert [] + [tail[0]] == tail;
        }
      }
    }
  }

  /** The update a metric meter receives for a batch whose closure ran sits at
      the position given by the number of earlier such batches, and holds the
      metric at the weights the batch started with (not those after a later
      evaluation of a line search) with the batch size as its weight. */
  lemma {:induction false} RecordedAtFirstEvaluation(ctx: PassContext, m: Metric, w0: Weights, bs: seq<Batch>, ks: seq<nat>, n: nat, i: nat)
    requires |bs| == |ks| && i < n <= |bs| && ks[i] > 0
    ensures CalledBatches(ks, i) < |Recorded(ctx, m, w0, bs, ks, n)|
    ensures Recorded(ctx, m, w0, bs, ks, n)[CalledBatches(ks, i)]
         == Entry(MetricValue(ctx, m, WeightsAfter(ctx, w0, bs, ks, i), bs[i]), bs[i].size)
  {
    RecordedOncePerCalledBatch(ctx, m, w0, bs, ks, n - 1);
    if i < n - 1 {
      RecordedAtFirstEvaluation(ctx, m, w0, bs, ks, n - 1, i);
    }
  }

  lemma {:induction false} CalledCountsDependOnlyOnCalled(bs: seq<Batch>, ks: seq<nat>, ks': seq<nat>, n: nat)
    requires |bs| == |ks| == |ks'| && n <= |bs|
    requires forall i :: 0 <= i < |ks| ==> (ks[i] > 0 <==> ks'[i] > 0)
    ensures CalledBatches(ks, n) == CalledBatches(ks', n) && CalledSamples(bs, ks, n) == CalledSamples(bs, ks', n)
  {
    if n > 0 {
      CalledCountsDependOnlyOnCalled(bs, ks, ks', n - 1);
    }
  }

  /** Two optimizers that call the closures of the same batches at all, however
      often each, leave the metric meters with the same number of updates and
      the same count: only whether a closure ran matters. */
  lemma RepeatedEvaluationsCountOnce(ctx: PassContext, m: Metric, w0: Weights, bs: seq<Batch>, ks: seq<nat>, ks': seq<nat>)
    requires |bs| == |ks| == |ks'|
    requires forall i :: 0 <= i < |ks| ==> (ks[i] > 0 <==> ks'[i] > 0)
    ensures |Recorded(ctx, m, w0, bs, ks, |bs|)| == |Recorded(ctx, m, w0, bs, ks', |bs|)|
    ensures TotalWeight(Recorded(ctx, m, w0, bs, ks, |bs|)) == TotalWeight(Recorded(ctx, m, w0, bs, ks', |bs|))
  {
    RecordedOncePerCalledBatch(ctx, m, w0, bs, ks, |bs|);
    RecordedOncePerCalledBatch(ctx, m, w0, bs, ks', |bs|);
    CalledCountsDependOnlyOnCalled(bs, ks, ks', |bs|);
  }

  /** When every closure runs at least once, every batch and every sample is
      counted. */
  lemma {:induction false} EveryBatchCalled(bs: seq<Batch>, ks: seq<nat>, n: nat)
    requires |bs| == |ks| && n <= |bs|
    requires forall i :: 0 <= i < |ks| ==> ks[i] > 0
    ensures CalledBatches(ks, n) == n && CalledSamples(bs, ks, n) == Samples(bs, n)
  {
    if n > 0 {
      EveryBatchCalled(bs, ks, n - 1);
    }
  }

  /** Evaluation never moves the weights. */
  lemma {:induction false} EvaluationKeepsWeights(ctx: PassContext, w0: Weights, bs: seq<Batch>, ks: seq<nat>, n: nat)
    requires |bs| == |ks| && n <= |bs| && !ctx.training
    ensures WeightsAfter(ctx, w0, bs, ks, n) == w0
  {
    if n > 0 {
      EvaluationKeepsWeights(ctx, w0, bs, ks, n - 1);
    }
  }

  /** In evaluation mode (one direct call per batch) every batch is recorded
      exactly once, in order, at the unchanged weights, and the count is the
      number of samples of the batches. */
  lemma {:induction false} EvaluationRecordsEveryBatch(ctx: PassContext, m: Metric, w0: Weights, bs: seq<Batch>, ks: seq<nat>, n: nat)
    requires |bs| == |ks| && n <= |bs| && !ctx.training
    requires forall i :: 0 <= i < |ks| ==> ks[i] == 1
    ensures |Recorded(ctx, m, w0, bs, ks, n)| == n
    ensures forall i :: 0 <= i < n ==>
              Recorded(ctx, m, w0, bs, ks, n)[i] == Entry(MetricValue(ctx, m, w0, bs[i]), bs[i].size)
    ensures TotalWeight(Recorded(ctx, m, w0, bs, ks, n)) == Samples(bs, n)
  {
    if n > 0 {
      EvaluationRecordsEveryBatch(ctx, m, w0, bs, ks, n - 1);
      EvaluationKeepsWeights(ctx, w0, bs, ks, n - 1);
      var u := Entry(MetricValue(ctx, m, w0, bs[n - 1]), bs[n - 1].size);
      assert Recorded(ctx, m, w0, bs, ks, n) == Recorded(ctx, m, w0, bs, ks, n - 1) + [u];
      AppendOne(Recorded(ctx, m, w0, bs, ks, n - 1), u);
    }
  }

  /** data_time and batch_time receive one unit-weight update per batch, so
      their counts grow by the number of batches of the pass. */
  lemma {:induction false} TimingCountsBatches(t0: Tally, t1: Tally, readings: nat -> real, c0: nat, n: nat)
    ensures DataTimes(t0, readings, c0, n).count == t0.count + n
    ensures BatchTimes(t1, readings, c0, n).count == t1.count + n
  {
    if n > 0 {
      TimingCountsBatches(t0, t1, readings, c0, n - 1);
    }
  }

  /** With a clock that never runs backwards, the data loading time of every
      batch is at most its total time, so data_time never sums to more than
      batch_time from equal starts. */
  lemma {:induction false} DataTimeWithinBatchTime(t0: Tally, readings: nat -> real, c0: nat, n: nat)
    requires forall j: nat :: c0 <= j ==> readings(j) <= readings(j + 1)
    ensures DataTimes(t0, readings, c0, n).sum <= BatchTimes(t0, readings, c0, n).sum
  {
    if n > 0 {
      DataTimeWithinBatchTime(t0, readings, c0, n - 1);
      var j := c0 + 3 * (n - 1);
      assert readings(j + 1) <= readings(j + 2);
    }
  }

  // ---------------------------------------------------------------------------
  // Which collaborators run, and how often

  /** The occurrences in a concatenation add up. */
  lemma OccurrencesAppend(a: seq<Event>, b: seq<Event>, e: Event)
    ensures Occurrences(a + b, e) == Occurrences(a, e) + Occurrences(b, e)
  {
    OccurrencesInAppend(a, b, e, |b|);
  }

  lemma {:induction false} OccurrencesInAppend(a: seq<Event>, b: seq<Event>, e: Event, n: nat)
    requires n <= |b|
    ensures OccurrencesIn(a + b, e, |a| + n) == Occurrences(a, e) + OccurrencesIn(b, e, n)
  {
    if n == 0 {
      OccurrencesInPrefix(a, b, e, |a|);
    } else {
      OccurrencesInAppend(a, b, e, n - 1);
      assert (a + b)[|a| + n - 1] == b[n - 1];
    }
  }

  lemma {:induction false} OccurrencesInPrefix(a: seq<Event>, b: seq<Event>, e: Event, n: nat)
    requires n <= |a|
    ensures OccurrencesIn(a + b, e, n) == OccurrencesIn(a, e, n)
  {
    if n > 0 {
      OccurrencesInPrefix(a, b, e, n - 1);
      assert (a + b)[n - 1] == a[n - 1];
    }
  }

  /** An event that occurs at most once in es occurs k times in k copies of
      es when it occurs in es, and never otherwise. */
  lemma {:induction false} OccurrencesRepeat(es: seq<Event>, k: nat, e: Event)
    requires Occurrences(es, e) <= 1
    ensures Occurrences(Repeat(es, k), e) == if Occurrences(es, e) == 1 then k else 0
  {
    if k > 0 {
      OccurrencesRepeat(es, k - 1, e);
      OccurrencesAppend(Repeat(es, k - 1), es, e);
    }
  }

  /** Occurrences of each event in a single closure evaluation. */
  lemma CallEventsCounts(ctx: PassContext)
    ensures Occurrences(CallEvents(ctx), Forward) == 1
    ensures Occurrences(CallEvents(ctx), PropagateBounds) == (if RobustTermEnabled(ctx.cfg) then 1 else 0)
    ensures Occurrences(CallEvents(ctx), ZeroGrad) == (if ctx.training then 1 else 0)
    ensures Occurrences(CallEvents(ctx), Backward) == (if ctx.training then 1 else 0)
  {
    var a := [Forward];
    var b: seq<Event> := if RobustTermEnabled(ctx.cfg) then [PropagateBounds] else [];
    var c: seq<Event> := if ctx.training then [ZeroGrad] + [Backward] else [];
    assert CallEvents(ctx) == a + b + c;
    forall e: Event
      ensures Occurrences(CallEvents(ctx), e)
           == (if e == Forward then 1 else 0)
            + (if RobustTermEnabled(ctx.cfg) && e == PropagateBounds then 1 else 0)
            + (if ctx.training && e == ZeroGrad then 1 else 0)
            + (if ctx.training && e == Backward then 1 else 0)
    {
      OccurrencesAppend(a + b, c, e);
      OccurrencesAppend(a, b, e);
      OccurrencesAppend([ZeroGrad], [Backward], e);
      assert Occurrences([], e) == 0;
      assert [Forward][0] == Forward && [PropagateBounds][0] == PropagateBounds;
      assert [ZeroGrad][0] == ZeroGrad && [Backward][0] == Backward;
    }
  }

  /** Over the first n batches, the network's forward runs once per closure
      evaluation; the bounds are propagated once per evaluation when
      epsilon > 0 and factor > 0 and never otherwise; gradients are zeroed and
      back-propagated once per evaluation when training and never when
      evaluating. */
  lemma {:induction false} PassEventCounts(ctx: PassContext, ks: seq<nat>, n: nat)
    requires n <= |ks|
    ensures Occurrences(PassEvents(ctx, ks, n), Forward) == Sum(ks, n)
    ensures Occurrences(PassEvents(ctx, ks, n), PropagateBounds) == (if RobustTermEnabled(ctx.cfg) then Sum(ks, n) else 0)
    ensures Occurrences(PassEvents(ctx, ks, n), ZeroGrad) == (if ctx.training then Sum(ks, n) else 0)
    ensures Occurrences(PassEvents(ctx, ks, n), Backward) == (if ctx.training then Sum(ks, n) else 0)
  {
    CallEventsCounts(ctx);
    PassEventOccurrences(ctx, ks, n, Forward);
    PassEventOccurrences(ctx, ks, n, PropagateBounds);
    PassEventOccurrences(ctx, ks, n, ZeroGrad);
    PassEventOccurrences(ctx, ks, n, Backward);
  }

  /** Over the first n batches, an event of a closure evaluation occurs
      once per evaluation, and any other event never. */
  lemma {:induction false} PassEventOccurrences(ctx: PassContext, ks: seq<nat>, n: nat, e: Event)
    requires n <= |ks| && Occurrences(CallEvents(ctx), e) <= 1
    ensures Occurrences(PassEvents(ctx, ks, n), e) == if Occurrences(CallEvents(ctx), e) == 1 then Sum(ks, n) else 0
  {
    if n > 0 {
      PassEventOccurrences(ctx, ks, n - 1, e);
      OccurrencesRepeat(CallEvents(ctx), ks[n - 1], e);
      OccurrencesAppend(PassEvents(ctx, ks, n - 1), Repeat(CallEvents(ctx), ks[n - 1]), e);
    }
  }

  /** In evaluation mode, with one call per batch, the forward pass runs once
      per batch and gradients are never zeroed or back-propagated. */
  lemma EvaluationPassEvents(ctx: PassContext, ks: seq<nat>)
    requires !ctx.training
    requires forall i :: 0 <= i < |ks| ==> ks[i] == 1
    ensures Occurrences(PassEvents(ctx, ks, |ks|), Forward) == |ks|
    ensures Occurrences(PassEvents(ctx, ks, |ks|), ZeroGrad) == 0
    ensures Occurrences(PassEvents(ctx, ks, |ks|), Backward) == 0
  {
    PassEventCounts(ctx, ks, |ks|);
    SumOfOnes(ks, |ks|);
  }

  lemma {:induction false} SumOfOnes(ks: seq<nat>, n: nat)
    requires n <= |ks|
    requires forall i :: 0 <= i < |ks| ==> ks[i] == 1
    ensures Sum(ks, n) == n
  {
    if n > 0 {
      SumOfOnes(ks, n - 1);
    }
  }
}
