/**
  one_epoch and the stateful objects it works on: the network, the optimizer,
  the wall clock, the loaders, the five meters of a pass and the per-batch
  closure with its first-invocation guard.
 */
module Engine {
  import opened Collaborators
  import opened Meters
  import opened EpochSpec
  import opened Schedule

  /** The network: its weights, its train/eval mode, and the log of the calls
      made into it (forward passes, bound propagation, gradient zeroing and
      back-propagation). */
  class Network {
    var weights: Weights
    var training: bool
    var events: seq<Event>

    /** fit_to_dataset(get_model(...)).eval(): a network in evaluation mode. */
    constructor (weights: Weights)
      ensures this.weights == weights && !training && events == []
    {
      this.weights := weights;
      training := false;
      events := [];
    }
  }

  /** An optimizer over the network's parameters. Its step hands the closure
      `evaluations(i)` calls on the i-th step (a line search may call it many
      times, plain gradient descent once), and after each call moves the
      weights by `adjust`, an opaque function of the learning rate, the
      trainable state (momentum buffers included), the batch the closure
      evaluated and the loss it returned. */
  class Optimizer {
    const net: Network
    const evaluations: nat -> nat
    const adjust: (Lr, Weights, Batch, real) -> Weights
    var lr: Lr
    var steps: nat

    constructor (net: Network, lr: Lr, evaluations: nat -> nat, adjust: (Lr, Weights, Batch, real) -> Weights)
      ensures this.net == net && this.lr == lr && steps == 0
      ensures this.evaluations == evaluations && this.adjust == adjust
    {
      this.net := net;
      this.lr := lr;
      this.evaluations := evaluations;
      this.adjust := adjust;
      steps := 0;
    }

    /** optimizer.step(closure). */
    method Step(cl: Closure)
      requires cl.pass.Valid() && cl.pass.net == net && cl.pass.optimizer == this
      modifies this`steps, net`weights, net`events, cl, cl.pass.losses, cl.pass.top1, cl.pass.top5
      ensures cl.pass.Valid() && steps == old(steps) + 1
      ensures var k := evaluations(old(steps));
              && cl.firstTime == (old(cl.firstTime) && k == 0)
              && cl.pass.State() == BatchStep(cl.pass.Context(), old(cl.pass.State()), cl.batch, k, old(cl.firstTime))
    {
      var k := evaluations(steps);
      var ctx := cl.pass.Context();
      ghost var w0 := net.weights;
      ghost var first := cl.firstTime;
      var j := 0;
      while j < k
        invariant 0 <= j <= k && steps == old(steps)
        invariant cl.pass.Valid()
        invariant j == 0 ==> net.weights == w0
        invariant AfterEvaluations(ctx, net.weights, cl.batch, k - j) == AfterEvaluations(ctx, w0, cl.batch, k)
        invariant net.events == old(net.events) + Repeat(CallEvents(ctx), j)
        invariant cl.firstTime == (first && j == 0)
        invariant cl.pass.losses.Current() == Record(old(cl.pass.losses.Current()), ctx, Loss, w0, cl.batch, first && j > 0)
        invariant cl.pass.top1.Current() == Record(old(cl.pass.top1.Current()), ctx, Acc1, w0, cl.batch, first && j > 0)
        invariant cl.pass.top5.Current() == Record(old(cl.pass.top5.Current()), ctx, Acc5, w0, cl.batch, first && j > 0)
      {
        Evaluate(cl);
        j := j + 1;
      }
      steps := steps + 1;
    }

    /** One evaluation inside a step: call the closure, then move the weights
        by the loss it returned. */
    method Evaluate(cl: Closure)
      requires cl.pass.Valid() && cl.pass.net == net && cl.pass.optimizer == this
      modifies net`weights, net`events, cl, cl.pass.losses, cl.pass.top1, cl.pass.top5
      ensures cl.pass.Valid() && !cl.firstTime
      ensures var ctx := cl.pass.Context();
              && net.weights == Adjusted(ctx, old(net.weights), cl.batch, BatchLoss(ctx, old(net.weights), cl.batch))
              && net.events == old(net.events) + CallEvents(ctx)
              && var first := old(cl.firstTime);
              && cl.pass.losses.Current() == Record(old(cl.pass.losses.Current()), ctx, Loss, old(net.weights), cl.batch, first)
              && cl.pass.top1.Current() == Record(old(cl.pass.top1.Current()), ctx, Acc1, old(net.weights), cl.batch, first)
              && cl.pass.top5.Current() == Record(old(cl.pass.top5.Current()), ctx, Acc5, old(net.weights), cl.batch, first)
    {
      var loss := cl.Call();
      net.weights := Adjusted(cl.pass.Context(), net.weights, cl.batch, loss);
    }
  }

  /** The learning rate a pass without an optimizer records; it never reaches a weight update. */
  const NoLr := Lr(0.0, 0)

  /** The learning rate a pass runs at: the optimizer's, or NoLr without one. */
  function RateOf(optimizer: Optimizer?): Lr
    reads optimizer
  {
    if optimizer != null then optimizer.lr else NoLr
  }

  /** The context of a pass with these arguments at learning rate lr: it
      trains exactly when it has an optimizer. */
  function ContextOf(env: Collaborators, cfg: LossConfig, optimizer: Optimizer?, lr: Lr): PassContext
  {
    PassContext(env, cfg, optimizer != null, if optimizer != null then optimizer.adjust else KeepWeights, lr)
  }

  /** time(): the k-th reading of the wall clock is readings(k); `taken`
      counts the readings taken so far. */
  class Clock {
    const readings: nat -> real
    var taken: nat

    constructor (readings: nat -> real)
      ensures this.readings == readings && taken == 0
    {
      this.readings := readings;
      taken := 0;
    }

    method Now() returns (t: real)
      modifies this`taken
      ensures t == readings(old(taken)) && taken == old(taken) + 1
    {
      t := readings(taken);
      taken := taken + 1;
    }
  }

  /** A data loader; the k-th iteration over it yields the batches draw(k)
      (a training loader reshuffles on every iteration). */
  class Loader {
    const draw: nat -> seq<Batch>
    var iterations: nat

    constructor (draw: nat -> seq<Batch>)
      ensures this.draw == draw && iterations == 0
    {
      this.draw := draw;
      iterations := 0;
    }

    /** `for inputs, targets in loader`: start a new iteration. */
    method Iterate() returns (bs: seq<Batch>)
      modifies this`iterations
      ensures bs == draw(old(iterations)) && iterations == old(iterations) + 1
    {
      bs := draw(iterations);
      iterations := iterations + 1;
    }
  }

  /** meter.update(time() - end): one unit-weight update with the time
      elapsed since `end`; returns the reading taken. */
  method RecordElapsed(clock: Clock, meter: AverageMeter, end: real) returns (t: real)
    modifies clock`taken, meter
    ensures t == clock.readings(old(clock.taken)) && clock.taken == old(clock.taken) + 1
    ensures meter.Current() == old(meter.Current()).Add(t - end, 1)
  {
    t := clock.Now();
    meter.Update(t - end, 1);
  }

  const BatchTimeName := "Time/BatchTotal"
  const DataTimeName := "Time/BatchData"
  const LossName := "Loss"
  const Acc1Name := "Acc@1"
  const Acc5Name := "Acc@5"

  /** The five meter names are distinct, so one_epoch's result has five entries. */
  lemma MeterNamesDistinct()
    ensures |{BatchTimeName, DataTimeName, LossName, Acc1Name, Acc5Name}| == 5
    ensures BatchTimeName != DataTimeName && BatchTimeName != LossName && BatchTimeName != Acc1Name
    ensures BatchTimeName != Acc5Name && DataTimeName != LossName && DataTimeName != Acc1Name
    ensures DataTimeName != Acc5Name && LossName != Acc1Name && LossName != Acc5Name && Acc1Name != Acc5Name
  {
  }

  /** The context of one call of one_epoch: what compute_loss and the
      closures capture (the collaborators, the network, the optimizer or
      None, and the five meters of the pass). */
  class Pass {
    const env: Collaborators
    const cfg: LossConfig
    const net: Network
    const optimizer: Optimizer?
    const batchTime: AverageMeter
    const dataTime: AverageMeter
    const losses: AverageMeter
    const top1: AverageMeter
    const top5: AverageMeter
    // the learning rate in effect during the pass (one_epoch never changes it)
    const lr: Lr

    ghost predicate Valid()
      reads net`training, optimizer
    {
      && batchTime != dataTime && batchTime != losses && batchTime != top1 && batchTime != top5
      && dataTime != losses && dataTime != top1 && dataTime != top5
      && losses != top1 && losses != top5 && top1 != top5
      && (optimizer != null ==> optimizer.net == net && optimizer.lr == lr)
      && net.training == (optimizer != null)
    }

    /** The pass as the specification functions see it. */
    function Context(): PassContext
    {
      ContextOf(env, cfg, optimizer, lr)
    }

    /** The part of the pass's state that one batch changes besides the clock
        and the timing meters. */
    ghost function State(): PassState
      reads net, losses, top1, top5
    {
      PassState(net.weights, net.events, losses.Current(), top1.Current(), top5.Current())
    }

    /** The five AverageMeter constructions at the head of one_epoch. */
    constructor (env: Collaborators, cfg: LossConfig, net: Network, optimizer: Optimizer?)
      ensures this.env == env && this.cfg == cfg && this.net == net && this.optimizer == optimizer
      ensures lr == RateOf(optimizer)
      ensures fresh(batchTime) && fresh(dataTime) && fresh(losses) && fresh(top1) && fresh(top5)
      ensures batchTime.Current() == dataTime.Current() == losses.Current() == Empty
      ensures top1.Current() == top5.Current() == Empty
      ensures batchTime.name == BatchTimeName && dataTime.name == DataTimeName
      ensures losses.name == LossName && top1.name == Acc1Name && top5.name == Acc5Name
    {
      this.env := env;
      this.cfg := cfg;
      this.net := net;
      this.optimizer := optimizer;
      lr := RateOf(optimizer);
      batchTime := new AverageMeter(BatchTimeName);
      dataTime := new AverageMeter(DataTimeName);
      losses := new AverageMeter(LossName);
      top1 := new AverageMeter(Acc1Name);
      top5 := new AverageMeter(Acc5Name);
    }

    /** compute_loss(inputs, targets, update_metrics). */
    method ComputeLoss(b: Batch, updateMetrics: bool) returns (loss: real)
      requires Valid()
      modifies net`events, losses, top1, top5
      ensures Valid()
      ensures loss == BatchLoss(Context(), net.weights, b)
      ensures net.events == old(net.events) + CallEvents(Context())
      ensures losses.Current() == Record(old(losses.Current()), Context(), Loss, net.weights, b, updateMetrics)
      ensures top1.Current() == Record(old(top1.Current()), Context(), Acc1, net.weights, b, updateMetrics)
      ensures top5.Current() == Record(old(top5.Current()), Context(), Acc5, net.weights, b, updateMetrics)
    {
      var output;
      output, loss := ForwardLoss(b);

      // measure accuracy and record loss
      if updateMetrics {
        RecordMetrics(b, output, loss);
      }

      // compute gradient
      if optimizer != null {
        // optimizer.zero_grad(); loss.backward()
        net.events := net.events + [ZeroGrad, Backward];
      }
    }

    /** The output and the loss of compute_loss: the forward pass and the
        criterion, plus the rescaled bounds term when epsilon and factor are
        both positive. */
    method ForwardLoss(b: Batch) returns (output: Tensor, loss: real)
      requires Valid()
      modifies net`events
      ensures output == Output(Context(), net.weights, b)
      ensures loss == BatchLoss(Context(), net.weights, b)
      ensures net.events == old(net.events) + [Forward] + if RobustTermEnabled(cfg) then [PropagateBounds] else []
    {
      output := env.forward(net.weights, net.training, b.inputs);
      net.events := net.events + [Forward];
      loss := env.criterion(output, b.targets);

      if cfg.epsilon > 0.0 && cfg.factor > 0.0 {
        var offset := env.propagateBounds(net.weights, net.training, b.inputs, cfg.epsilon);
        net.events := net.events + [PropagateBounds];
        var logits := env.boundsLogits(output, offset, b.targets);
        logits := env.rescale(logits, cfg.temperature);
        loss := loss + cfg.factor * env.criterion(logits, b.targets);
      }
    }

    /** The metric updates of compute_loss: the loss and the top-1 and top-5
        accuracy of the output, each weighted by the batch size. */
    method RecordMetrics(b: Batch, output: Tensor, loss: real)
      requires Valid()
      modifies losses, top1, top5
      ensures Valid()
      ensures var (acc1, acc5) := env.accuracy(output, b.targets);
              && losses.Current() == old(losses.Current()).Add(loss, b.size)
              && top1.Current() == old(top1.Current()).Add(acc1, b.size)
              && top5.Current() == old(top5.Current()).Add(acc5, b.size)
    {
      var n := b.size;
      var (acc1, acc5) := env.accuracy(output, b.targets);
      losses.Update(loss, n);
      top1.Update(acc1, n);
      top5.Update(acc5, n);
    }

    /** The value one_epoch returns: its five meters, keyed by their names. */
    method Progress() returns (progress: map<string, AverageMeter>)
      requires Valid()
      requires batchTime.name == BatchTimeName && dataTime.name == DataTimeName
      requires losses.name == LossName && top1.name == Acc1Name && top5.name == Acc5Name
      ensures progress.Keys == {BatchTimeName, DataTimeName, LossName, Acc1Name, Acc5Name}
      ensures progress[BatchTimeName] == batchTime && progress[DataTimeName] == dataTime
      ensures progress[LossName] == losses && progress[Acc1Name] == top1 && progress[Acc5Name] == top5
    {
      MeterNamesDistinct();
      progress := map[
        batchTime.name := batchTime,
        dataTime.name := dataTime,
        losses.name := losses,
        top1.name := top1,
        top5.name := top5];
    }

    /** The body of the batch loop of one_epoch for one batch b, `end` being
        the clock reading taken when the previous batch finished: record the
        data loading time, evaluate the batch, record the batch time and read
        the clock for the new `end`. */
    method RunBatch(clock: Clock, b: Batch, end: real) returns (newEnd: real)
      requires Valid()
      modifies clock`taken, net`weights, net`events, optimizer
      modifies batchTime, dataTime, losses, top1, top5
      ensures Valid()
      ensures var c := old(clock.taken);
              && clock.taken == c + 3 && newEnd == clock.readings(c + 2)
              && dataTime.Current() == old(dataTime.Current()).Add(clock.readings(c) - end, 1)
              && batchTime.Current() == old(batchTime.Current()).Add(clock.readings(c + 1) - end, 1)
      ensures optimizer != null ==> optimizer.steps == old(optimizer.steps) + 1 && optimizer.lr == old(optimizer.lr)
      ensures var k := if optimizer == null then 1 else optimizer.evaluations(old(optimizer.steps));
              State() == BatchStep(Context(), old(State()), b, k, true)
    {
      // measure data loading time
      var loaded := RecordElapsed(clock, dataTime, end);
      EvaluateBatch(b);
      // measure elapsed time
      var done := RecordElapsed(clock, batchTime, end);
      newEnd := clock.Now();
    }

    /** The closure of batch b with first_time set, handed to the optimizer's
        step when training and called once directly otherwise. */
    method EvaluateBatch(b: Batch)
      requires Valid()
      modifies net`weights, net`events, optimizer, losses, top1, top5
      ensures Valid()
      ensures optimizer != null ==> optimizer.steps == old(optimizer.steps) + 1 && optimizer.lr == old(optimizer.lr)
      ensures var k := if optimizer == null then 1 else optimizer.evaluations(old(optimizer.steps));
              State() == BatchStep(Context(), old(State()), b, k, true)
    {
      var closure := new Closure(this, b);
      if optimizer != null {
        optimizer.Step(closure);
      } else {
        var _ := closure.Call();
        assert Repeat(CallEvents(Context()), 1) == CallEvents(Context());
      }
    }

    /** The batch loop of one_epoch: RunBatch on each of the batches bs in
        order, starting from `end`, the clock reading just taken. */
    method RunBatches(clock: Clock, bs: seq<Batch>, end: real)
      requires Valid() && clock.taken > 0 && end == clock.readings(clock.taken - 1)
      modifies clock`taken, net`weights, net`events, optimizer
      modifies batchTime, dataTime, losses, top1, top5
      ensures Valid()
      ensures optimizer != null ==> optimizer.lr == old(optimizer.lr)
      ensures optimizer != null ==> optimizer.steps == old(optimizer.steps) + |bs|
      ensures var ks := ClosureCalls(optimizer, if optimizer == null then 0 else old(optimizer.steps), |bs|);
              State() == StateAfter(Context(), old(State()), bs, ks, |bs|)
      ensures clock.taken == old(clock.taken) + 3 * |bs|
      ensures var c0 := old(clock.taken) - 1;
              && dataTime.Current() == DataTimes(old(dataTime.Current()), clock.readings, c0, |bs|)
              && batchTime.Current() == BatchTimes(old(batchTime.Current()), clock.readings, c0, |bs|)
    {
      ghost var s0 := if optimizer == null then 0 else optimizer.steps;
      ghost var ks := ClosureCalls(optimizer, s0, |bs|);
      ghost var st0 := State();
      ghost var k0 := clock.taken;
      ghost var d0 := dataTime.Current();
      ghost var b0 := batchTime.Current();
      ghost var lr0 := RateOf(optimizer);

      var end := end;
      var i := 0;
      while i < |bs|
        invariant 0 <= i <= |bs| && Valid()
        invariant Progressed(clock, bs, ks, i, end, st0, k0, d0, b0)
        invariant optimizer != null ==> optimizer.steps == s0 + i && optimizer.lr == lr0
      {
        ClosureCallsAt(optimizer, s0, |bs|, i);
        end := RunNext(clock, bs, ks, i, end, st0, k0, d0, b0);
        i := i + 1;
      }
    }

    /** Where the batch loop stands after i batches: the network and metric
        meters as StateAfter says, the clock read once before the loop and
        three times per batch since, `end` its latest reading, and the
        timing meters as DataTimes and BatchTimes say. */
    ghost predicate Progressed(clock: Clock, bs: seq<Batch>, ks: seq<nat>, i: nat, end: real,
                               st0: PassState, k0: nat, d0: Tally, b0: Tally)
      reads clock, net, losses, top1, top5, dataTime, batchTime
    {
      && |bs| == |ks| && i <= |bs| && k0 > 0
      && State() == StateAfter(Context(), st0, bs, ks, i)
      && clock.taken == k0 + 3 * i
      && Timed(clock.readings, k0 - 1, i, end, d0, b0, dataTime.Current(), batchTime.Current())
    }

    /** The timing side of the batch loop after i batches, for a clock
        whose k-th reading is readings(k) and reading c0 was taken before the
        loop: `end` is the latest reading, and the timing meters, which
        started at d0 and b0, hold d and b as DataTimes and BatchTimes say. */
    static ghost predicate Timed(readings: nat -> real, c0: nat, i: nat, end: real,
                                 d0: Tally, b0: Tally, d: Tally, b: Tally)
    {
      && end == readings(c0 + 3 * i)
      && d == DataTimes(d0, readings, c0, i)
      && b == BatchTimes(b0, readings, c0, i)
    }

    /** One round of the batch loop: run batch i, the i-th closure being
        called ks[i] times. */
    method RunNext(clock: Clock, bs: seq<Batch>, ghost ks: seq<nat>, i: nat, end: real,
                   ghost st0: PassState, ghost k0: nat, ghost d0: Tally, ghost b0: Tally)
      returns (newEnd: real)
      requires Valid() && i < |bs| && Progressed(clock, bs, ks, i, end, st0, k0, d0, b0)
      requires ks[i] == if optimizer == null then 1 else optimizer.evaluations(optimizer.steps)
      modifies clock`taken, net`weights, net`events, optimizer
      modifies batchTime, dataTime, losses, top1, top5
      ensures Valid() && Progressed(clock, bs, ks, i + 1, newEnd, st0, k0, d0, b0)
      ensures optimizer != null ==> optimizer.steps == old(optimizer.steps) + 1 && optimizer.lr == old(optimizer.lr)
    {
      ghost var d, b := dataTime.Current(), batchTime.Current();
      newEnd := RunBatch(clock, bs[i], end);
      TimedStep(clock.readings, k0 - 1, i, end, d0, b0, d, b, newEnd, dataTime.Current(), batchTime.Current());
    }
  }

  /** One more batch, reading the clock three times after `end`, extends the
      timing side of the batch loop by one batch. */
  lemma TimedStep(readings: nat -> real, c0: nat, i: nat, end: real, d0: Tally, b0: Tally, d: Tally, b: Tally,
                  newEnd: real, d': Tally, b': Tally)
    requires Pass.Timed(readings, c0, i, end, d0, b0, d, b)
    requires var c := c0 + 3 * i + 1;
             && newEnd == readings(c + 2)
             && d' == d.Add(readings(c) - end, 1) && b' == b.Add(readings(c + 1) - end, 1)
    ensures Pass.Timed(readings, c0, i + 1, newEnd, d0, b0, d', b')
  {
  }

  /** The closure built for one batch, with its captured first_time flag. */
  class Closure {
    const pass: Pass
    const batch: Batch
    var firstTime: bool

    constructor (pass: Pass, batch: Batch)
      ensures this.pass == pass && this.batch == batch && firstTime
    {
      this.pass := pass;
      this.batch := batch;
      firstTime := true;
    }

    /** closure(): compute the loss, updating the metric meters on the first call only. */
    method Call() returns (loss: real)
      requires pass.Valid()
      modifies this, pass.net`events, pass.losses, pass.top1, pass.top5
      ensures pass.Valid() && !firstTime
      ensures loss == BatchLoss(pass.Context(), pass.net.weights, batch)
      ensures pass.net.events == old(pass.net.events) + CallEvents(pass.Context())
      ensures pass.losses.Current() == Record(old(pass.losses.Current()), pass.Context(), Loss, pass.net.weights, batch, old(firstTime))
      ensures pass.top1.Current() == Record(old(pass.top1.Current()), pass.Context(), Acc1, pass.net.weights, batch, old(firstTime))
      ensures pass.top5.Current() == Record(old(pass.top5.Current()), pass.Context(), Acc5, pass.net.weights, batch, old(firstTime))
    {
      loss := pass.ComputeLoss(batch, firstTime);
      firstTime := false;
    }
  }

  /** How many times the closure of each of n batches is called: once when
      evaluating, as often as the optimizer's steps first, first + 1, ... say
      when training. */
  function ClosureCalls(optimizer: Optimizer?, first: nat, n: nat): (ks: seq<nat>)
    ensures |ks| == n
    ensures forall i :: 0 <= i < n ==>
              ks[i] == if optimizer == null then 1 else optimizer.evaluations(first + i)
  {
    if n == 0 then []
    else ClosureCalls(optimizer, first, n - 1)
           + [if optimizer == null then 1 else optimizer.evaluations(first + n - 1)]
  }

  lemma ClosureCallsAt(optimizer: Optimizer?, first: nat, n: nat, i: nat)
    requires i < n
    ensures ClosureCalls(optimizer, first, n)[i]
              == if optimizer == null then 1 else optimizer.evaluations(first + i)
  {
  }

  /** one_epoch(loader, net, criterion, optimizer, preprocess, epsilon, factor,
      temperature): one pass over the loader, training when an optimizer is
      given. Returns the five meters by name. */
  method OneEpoch(loader: Loader, net: Network, optimizer: Optimizer?, env: Collaborators,
                  cfg: LossConfig, clock: Clock)
    returns (progress: map<string, AverageMeter>)
    requires optimizer != null ==> optimizer.net == net
    modifies loader`iterations, net`training, net`weights, net`events, optimizer, clock`taken
    ensures progress.Keys == {BatchTimeName, DataTimeName, LossName, Acc1Name, Acc5Name}
    ensures fresh(progress[BatchTimeName]) && fresh(progress[DataTimeName]) && fresh(progress[LossName])
    ensures fresh(progress[Acc1Name]) && fresh(progress[Acc5Name])
    ensures net.training == (optimizer != null)
    ensures loader.iterations == old(loader.iterations) + 1
    ensures optimizer != null ==> optimizer.lr == old(optimizer.lr)
    ensures var bs := loader.draw(old(loader.iterations));
            var ks := ClosureCalls(optimizer, if optimizer == null then 0 else old(optimizer.steps), |bs|);
            var ctx := ContextOf(env, cfg, optimizer, old(RateOf(optimizer)));
            && PassState(net.weights, net.events, progress[LossName].Current(), progress[Acc1Name].Current(),
                         progress[Acc5Name].Current())
               == StateAfter(ctx, PassState(old(net.weights), old(net.events), Empty, Empty, Empty),
                             bs, ks, |bs|)
            && clock.taken == old(clock.taken) + 1 + 3 * |bs|
            && progress[DataTimeName].Current() == DataTimes(Empty, clock.readings, old(clock.taken), |bs|)
            && progress[BatchTimeName].Current() == BatchTimes(Empty, clock.readings, old(clock.taken), |bs|)
            && (optimizer != null ==> optimizer.steps == old(optimizer.steps) + |bs|)
  {
    var pass := new Pass(env, cfg, net, optimizer);

    // switch to train mode
    var isTraining := optimizer != null;
    net.training := isTraining;

    var bs := loader.Iterate();
    var end := clock.Now();
    ghost var st0 := pass.State();
    ghost var ks := ClosureCalls(optimizer, if optimizer == null then 0 else optimizer.steps, |bs|);
    pass.RunBatches(clock, bs, end);

    progress := pass.Progress();
  }
}
