/** The trainer object the two pretraining loops drive. SimCLRTrainer
    (models/self_sup/simclr/trainer/simclr_trainer.py) is modelled in full:
    its constructor's reuse-or-rebuild decision and its `train_epoch` loop.
    SimCLRTrainerV2, SwAVTrainer and the MYOW trainer are not part of this
    model; a trainer of those kinds takes its model and its epochs from the
    oracle. */
module Trainers {
  import opened Outcome
  import opened Environment
  import opened Commons
  import opened Network

  /** The fields a trainer's constructor sets and its methods update. */
  datatype TrainerState = TrainerState(
    model: Weights,
    criterion: Criterion,
    optimizer: Optimizer,
    scheduler: Option<Scheduler>)

  /** `load_optimizer(args, params, state, train_params)`: an optimizer built
      from `state` and, when the oracle says so, a scheduler. */
  function FreshState(net: Oracle, model: Weights, criterion: Criterion, state: Option<Blob>): TrainerState {
    TrainerState(model, criterion, Optimizer(state, 0),
                 if net.makesScheduler then Some(Scheduler(0)) else None)
  }

  /** What SimCLRTrainer.__init__ sets (lines 22-37), or the exception it
      raises while loading the saved state. */
  function SimClrInit(cfg: Config, w: World, net: Oracle, encoder: Weights, rebuild: bool,
                      level: string, tt: TrainingType): Result<TrainerState>
  {
    if tt == ActiveLearning && !rebuild then
      Ok(FreshState(net, encoder, NtXent, None))
    else
      var model := net.buildModel(encoder, tt);
      if tt != BasePretrain || cfg.epochNum != cfg.baseEpochs then
        var state :- LoadSavedState(cfg, w, true, level);
        var saved :- Subscript(state, "model");
        Ok(FreshState(net, net.loadState(model, saved), ModelCriterion(tt), Some(state)))
      else
        Ok(FreshState(net, model, ModelCriterion(tt), None))
  }

  /** The state an unmodelled trainer's constructor produces, or the
      exception it raises. */
  function ExternalInit(net: Oracle, kind: TrainerKind, encoder: Weights, rebuild: bool, tt: TrainingType): Result<TrainerState> {
    var model :- net.externalInit(kind, encoder, tt, rebuild);
    Ok(FreshState(net, model, ExternalCriterion(kind), None))
  }

  /** Construction of a trainer of the given kind. */
  function InitTrainer(cfg: Config, w: World, net: Oracle, kind: TrainerKind, encoder: Weights,
                       rebuild: bool, level: string, tt: TrainingType): Result<TrainerState>
  {
    if kind == SimClrKind then SimClrInit(cfg, w, net, encoder, rebuild, level, tt)
    else ExternalInit(net, kind, encoder, rebuild, tt)
  }

  /** With ACTIVE_LEARNING and rebuild_al_model false, the given encoder
      becomes the model, the criterion is NTXentLoss, nothing is loaded and
      the optimizer is built from None. */
  lemma SimClrReusesEncoder(cfg: Config, w: World, net: Oracle, encoder: Weights, level: string)
    ensures var r := SimClrInit(cfg, w, net, encoder, false, level, ActiveLearning);
      && r.Ok?
      && r.value.model == encoder
      && r.value.criterion == NtXent
      && r.value.optimizer == Optimizer(None, 0)
  {
  }

  /** Otherwise the model is rebuilt; the saved state is loaded unless the
      training type is BASE_PRETRAIN and epoch_num equals base_epochs; the
      optimizer is built from exactly the loaded dict, or from None. */
  lemma SimClrRebuilds(cfg: Config, w: World, net: Oracle, encoder: Weights, rebuild: bool,
                       level: string, tt: TrainingType)
    requires tt != ActiveLearning || rebuild
    ensures var r := SimClrInit(cfg, w, net, encoder, rebuild, level, tt);
      var model := net.buildModel(encoder, tt);
      var loaded := LoadSavedState(cfg, w, true, level);
      && (tt == BasePretrain && cfg.epochNum == cfg.baseEpochs ==>
            r == Ok(FreshState(net, model, ModelCriterion(tt), None)))
      && (tt != BasePretrain || cfg.epochNum != cfg.baseEpochs ==>
            && (r.Ok? <==> loaded.Ok? && Subscript(loaded.value, "model").Ok?)
            && (r.Ok? ==> && r.value.model == net.loadState(model, Subscript(loaded.value, "model").value)
                          && r.value.criterion == ModelCriterion(tt)
                          && r.value.optimizer == Optimizer(Some(loaded.value), 0)))
  {
  }

  /** Every constructed trainer starts with an optimizer that has made no
      step and a scheduler exactly when load_optimizer makes one. */
  lemma InitTrainerFresh(cfg: Config, w: World, net: Oracle, kind: TrainerKind, encoder: Weights,
                         rebuild: bool, level: string, tt: TrainingType)
    requires InitTrainer(cfg, w, net, kind, encoder, rebuild, level, tt).Ok?
    ensures var st := InitTrainer(cfg, w, net, kind, encoder, rebuild, level, tt).value;
      && st.optimizer.steps == 0
      && (st.scheduler.Some? <==> net.makesScheduler)
      && (st.scheduler.Some? ==> st.scheduler.value.steps == 0)
  {
  }

  // ---------------------------------------------------------------------
  // train_epoch

  /** The weights, the optimizer and the per-step losses after running the
      loop body over `batches` in order (lines 43-58). */
  function RunSteps(net: Oracle, crit: Criterion, w: Weights, opt: Optimizer, batches: seq<Batch>): (Weights, Optimizer, seq<real>)
    decreases |batches|
  {
    if batches == [] then (w, opt, [])
    else
      var (w1, o1, losses) := RunSteps(net, crit, w, opt, batches[..|batches| - 1]);
      var b := batches[|batches| - 1];
      (net.stepUpdate(crit, w1, o1, b), o1.(steps := o1.steps + 1), losses + [net.stepLoss(crit, w1, b)])
  }

  lemma RunStepsSnoc(net: Oracle, crit: Criterion, w: Weights, opt: Optimizer, batches: seq<Batch>, k: nat)
    requires k < |batches|
    ensures var (w1, o1, losses) := RunSteps(net, crit, w, opt, batches[..k]);
      RunSteps(net, crit, w, opt, batches[..k + 1])
        == (net.stepUpdate(crit, w1, o1, batches[k]), o1.(steps := o1.steps + 1), losses + [net.stepLoss(crit, w1, batches[k])])
  {
    assert batches[..k + 1][..k] == batches[..k];
  }

  /** `total_loss` after the loop: each step adds `loss * batch_size`. */
  function WeightedTotal(losses: seq<real>, batchSize: int): real
    decreases |losses|
  {
    if losses == [] then 0.0
    else WeightedTotal(losses[..|losses| - 1], batchSize) + losses[|losses| - 1] * batchSize as real
  }

  lemma WeightedTotalSnoc(losses: seq<real>, loss: real, batchSize: int)
    ensures WeightedTotal(losses + [loss], batchSize) == WeightedTotal(losses, batchSize) + loss * batchSize as real
  {
    assert (losses + [loss])[..|losses|] == losses;
  }

  function Sum(xs: seq<real>): real
    decreases |xs|
  {
    if xs == [] then 0.0 else Sum(xs[..|xs| - 1]) + xs[|xs| - 1]
  }

  /** `total_loss / total_num` with total_num = steps * batch_size: an empty
      loader (or a zero batch size) divides by zero. */
  function EpochMean(losses: seq<real>, batchSize: int): Result<real> {
    var totalNum := |losses| * batchSize;
    if totalNum == 0 then Err(ZeroDivision)
    else Ok(WeightedTotal(losses, batchSize) / totalNum as real)
  }

  /** What one `train_epoch` call leaves behind: the trainer's fields,
      `args.global_step`, and the returned loss or the exception. */
  datatype EpochOutcome = EpochOutcome(state: TrainerState, globalStep: int, loss: Result<real>)

  /** Whether the log line of lines 60-61 raises at step 0: `step % log_step`
      divides by a zero log_step, and otherwise step 0 always logs
      `total_loss / total_num`, where total_num is then batch_size. */
  predicate StepZeroRaises(batchSize: int, logStep: int) {
    batchSize == 0 || logStep == 0
  }

  /** The body of SimCLRTrainer.train_epoch (lines 40-66): when step 0's log
      line raises, after one optimizer step and before global_step moves;
      otherwise after the whole loader, with `total_loss / total_num`. */
  function SimClrEpochOf(net: Oracle, loader: seq<Batch>, batchSize: int, logStep: int,
                         st: TrainerState, globalStep: int): EpochOutcome
  {
    if |loader| > 0 && StepZeroRaises(batchSize, logStep) then
      var (w, opt, _) := RunSteps(net, st.criterion, st.model, st.optimizer, loader[..1]);
      EpochOutcome(st.(model := w, optimizer := opt), globalStep, Err(ZeroDivision))
    else
      var (w, opt, losses) := RunSteps(net, st.criterion, st.model, st.optimizer, loader);
      EpochOutcome(st.(model := w, optimizer := opt), globalStep + |loader|, EpochMean(losses, batchSize))
  }

  /** `trainer.train_epoch()` or, when `epochArg` is given,
      `trainer.train_epoch(epoch)`. SimCLRTrainer.train_epoch takes no
      argument, so the second form raises TypeError before doing anything.
      An unmodelled trainer's epoch is the oracle's. */
  function EpochOf(kind: TrainerKind, net: Oracle, loader: seq<Batch>, batchSize: int, logStep: int,
                   st: TrainerState, globalStep: int, epochArg: Option<int>): EpochOutcome
  {
    if kind == SimClrKind then
      if epochArg.Some? then
        EpochOutcome(st, globalStep, Err(TypeError("train_epoch() takes 1 positional argument but 2 were given")))
      else
        SimClrEpochOf(net, loader, batchSize, logStep, st, globalStep)
    else
      var e := net.externalEpoch(kind, st.model, st.optimizer, loader, globalStep, epochArg);
      EpochOutcome(st.(model := e.model, optimizer := e.optimizer), e.globalStep, e.loss)
  }

  /** One loss per step, and the loss of step k is computed on the weights
      left by the k optimizer steps before it: the forward pass precedes the
      step that updates the weights. */
  lemma {:induction false} RunStepsOrder(net: Oracle, crit: Criterion, w: Weights, opt: Optimizer,
                                         batches: seq<Batch>, k: nat)
    requires k < |batches|
    ensures var (_, o, losses) := RunSteps(net, crit, w, opt, batches);
      && |losses| == |batches|
      && o.steps == opt.steps + |batches|
      && losses[k] == net.stepLoss(crit, RunSteps(net, crit, w, opt, batches[..k]).0, batches[k])
    decreases |batches|
  {
    var front := batches[..|batches| - 1];
    if k < |batches| - 1 {
      RunStepsOrder(net, crit, w, opt, front, k);
      assert front[..k] == batches[..k];
    } else {
      assert front == batches[..k];
      if |front| > 0 {
        RunStepsOrder(net, crit, w, opt, front, 0);
      }
    }
  }

  lemma {:induction false} WeightedTotalScales(losses: seq<real>, batchSize: int)
    ensures WeightedTotal(losses, batchSize) == batchSize as real * Sum(losses)
    decreases |losses|
  {
    if losses != [] {
      WeightedTotalScales(losses[..|losses| - 1], batchSize);
    }
  }

  /** The epoch loss is the plain mean of the per-step losses whenever the
      loader is non-empty and the batch size is not zero, and a division by
      zero otherwise. */
  lemma EpochMeanIsAverage(losses: seq<real>, batchSize: int)
    ensures EpochMean(losses, batchSize).Err? <==> |losses| == 0 || batchSize == 0
    ensures |losses| > 0 && batchSize != 0 ==>
      EpochMean(losses, batchSize) == Ok(Sum(losses) / |losses| as real)
  {
    if |losses| > 0 && batchSize != 0 {
      WeightedTotalScales(losses, batchSize);
      var b, n, total := batchSize as real, |losses| as real, Sum(losses);
      assert (|losses| * batchSize) as real == n * b;
      CancelFactor(total, n, b);
      assert WeightedTotal(losses, batchSize) == b * total;
      var mean := WeightedTotal(losses, batchSize) / (n * b);
      assert EpochMean(losses, batchSize) == Ok(mean);
      assert mean == (b * total) / (n * b);
      assert mean == total / n;
    } else if batchSize == 0 {
      assert |losses| * batchSize == 0;
    }
  }

  lemma CancelFactor(total: real, n: real, b: real)
    requires n != 0.0 && b != 0.0
    ensures (b * total) / (n * b) == total / n
  {
    var q := total / n;
    assert q * n == total;
    assert n * b != 0.0;
    assert b * total == q * (n * b);
  }

  /** A SimCLR epoch that returns advances `args.global_step` by exactly one
      per loader step, makes one optimizer step per loader step, and returns
      the mean loss. It divides by zero exactly when the loader is empty, the
      batch size is 0 or log_step is 0; the last two stop it in step 0, after
      one optimizer step and with global_step unchanged. Passing an epoch
      argument raises TypeError and changes nothing. */
  lemma SimClrEpochFacts(net: Oracle, loader: seq<Batch>, batchSize: int, logStep: int, st: TrainerState,
                         globalStep: int, epochArg: Option<int>)
    ensures var o := EpochOf(SimClrKind, net, loader, batchSize, logStep, st, globalStep, epochArg);
      && (epochArg.Some? ==> o.state == st && o.globalStep == globalStep && o.loss.Err? && o.loss.error.TypeError?)
      && (epochArg.None? ==>
            && o.state.criterion == st.criterion && o.state.scheduler == st.scheduler
            && (o.loss.Err? <==> |loader| == 0 || batchSize == 0 || logStep == 0)
            && (o.loss.Err? ==>
                  && o.loss.error == ZeroDivision
                  && o.globalStep == globalStep
                  && o.state.optimizer.steps == st.optimizer.steps + (if |loader| > 0 then 1 else 0))
            && (o.loss.Ok? ==>
                  && o.globalStep == globalStep + |loader|
                  && o.state.optimizer.steps == st.optimizer.steps + |loader|
                  && o.loss.value == Sum(RunSteps(net, st.criterion, st.model, st.optimizer, loader).2) / |loader| as real))
  {
    if epochArg.None? {
      if |loader| > 0 && StepZeroRaises(batchSize, logStep) {
        RunStepsOrder(net, st.criterion, st.model, st.optimizer, loader[..1], 0);
      } else {
        var (w, opt, losses) := RunSteps(net, st.criterion, st.model, st.optimizer, loader);
        if |loader| > 0 {
          RunStepsOrder(net, st.criterion, st.model, st.optimizer, loader, 0);
        }
        EpochMeanIsAverage(losses, batchSize);
      }
    }
  }

  /** b added n times, as the loop accumulates `total_num`. */
  function Repeated(n: nat, b: int): int {
    if n == 0 then 0 else Repeated(n - 1, b) + b
  }

  lemma {:induction false} RepeatedIsProduct(n: nat, b: int)
    ensures Repeated(n, b) == n * b
  {
    if n > 0 {
      RepeatedIsProduct(n - 1, b);
      MulSucc(n - 1, b);
    }
  }

  /** The log line at step k raises exactly at step 0 under
      StepZeroRaises, given that no earlier step raised. */
  lemma LogLineRaises(k: nat, batchSize: int, logStep: int, totalNum: int)
    requires totalNum == Repeated(k + 1, batchSize)
    requires k > 0 ==> !StepZeroRaises(batchSize, logStep)
    ensures (logStep == 0 || (k % logStep == 0 && totalNum == 0)) <==> k == 0 && StepZeroRaises(batchSize, logStep)
  {
    if k > 0 {
      RepeatedNonZero(k + 1, batchSize);
    } else {
      assert totalNum == batchSize;
    }
  }

  /** A non-zero batch size added at least once never sums to zero. */
  lemma {:induction false} RepeatedNonZero(n: nat, b: int)
    requires n > 0 && b != 0
    ensures Repeated(n, b) != 0
  {
    RepeatedSign(n, b);
  }

  lemma {:induction false} RepeatedSign(n: nat, b: int)
    ensures b > 0 ==> Repeated(n, b) >= 0
    ensures b < 0 ==> Repeated(n, b) <= 0
    ensures n > 0 && b > 0 ==> Repeated(n, b) > 0
    ensures n > 0 && b < 0 ==> Repeated(n, b) < 0
  {
    if n > 0 {
      RepeatedSign(n - 1, b);
    }
  }

  lemma MulSucc(n: int, b: int)
    ensures (n + 1) * b == n * b + b
  {
  }

  /** What `trainer.scheduler.step()` raises when load_optimizer returned
      no scheduler. */
  const NoScheduler := AttributeError("'NoneType' object has no attribute 'step'")

  /** `trainer.scheduler.step()`. */
  function StepScheduler(s: Option<Scheduler>): Option<Scheduler> {
    match s
    case None => None
    case Some(sc) => Some(Scheduler(sc.steps + 1))
  }

  class Trainer {
    const kind: TrainerKind
    const net: Oracle
    const loader: seq<Batch>
    const batchSize: int
    const logStep: int
    var model: Weights
    var criterion: Criterion
    var optimizer: Optimizer
    var scheduler: Option<Scheduler>

    function State(): TrainerState
      reads this
    {
      TrainerState(model, criterion, optimizer, scheduler)
    }

    constructor (kind: TrainerKind, net: Oracle, loader: seq<Batch>, batchSize: int, logStep: int, init: TrainerState)
      ensures this.kind == kind && this.net == net && this.loader == loader
      ensures this.batchSize == batchSize && this.logStep == logStep
      ensures State() == init
    {
      this.kind := kind;
      this.net := net;
      this.loader := loader;
      this.batchSize := batchSize;
      this.logStep := logStep;
      model := init.model;
      criterion := init.criterion;
      optimizer := init.optimizer;
      scheduler := init.scheduler;
    }

    /** `train_epoch()`, or `train_epoch(epoch)` when `epochArg` is given. */
    method TrainEpoch(args: Args, epochArg: Option<int>) returns (r: Result<real>)
      modifies this`model, this`optimizer, args`globalStep
      ensures var o := EpochOf(kind, net, loader, batchSize, logStep, old(State()), old(args.globalStep), epochArg);
        State() == o.state && args.globalStep == o.globalStep && r == o.loss
    {
      if kind != SimClrKind {
        var e := net.externalEpoch(kind, model, optimizer, loader, args.globalStep, epochArg);
        model, optimizer := e.model, e.optimizer;
        args.globalStep := e.globalStep;
        return e.loss;
      }
      if epochArg.Some? {
        return Err(TypeError("train_epoch() takes 1 positional argument but 2 were given"));
      }
      r := SimClrEpoch(args);
    }

    /** The body of SimCLRTrainer.train_epoch (lines 40-66). */
    method SimClrEpoch(args: Args) returns (r: Result<real>)
      modifies this`model, this`optimizer, args`globalStep
      ensures var o := SimClrEpochOf(net, loader, batchSize, logStep, old(State()), old(args.globalStep));
        State() == o.state && args.globalStep == o.globalStep && r == o.loss
    {
      var totalLoss, totalNum, raised, losses := RunLoader(args);
      if raised {
        return Err(ZeroDivision);
      }
      assert loader[..|loader|] == loader;
      RepeatedIsProduct(|losses|, batchSize);
      if totalNum == 0 {
        return Err(ZeroDivision);
      }
      return Ok(totalLoss / totalNum as real);
    }

    /** The loop of lines 43-64: per batch one forward pass, backward pass
        and optimizer step, the running `total_num` and `total_loss`, the
        log line of lines 60-61, and the global_step increment. `raised`
        tells whether the log line divided by zero; it can only do so at
        step 0. */
    method RunLoader(args: Args) returns (totalLoss: real, totalNum: int, raised: bool, ghost losses: seq<real>)
      modifies this`model, this`optimizer, args`globalStep
      ensures raised <==> |loader| > 0 && StepZeroRaises(batchSize, logStep)
      ensures var n := if raised then 1 else |loader|;
        n <= |loader| && RunSteps(net, criterion, old(model), old(optimizer), loader[..n]) == (model, optimizer, losses)
      ensures !raised ==> totalNum == Repeated(|losses|, batchSize) && totalLoss == WeightedTotal(losses, batchSize)
      ensures args.globalStep == old(args.globalStep) + (if raised then 0 else |loader|)
    {
      ghost var model0, optimizer0 := model, optimizer;
      totalLoss, totalNum, raised := 0.0, 0, false;
      losses := [];
      var step := 0;
      while step < |loader|
        invariant 0 <= step <= |loader|
        invariant RunSteps(net, criterion, model0, optimizer0, loader[..step]) == (model, optimizer, losses)
        invariant |losses| == step
        invariant totalNum == Repeated(step, batchSize)
        invariant totalLoss == WeightedTotal(losses, batchSize)
        invariant args.globalStep == old(args.globalStep) + step
        invariant step > 0 ==> !StepZeroRaises(batchSize, logStep)
      {
        RunStepsSnoc(net, criterion, model0, optimizer0, loader, step);
        var loss := TrainStep(loader[step]);
        totalNum := totalNum + batchSize;
        totalLoss := totalLoss + loss * batchSize as real;
        WeightedTotalSnoc(losses, loss, batchSize);
        losses := losses + [loss];
        var logRaises := logStep == 0 || (step % logStep == 0 && totalNum == 0);
        LogLineRaises(step, batchSize, logStep, totalNum);
        if logRaises {
          raised := true;
          return;
        }
        args.globalStep := args.globalStep + 1;
        step := step + 1;
      }
    }

    /** One step of the loop: zero_grad, the forward pass and the loss on
        the current weights, then backward and the optimizer step. */
    method TrainStep(image: Batch) returns (loss: real)
      modifies this`model, this`optimizer
      ensures loss == net.stepLoss(criterion, old(model), image)
      ensures model == net.stepUpdate(criterion, old(model), old(optimizer), image)
      ensures optimizer == old(optimizer).(steps := old(optimizer).steps + 1)
    {
      // optimizer.zero_grad(); output = model(image); loss = criterion(output)
      loss := net.stepLoss(criterion, model, image);
      // loss.backward(); optimizer.step()
      model := net.stepUpdate(criterion, model, optimizer, image);
      optimizer := optimizer.(steps := optimizer.steps + 1);
    }

    /** `trainer.scheduler.step()`: None has no `step`. */
    method StepSchedulerOnce() returns (r: Result<()>)
      modifies this`scheduler
      ensures scheduler == StepScheduler(old(scheduler))
      ensures r.Ok? <==> old(scheduler).Some?
      ensures r.Err? ==> r == Err(NoScheduler)
    {
      if scheduler.None? {
        return Err(NoScheduler);
      }
      scheduler := Some(Scheduler(scheduler.value.steps + 1));
      return Ok(());
    }
  }

  /** Builds the trainer object of the given kind: for SimCLR the
      constructor of lines 10-37, which may raise while loading. */
  method NewTrainer(args: Args, store: FileStore, net: Oracle, kind: TrainerKind, encoder: Weights,
                    loader: seq<Batch>, rebuild: bool, level: string, tt: TrainingType, logStep: int)
    returns (r: Result<Trainer>)
    ensures var spec := InitTrainer(args.cfg, Snap(args, store), net, kind, encoder, rebuild, level, tt);
      && (r.Ok? <==> spec.Ok?)
      && (r.Err? ==> r.error == spec.error)
      && (r.Ok? ==> && fresh(r.value) && r.value.State() == spec.value
                    && r.value.kind == kind && r.value.net == net
                    && r.value.loader == loader && r.value.batchSize == net.batchSize(tt)
                    && r.value.logStep == logStep)
  {
    var init := InitTrainer(args.cfg, Snap(args, store), net, kind, encoder, rebuild, level, tt);
    if init.Err? {
      return Err(init.error);
    }
    var t := new Trainer(kind, net, loader, net.batchSize(tt), logStep, init.value);
    return Ok(t);
  }
}
