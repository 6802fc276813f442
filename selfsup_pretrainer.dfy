/** SelfSupPretrainer (models/trainers/selfsup_pretrainer.py): pretraining
    an encoder for a number of epochs with the trainer the configured SSL
    method names, checkpointing every 20 epochs and at the end. */
module SelfSup {
  import opened Outcome
  import opened Environment
  import opened Commons
  import opened Network
  import opened Trainers

  /** Line 21: level "1" for base pretraining, "2" for anything else. */
  function PretrainLevel(tt: TrainingType): (r: string)
    ensures r == "1" || r == "2"
    ensures r == "1" <==> tt == TrainingType.BasePretrain
  {
    if tt == TrainingType.BasePretrain then "1" else "2"
  }

  /** The trainer lines 25-58 construct; none for a method without a branch
      there, because the bare `ValueError` of line 61 raises nothing. */
  function PretrainKind(m: SslMethod): Option<TrainerKind> {
    match m
    case SimClr => Some(SimClrKind)
    case Dcl => Some(DclKind)
    case Swav => Some(SwavKind)
    case Myow => Some(MyowKind)
    case OtherMethod(_) => None
  }

  /** Whether the loop index e checkpoints: line 78. */
  predicate Checkpoints(e: int) {
    e > 0 && e % 20 == 0
  }

  /** What one iteration of lines 66-84 leaves behind, and whether it
      saved. `model` and `optimizer` of lines 63-64 are the trainer's own
      objects, so a save writes their state at that moment. */
  datatype Step = Step(state: TrainerState, world: World, result: Result<()>, saved: bool)

  function EpochStep(cfg: Config, net: Oracle, kind: TrainerKind, loader: seq<Batch>, bs: int, ls: int,
                     level: string, optType: string, e: int, st: TrainerState, w: World): Step
  {
    var o := EpochOf(kind, net, loader, bs, ls, st, w.globalStep, Some(e));
    var w1 := w.(globalStep := o.globalStep);
    if o.loss.Err? then Step(o.state, w1, Err(o.loss.error), false)
    else
      var st1 := o.state.(scheduler := StepScheduler(o.state.scheduler));
      if Checkpoints(e) then
        match AfterSaveState(cfg, w1, st1.model, net.optimizerState(st1.optimizer), level, optType)
        case Err(err) => Step(st1, w1, Err(err), false)
        case Ok(w2) => Step(st1, w2.(currentEpoch := w2.currentEpoch + 1), Ok(()), true)
      else
        Step(st1, w1.(currentEpoch := w1.currentEpoch + 1), Ok(()), false)
  }

  /** What the epochs e, e+1, ..., epochs-1 leave behind, with the
      `current_epoch` at each intermediate `save_state` that succeeded. */
  datatype Pretrained = Pretrained(state: TrainerState, world: World, result: Result<()>, saves: seq<int>)

  function PretrainFrom(cfg: Config, net: Oracle, kind: TrainerKind, loader: seq<Batch>, bs: int, ls: int,
                        level: string, optType: string, e: int, epochs: int,
                        st: TrainerState, w: World): Pretrained
    decreases epochs - e
  {
    if e >= epochs then Pretrained(st, w, Ok(()), [])
    else
      var s := EpochStep(cfg, net, kind, loader, bs, ls, level, optType, e, st, w);
      if s.result.Err? then Pretrained(s.state, s.world, s.result, [])
      else
        var rest := PretrainFrom(cfg, net, kind, loader, bs, ls, level, optType, e + 1, epochs, s.state, s.world);
        rest.(saves := (if s.saved then [w.currentEpoch] else []) + rest.saves)
  }

  /** What `base_pretrain(encoder, train_loader, epochs, trainingType,
      optimizer_type)` leaves behind. */
  function BasePretrainRun(cfg: Config, net: Oracle, w: World, encoder: Weights, loader: seq<Batch>,
                           epochs: int, tt: TrainingType, optType: string): (World, Result<()>)
  {
    var level := PretrainLevel(tt);
    match PretrainKind(cfg.sslMethod)
    case None => (w, Err(UnboundTrainer))
    case Some(kind) =>
      match InitTrainer(cfg, w, net, kind, encoder, false, level, tt)
      case Err(e) => (w, Err(e))
      case Ok(st) =>
        var p := PretrainFrom(cfg, net, kind, loader, net.batchSize(tt), cfg.logStep, level, optType, cfg.startEpoch, epochs, st, w);
        if p.result.Err? then (p.world, p.result)
        else
          match AfterSaveState(cfg, p.world, p.state.model, net.optimizerState(p.state.optimizer), level, optType)
          case Err(e) => (p.world, Err(e))
          case Ok(w2) => (w2, Ok(()))
  }

  /** The state the trainer ends the loop with, for the final save. */
  function FinalState(cfg: Config, net: Oracle, w: World, encoder: Weights, loader: seq<Batch>,
                      epochs: int, tt: TrainingType, optType: string): Option<TrainerState>
  {
    match PretrainKind(cfg.sslMethod)
    case None => None
    case Some(kind) =>
      match InitTrainer(cfg, w, net, kind, encoder, false, PretrainLevel(tt), tt)
      case Err(_) => None
      case Ok(st) =>
        Some(PretrainFrom(cfg, net, kind, loader, net.batchSize(tt), cfg.logStep, PretrainLevel(tt), optType,
                          cfg.startEpoch, epochs, st, w).state)
  }

  /** The loop of lines 66-84 on the trainer object. */
  method EpochLoop(args: Args, store: FileStore, trainer: Trainer, level: string, optType: string, epochs: int)
    returns (r: Result<()>)
    modifies trainer`model, trainer`optimizer, trainer`scheduler
    modifies args`globalStep, args`currentEpoch, args`resume, store`files
    ensures var p := PretrainFrom(args.cfg, trainer.net, trainer.kind, trainer.loader, trainer.batchSize, trainer.logStep, level, optType,
                                  args.cfg.startEpoch, epochs, old(trainer.State()), old(Snap(args, store)));
      trainer.State() == p.state && Snap(args, store) == p.world && r == p.result
  {
    ghost var st0, w0 := trainer.State(), Snap(args, store);
    var epoch := args.cfg.startEpoch;
    while epoch < epochs
      invariant var p := PretrainFrom(args.cfg, trainer.net, trainer.kind, trainer.loader, trainer.batchSize, trainer.logStep, level, optType,
                                      epoch, epochs, trainer.State(), Snap(args, store));
        var q := PretrainFrom(args.cfg, trainer.net, trainer.kind, trainer.loader, trainer.batchSize, trainer.logStep, level, optType,
                              args.cfg.startEpoch, epochs, st0, w0);
        p.state == q.state && p.world == q.world && p.result == q.result
      decreases epochs - epoch
    {
      var res := EpochIteration(args, store, trainer, level, optType, epoch);
      if res.Err? {
        return res;
      }
      epoch := epoch + 1;
    }
    return Ok(());
  }

  /** One iteration of lines 66-84 on the trainer object. */
  method EpochIteration(args: Args, store: FileStore, trainer: Trainer, level: string, optType: string, epoch: int)
    returns (r: Result<()>)
    modifies trainer`model, trainer`optimizer, trainer`scheduler
    modifies args`globalStep, args`currentEpoch, args`resume, store`files
    ensures var s := EpochStep(args.cfg, trainer.net, trainer.kind, trainer.loader, trainer.batchSize, trainer.logStep, level, optType,
                               epoch, old(trainer.State()), old(Snap(args, store)));
      trainer.State() == s.state && Snap(args, store) == s.world && r == s.result
  {
    ghost var w0 := Snap(args, store);
    var loss := trainer.TrainEpoch(args, Some(epoch));
    if loss.Err? {
      return Err(loss.error);
    }
    if trainer.scheduler.Some? {
      var _ := trainer.StepSchedulerOnce();
    }
    ghost var w1 := w0.(globalStep := args.globalStep);
    assert Snap(args, store) == w1;
    if epoch > 0 && epoch % 20 == 0 {
      var saved := SaveState(args, store, trainer.model, trainer.net.optimizerState(trainer.optimizer), level, optType);
      if saved.Err? {
        return Err(saved.error);
      }
    }
    args.currentEpoch := args.currentEpoch + 1;
    return Ok(());
  }

  /** `base_pretrain(encoder, train_loader, epochs, trainingType, optimizer_type)`. */
  method BasePretrain(args: Args, store: FileStore, net: Oracle, encoder: Weights, loader: seq<Batch>,
                      epochs: int, tt: TrainingType, optType: string) returns (r: Result<()>)
    modifies args`globalStep, args`currentEpoch, args`resume, store`files
    ensures var (w, res) := BasePretrainRun(args.cfg, net, old(Snap(args, store)), encoder, loader, epochs, tt, optType);
      Snap(args, store) == w && r == res
  {
    var level := PretrainLevel(tt);
    var kind := PretrainKind(args.cfg.sslMethod);
    if kind.None? {
      return Err(UnboundTrainer);
    }
    var made := NewTrainer(args, store, net, kind.value, encoder, loader, false, level, tt, args.cfg.logStep);
    if made.Err? {
      return Err(made.error);
    }
    var trainer := made.value;
    r := EpochLoop(args, store, trainer, level, optType, epochs);
    if r.Err? {
      return;
    }
    var saved := SaveState(args, store, trainer.model, net.optimizerState(trainer.optimizer), level, optType);
    if saved.Err? {
      return Err(saved.error);
    }
    return Ok(());
  }

  /** `first_pretrain()`: base pretraining for base_epochs with the base
      optimizer, on the encoder and loader BasePretrainer.first_pretrain
      builds. */
  method FirstPretrain(args: Args, store: FileStore, net: Oracle, encoder: Weights, loader: seq<Batch>)
    returns (r: Result<()>)
    modifies args`globalStep, args`currentEpoch, args`resume, store`files
    ensures var (w, res) := BasePretrainRun(args.cfg, net, old(Snap(args, store)), encoder, loader,
                                            args.cfg.baseEpochs, TrainingType.BasePretrain, args.cfg.baseOptimizer);
      Snap(args, store) == w && r == res
  {
    r := BasePretrain(args, store, net, encoder, loader, args.cfg.baseEpochs, TrainingType.BasePretrain, args.cfg.baseOptimizer);
  }

  /** What unpacking `None` into `encoder, loader` raises. */
  const UnpackNone := TypeError("cannot unpack non-iterable NoneType object")

  /** What BasePretrainer.second_pretrain hands back
      (models/trainers/base_pretrainer.py, lines 32-33): nothing. */
  function ParentSecondPretrain(): (r: Option<(Weights, seq<Batch>)>)
    ensures r.None?
  {
    None
  }

  /** Lines 96-98 given what the parent returned: unpacking None raises;
      an (encoder, loader) pair would run base pretraining for
      target_epochs with the target optimizer. */
  method SecondPretrainFrom(args: Args, store: FileStore, net: Oracle, parent: Option<(Weights, seq<Batch>)>)
    returns (r: Result<()>)
    modifies args`globalStep, args`currentEpoch, args`resume, store`files
    ensures parent.None? ==> r == Err(UnpackNone) && Snap(args, store) == old(Snap(args, store))
    ensures parent.Some? ==>
      var (w, res) := BasePretrainRun(args.cfg, net, old(Snap(args, store)), parent.value.0, parent.value.1,
                                      args.cfg.targetEpochs, TrainingType.TargetPretrain, args.cfg.targetOptimizer);
      Snap(args, store) == w && r == res
  {
    match parent
    case None =>
      return Err(UnpackNone);
    case Some((encoder, loader)) =>
      r := BasePretrain(args, store, net, encoder, loader, args.cfg.targetEpochs, TrainingType.TargetPretrain, args.cfg.targetOptimizer);
  }

  /** `second_pretrain()`: the parent returns None, so the unpacking raises
      before anything is trained or written. */
  method SecondPretrain(args: Args, store: FileStore, net: Oracle) returns (r: Result<()>)
    modifies args`globalStep, args`currentEpoch, args`resume, store`files
    ensures r == Err(UnpackNone)
    ensures Snap(args, store) == old(Snap(args, store))
  {
    var parent := ParentSecondPretrain();
    r := SecondPretrainFrom(args, store, net, parent);
  }

  // =====================================================================
  // Properties

  /** An iteration that raises nothing advances current_epoch by one,
      saves exactly when its index checkpoints, and steps the scheduler
      when there is one. */
  lemma EpochStepFacts(cfg: Config, net: Oracle, kind: TrainerKind, loader: seq<Batch>, bs: int, ls: int,
                       level: string, optType: string, e: int, st: TrainerState, w: World)
    requires EpochStep(cfg, net, kind, loader, bs, ls, level, optType, e, st, w).result.Ok?
    ensures var s := EpochStep(cfg, net, kind, loader, bs, ls, level, optType, e, st, w);
      && s.world.currentEpoch == w.currentEpoch + 1
      && (s.saved <==> Checkpoints(e))
      && s.state.scheduler == StepScheduler(st.scheduler)
  {
    var o := EpochOf(kind, net, loader, bs, ls, st, w.globalStep, Some(e));
    var w1 := w.(globalStep := o.globalStep);
    var st1 := o.state.(scheduler := StepScheduler(o.state.scheduler));
    if Checkpoints(e) {
      SaveStateWrites(cfg, w1, st1.model, net.optimizerState(st1.optimizer), level, optType);
    }
  }

  /** A loop over e..epochs-1 that raises nothing advances current_epoch
      once per epoch. */
  lemma {:induction false} PretrainEpochCount(cfg: Config, net: Oracle, kind: TrainerKind, loader: seq<Batch>, bs: int, ls: int,
                                              level: string, optType: string, e: int, epochs: int,
                                              st: TrainerState, w: World)
    requires PretrainFrom(cfg, net, kind, loader, bs, ls, level, optType, e, epochs, st, w).result.Ok?
    ensures PretrainFrom(cfg, net, kind, loader, bs, ls, level, optType, e, epochs, st, w).world.currentEpoch
         == w.currentEpoch + (if epochs > e then epochs - e else 0)
    decreases epochs - e
  {
    if e < epochs {
      var s := EpochStep(cfg, net, kind, loader, bs, ls, level, optType, e, st, w);
      EpochStepFacts(cfg, net, kind, loader, bs, ls, level, optType, e, st, w);
      PretrainEpochCount(cfg, net, kind, loader, bs, ls, level, optType, e + 1, epochs, s.state, s.world);
    }
  }

  /** An epoch that raises nothing is followed by the remaining ones. */
  lemma PretrainFromUnfold(cfg: Config, net: Oracle, kind: TrainerKind, loader: seq<Batch>, bs: int, ls: int,
                           level: string, optType: string, e: int, epochs: int,
                           st: TrainerState, w: World)
    requires e < epochs
    requires PretrainFrom(cfg, net, kind, loader, bs, ls, level, optType, e, epochs, st, w).result.Ok?
    ensures var s := EpochStep(cfg, net, kind, loader, bs, ls, level, optType, e, st, w);
      var rest := PretrainFrom(cfg, net, kind, loader, bs, ls, level, optType, e + 1, epochs, s.state, s.world);
      && s.result.Ok?
      && rest.result.Ok?
      && PretrainFrom(cfg, net, kind, loader, bs, ls, level, optType, e, epochs, st, w).saves
         == (if s.saved then [w.currentEpoch] else []) + rest.saves
  {
  }

  /** The current_epoch values at which a loop starting at index e and
      current_epoch c, running n epochs, saves: those of the iterations
      whose index checkpoints. */
  predicate SavedAt(c: int, n: int, e: int, x: int) {
    c <= x < c + n && Checkpoints(x - c + e)
  }

  lemma SavedAtSplit(c: int, n: int, e: int, x: int)
    requires n > 0
    ensures SavedAt(c, n, e, x) <==> (x == c && Checkpoints(e)) || SavedAt(c + 1, n - 1, e + 1, x)
  {
    assert x - (c + 1) + (e + 1) == x - c + e;
  }

  /** Such a loop saves exactly when the loop index is a positive multiple
      of 20, each time at the current_epoch of that iteration. */
  lemma {:induction false} PretrainSaves(cfg: Config, net: Oracle, kind: TrainerKind, loader: seq<Batch>, bs: int, ls: int,
                                         level: string, optType: string, e: int, epochs: int,
                                         st: TrainerState, w: World)
    requires PretrainFrom(cfg, net, kind, loader, bs, ls, level, optType, e, epochs, st, w).result.Ok?
    ensures var saves := PretrainFrom(cfg, net, kind, loader, bs, ls, level, optType, e, epochs, st, w).saves;
      forall x :: x in saves <==> SavedAt(w.currentEpoch, epochs - e, e, x)
    decreases epochs - e
  {
    if e < epochs {
      var s := EpochStep(cfg, net, kind, loader, bs, ls, level, optType, e, st, w);
      PretrainFromUnfold(cfg, net, kind, loader, bs, ls, level, optType, e, epochs, st, w);
      EpochStepFacts(cfg, net, kind, loader, bs, ls, level, optType, e, st, w);
      PretrainSaves(cfg, net, kind, loader, bs, ls, level, optType, e + 1, epochs, s.state, s.world);
      var rest := PretrainFrom(cfg, net, kind, loader, bs, ls, level, optType, e + 1, epochs, s.state, s.world).saves;
      var head := if s.saved then [w.currentEpoch] else [];
      forall x
        ensures x in head + rest <==> SavedAt(w.currentEpoch, epochs - e, e, x)
      {
        assert x in head + rest <==> x in head || x in rest;
        SavedAtSplit(w.currentEpoch, epochs - e, e, x);
      }
    }
  }

  lemma PrependIncreasing(head: seq<int>, rest: seq<int>)
    requires |head| <= 1
    requires forall i, j :: 0 <= i < j < |rest| ==> rest[i] < rest[j]
    requires forall i, k :: 0 <= i < |head| && 0 <= k < |rest| ==> head[i] < rest[k]
    ensures forall i, j :: 0 <= i < j < |head + rest| ==> (head + rest)[i] < (head + rest)[j]
  {
    forall i, j | 0 <= i < j < |head + rest|
      ensures (head + rest)[i] < (head + rest)[j]
    {
      assert (head + rest)[j] == rest[j - |head|];
      if i >= |head| {
        assert (head + rest)[i] == rest[i - |head|];
      }
    }
  }

  /** ... and in increasing order. */
  lemma {:induction false} PretrainSavesIncreasing(cfg: Config, net: Oracle, kind: TrainerKind, loader: seq<Batch>, bs: int, ls: int,
                                                   level: string, optType: string, e: int, epochs: int,
                                                   st: TrainerState, w: World)
    requires PretrainFrom(cfg, net, kind, loader, bs, ls, level, optType, e, epochs, st, w).result.Ok?
    ensures var saves := PretrainFrom(cfg, net, kind, loader, bs, ls, level, optType, e, epochs, st, w).saves;
      forall i, j :: 0 <= i < j < |saves| ==> saves[i] < saves[j]
    decreases epochs - e
  {
    if e < epochs {
      var s := EpochStep(cfg, net, kind, loader, bs, ls, level, optType, e, st, w);
      PretrainFromUnfold(cfg, net, kind, loader, bs, ls, level, optType, e, epochs, st, w);
      EpochStepFacts(cfg, net, kind, loader, bs, ls, level, optType, e, st, w);
      PretrainSavesIncreasing(cfg, net, kind, loader, bs, ls, level, optType, e + 1, epochs, s.state, s.world);
      PretrainSaves(cfg, net, kind, loader, bs, ls, level, optType, e + 1, epochs, s.state, s.world);
      var rest := PretrainFrom(cfg, net, kind, loader, bs, ls, level, optType, e + 1, epochs, s.state, s.world).saves;
      var head := if s.saved then [w.currentEpoch] else [];
      forall i, k | 0 <= i < |head| && 0 <= k < |rest|
        ensures head[i] < rest[k]
      {
        assert rest[k] in rest;
      }
      PrependIncreasing(head, rest);
    }
  }

  /** The scheduler, when there is one, is stepped once per epoch; without
      one the loop never steps it. */
  lemma {:induction false} PretrainSchedulerSteps(cfg: Config, net: Oracle, kind: TrainerKind, loader: seq<Batch>, bs: int, ls: int,
                                                  level: string, optType: string, e: int, epochs: int,
                                                  st: TrainerState, w: World)
    requires PretrainFrom(cfg, net, kind, loader, bs, ls, level, optType, e, epochs, st, w).result.Ok?
    ensures var p := PretrainFrom(cfg, net, kind, loader, bs, ls, level, optType, e, epochs, st, w);
      && (st.scheduler.None? ==> p.state.scheduler.None?)
      && (st.scheduler.Some? ==>
            p.state.scheduler == Some(Scheduler(st.scheduler.value.steps + (if epochs > e then epochs - e else 0))))
    decreases epochs - e
  {
    if e < epochs {
      var s := EpochStep(cfg, net, kind, loader, bs, ls, level, optType, e, st, w);
      EpochStepFacts(cfg, net, kind, loader, bs, ls, level, optType, e, st, w);
      PretrainSchedulerSteps(cfg, net, kind, loader, bs, ls, level, optType, e + 1, epochs, s.state, s.world);
    }
  }

  /** The SimCLR trainer's train_epoch takes no epoch argument: when the
      loop runs at all its first call raises, leaving the trainer and the
      world as they were. */
  lemma SimClrPretrainRaises(cfg: Config, net: Oracle, loader: seq<Batch>, bs: int, ls: int,
                             level: string, optType: string, e: int, epochs: int,
                             st: TrainerState, w: World)
    requires e < epochs
    ensures PretrainFrom(cfg, net, SimClrKind, loader, bs, ls, level, optType, e, epochs, st, w)
         == Pretrained(st, w, Err(TypeError("train_epoch() takes 1 positional argument but 2 were given")), [])
  {
  }

  /** A successful `base_pretrain` ends with current_epoch advanced by the
      number of epochs run, and with `args.resume` naming the final
      checkpoint, which a later `load_saved_state` reads back with the
      trainer's final model and optimizer state under the given optimizer
      type. */
  lemma BasePretrainFacts(cfg: Config, net: Oracle, w: World, encoder: Weights, loader: seq<Batch>,
                          epochs: int, tt: TrainingType, optType: string, loadLevel: string)
    requires BasePretrainRun(cfg, net, w, encoder, loader, epochs, tt, optType).1.Ok?
    ensures var (w2, _) := BasePretrainRun(cfg, net, w, encoder, loader, epochs, tt, optType);
      var fin := FinalState(cfg, net, w, encoder, loader, epochs, tt, optType);
      && fin.Some?
      && w2.currentEpoch == w.currentEpoch + (if epochs > cfg.startEpoch then epochs - cfg.startEpoch else 0)
      && w2.resume == CheckpointPath(cfg, PretrainLevel(tt), w2.currentEpoch)
      && LoadSavedState(cfg, w2, true, loadLevel)
         == Ok(TorchCheckpoint(StateEntries(fin.value.model, optType, net.optimizerState(fin.value.optimizer))))
  {
    var level := PretrainLevel(tt);
    var kind := PretrainKind(cfg.sslMethod).value;
    var st := InitTrainer(cfg, w, net, kind, encoder, false, level, tt).value;
    var p := PretrainFrom(cfg, net, kind, loader, net.batchSize(tt), cfg.logStep, level, optType, cfg.startEpoch, epochs, st, w);
    PretrainEpochCount(cfg, net, kind, loader, net.batchSize(tt), cfg.logStep, level, optType, cfg.startEpoch, epochs, st, w);
    SaveStateWrites(cfg, p.world, p.state.model, net.optimizerState(p.state.optimizer), level, optType);
    LoadAfterSaveState(cfg, p.world, p.state.model, net.optimizerState(p.state.optimizer), level, optType, loadLevel);
  }

  /** With an SSL method none of the branches names, `base_pretrain`
      fails at `trainer.model` and changes nothing. */
  lemma UnknownMethodUnbound(cfg: Config, net: Oracle, w: World, encoder: Weights, loader: seq<Batch>,
                             epochs: int, tt: TrainingType, optType: string)
    requires cfg.sslMethod.OtherMethod?
    ensures BasePretrainRun(cfg, net, w, encoder, loader, epochs, tt, optType) == (w, Err(UnboundTrainer))
  {
  }
}
