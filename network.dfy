/** The neural network and the torch objects around it, which the model does
    not compute: every forward pass, loss value, softmax row and optimizer
    update is read from an `Oracle`, a bundle of total functions fixed for a
    run. */
module Network {
  import opened PathLosses
  import opened Environment
  import Outcome

  /** Which trainer object a dispatch builds. Only SimCLRTrainer is part of
      this model; the others enter through the oracle's `external*` fields. */
  datatype TrainerKind = SimClrKind | DclKind | SwavKind | MyowKind

  /** The loss object a trainer holds: NTXentLoss when the active-learning
      encoder is reused, the one get_model_criterion builds otherwise, or an
      unmodelled trainer's own. */
  datatype Criterion = NtXent | ModelCriterion(trainingType: TrainingType) | ExternalCriterion(kind: TrainerKind)

  /** An optimizer from `load_optimizer`: the saved state it was built from
      (None when nothing was loaded) and how many `step()` calls it has made. */
  datatype Optimizer = Optimizer(loadedFrom: Outcome.Option<Blob>, steps: nat)

  /** A learning-rate scheduler, by the number of `step()` calls made on it. */
  datatype Scheduler = Scheduler(steps: nat)

  datatype Oracle = Oracle(
    // get_model_criterion(args, encoder, training_type): the model it builds
    buildModel: (Weights, TrainingType) -> Weights,
    // model.load_state_dict(state, strict=False)
    loadState: (Weights, Weights) -> Weights,
    // make_batches: criterion(out1, out2) + criterion(out2, out1) for the
    // two stochastic forward passes over the sample at a scan step
    consistencyLoss: (Weights, nat, Path) -> real,
    // finetune: the softmax rows, one per sample its loader yields
    predictions: (Weights, seq<PathLoss>) -> seq<seq<real>>,
    // -sum(log(p) * p) over one row
    entropy: seq<real> -> real,
    // PretextDataLoader(args, samples).get_loader()
    poolLoader: seq<PathLoss> -> seq<Batch>,
    // get_params(args, training_type).batch_size
    batchSize: TrainingType -> int,
    // whether load_optimizer returns a scheduler (truthy) or None
    makesScheduler: bool,
    // criterion(model(image)).item() for one training step
    stepLoss: (Criterion, Weights, Batch) -> real,
    // the weights after loss.backward() and optimizer.step()
    stepUpdate: (Criterion, Weights, Optimizer, Batch) -> Weights,
    // optimizer.state_dict()
    optimizerState: Optimizer -> Weights,
    // an unmodelled trainer's constructor: the model it settles on, or the
    // exception it raises
    externalInit: (TrainerKind, Weights, TrainingType, bool) -> Outcome.Result<Weights>,
    // an unmodelled trainer's train_epoch, called with the loader, the
    // current global_step and the epoch argument when one is passed
    externalEpoch: (TrainerKind, Weights, Optimizer, seq<Batch>, int, Outcome.Option<int>) -> ExternalEpoch)

  /** What an unmodelled trainer's `train_epoch` leaves behind: its model and
      optimizer, `args.global_step`, and the epoch loss or the exception. */
  datatype ExternalEpoch = ExternalEpoch(model: Weights, optimizer: Optimizer, globalStep: int, loss: Outcome.Result<real>)
}
