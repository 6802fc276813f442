/** PretextTrainer (models/active_learning/pretext_trainer.py): scoring the
    target pool once (`make_batches`), training the proxy model
    (`train_proxy`), choosing samples with it (`finetune`), and the batch
    loop that grows the pretraining sample pool (`do_active_learning`). */
module Pretext {
  import opened Outcome
  import opened PathLosses
  import opened Environment
  import opened Commons
  import opened Network
  import opened Trainers
  import opened Selector
  import opened LossSort

  /** What a call leaves behind: the world, and its result or exception. */
  datatype Run<T> = Run(world: World, result: Result<T>)

  /** The number of iterations of `range(n)`. */
  function Max0(n: int): nat {
    if n > 0 then n else 0
  }

  // =====================================================================
  // make_batches (lines 137-183)

  /** The records the scan of lines 154-176 appends, one per loader item in
      loader order: the path and the consistency loss of that step. */
  function Scores(net: Oracle, model: Weights, paths: seq<Path>): (r: seq<PathLoss>)
    ensures |r| == |paths|
    ensures forall i :: 0 <= i < |paths| ==>
      WellFormed(r[i]) && r[i].path == paths[i] && r[i].loss == net.consistencyLoss(model, i, paths[i])
  {
    seq(|paths|, i requires 0 <= i < |paths| => PathLoss(net.consistencyLoss(model, i, paths[i]), paths[i], net.consistencyLoss(model, i, paths[i])))
  }

  /** The scoring model: the AL model built from the encoder with the
      level-1 saved state loaded into it (lines 142-145). */
  function ScanModel(cfg: Config, net: Oracle, w: World, encoder: Weights): Result<Weights> {
    var state :- LoadSavedState(cfg, w, true, "1");
    var saved :- Subscript(state, "model");
    Ok(net.loadState(net.buildModel(encoder, ActiveLearning), saved))
  }

  /** What `make_batches(encoder)` does. `al_batch_size` is set to 1 first
      and restored only on the normal path, so an exception leaves it at 1. */
  function MakeBatchesRun(cfg: Config, net: Oracle, w: World, encoder: Weights, paths: seq<Path>): Run<seq<PathLoss>> {
    var w1 := w.(alBatchSize := 1);
    match ScanModel(cfg, net, w1, encoder)
    case Err(e) => Run(w1, Err(e))
    case Ok(model) =>
      var sorted := SortByLossDesc(Scores(net, model, paths));
      var w2 := AfterSavePathLoss(cfg, w1, cfg.alPathLossFile, sorted);
      Run(w2.(alBatchSize := w.alBatchSize), Ok(sorted))
  }

  /** The scan loop: one forward-pass pair per loader item. */
  method ScoreSamples(net: Oracle, model: Weights, paths: seq<Path>) returns (pathloss: seq<PathLoss>)
    ensures pathloss == Scores(net, model, paths)
  {
    pathloss := [];
    var step := 0;
    while step < |paths|
      invariant 0 <= step <= |paths|
      invariant |pathloss| == step
      invariant forall i :: 0 <= i < step ==> pathloss[i] == Make(paths[i], net.consistencyLoss(model, i, paths[i]))
    {
      var path := paths[step];
      var loss := net.consistencyLoss(model, step, path);
      pathloss := pathloss + [Make(path, loss)];
      step := step + 1;
    }
  }

  /** `make_batches(encoder)`, with the target pool loader's items as `paths`. */
  method MakeBatches(args: Args, store: FileStore, net: Oracle, encoder: Weights, paths: seq<Path>)
    returns (r: Result<seq<PathLoss>>)
    modifies args`alBatchSize, store`files
    ensures var run := MakeBatchesRun(args.cfg, net, old(Snap(args, store)), encoder, paths);
      Snap(args, store) == run.world && r == run.result
  {
    var batchSize := args.alBatchSize;
    args.alBatchSize := 1;
    var model := ScanModel(args.cfg, net, Snap(args, store), encoder);
    if model.Err? {
      return Err(model.error);
    }
    var pathloss := ScoreSamples(net, model.value, paths);
    var sorted := SortByLossDesc(pathloss);
    SavePathLoss(args, store, args.cfg.alPathLossFile, sorted);
    args.alBatchSize := batchSize;
    return Ok(sorted);
  }

  /** A successful `make_batches` returns one record per loader item,
      ordered by non-increasing loss, records of equal loss in scan order,
      saves that list under al_path_loss_file (unless the file cannot be
      written) and restores al_batch_size; a failed one leaves
      al_batch_size at 1 and the files as they were. */
  lemma MakeBatchesFacts(cfg: Config, net: Oracle, w: World, encoder: Weights, paths: seq<Path>)
    ensures var run := MakeBatchesRun(cfg, net, w, encoder, paths);
      && (run.result.Ok? <==> ScanModel(cfg, net, w, encoder).Ok?)
      && (run.result.Ok? ==>
            var out := run.result.value;
            var scan := Scores(net, ScanModel(cfg, net, w, encoder).value, paths);
            && |out| == |paths|
            && multiset(out) == multiset(scan)
            && DescendingByLoss(out)
            && (forall v :: WithLoss(out, v) == WithLoss(scan, v))
            && run.world.alBatchSize == w.alBatchSize
            && run.world.resume == w.resume
            && (Join(cfg.modelPath, cfg.alPathLossFile) !in w.unwritable ==>
                  LoadPathLoss(cfg, run.world, cfg.alPathLossFile) == Ok(Some(out))))
      && (run.result.Err? ==> run.world == w.(alBatchSize := 1))
  {
    assert ScanModel(cfg, net, w.(alBatchSize := 1), encoder) == ScanModel(cfg, net, w, encoder);
    var m := ScanModel(cfg, net, w, encoder);
    if m.Ok? {
      var scan := Scores(net, m.value, paths);
      SortByLossDescPermutes(scan);
      SortByLossDescSorted(scan);
      forall v {
        SortByLossDescStable(scan, v);
      }
    }
  }

  // =====================================================================
  // train_proxy (lines 30-68)

  /** The log_step of the trainers train_proxy builds: SimCLRTrainer's
      default (models/self_sup/simclr/trainer/simclr_trainer.py, line 14). */
  const ProxyLogStep := 500

  /** The trainer lines 36-55 construct: none for a method without a
      branch there (SWAV included), since the bare `ValueError` raises
      nothing. */
  function ProxyKind(m: SslMethod): Option<TrainerKind> {
    match m
    case SimClr => Some(SimClrKind)
    case Dcl => Some(DclKind)
    case Myow => Some(MyowKind)
    case _ => None
  }

  /** The trainer's state, `args.global_step` and the outcome after k more
      iterations of lines 57-66: `train_epoch()`, then `scheduler.step()`,
      which fails when load_optimizer returned no scheduler. */
  function ProxyEpochs(kind: TrainerKind, net: Oracle, loader: seq<Batch>, bs: int, ls: int,
                       st: TrainerState, gs: int, k: nat): (TrainerState, int, Result<()>)
    decreases k
  {
    if k == 0 then (st, gs, Ok(()))
    else
      var o := EpochOf(kind, net, loader, bs, ls, st, gs, None);
      if o.loss.Err? then (o.state, o.globalStep, Err(o.loss.error))
      else if o.state.scheduler.None? then
        (o.state, o.globalStep, Err(NoScheduler))
      else ProxyEpochs(kind, net, loader, bs, ls, o.state.(scheduler := StepScheduler(o.state.scheduler)), o.globalStep, k - 1)
  }

  /** What `train_proxy(samples, model, rebuild_al_model)` does: only
      `args.global_step` changes, and the trained model is returned. With
      no trainer bound, the first use of `trainer` fails whether or not
      the epoch loop runs. */
  function TrainProxyRun(cfg: Config, net: Oracle, w: World, samples: seq<PathLoss>,
                         model: Weights, rebuild: bool): Run<Weights>
  {
    match ProxyKind(cfg.sslMethod)
    case None => Run(w, Err(UnboundTrainer))
    case Some(kind) =>
      match InitTrainer(cfg, w, net, kind, model, rebuild, "1", ActiveLearning)
      case Err(e) => Run(w, Err(e))
      case Ok(st) =>
        var (st2, gs, res) := ProxyEpochs(kind, net, net.poolLoader(samples), net.batchSize(ActiveLearning),
                                          ProxyLogStep, st, w.globalStep, Max0(cfg.alEpochs));
        Run(w.(globalStep := gs), if res.Err? then Err(res.error) else Ok(st2.model))
  }

  /** `train_proxy(samples, model, rebuild_al_model)`. */
  method TrainProxy(args: Args, store: FileStore, net: Oracle, samples: seq<PathLoss>,
                    model: Weights, rebuild: bool) returns (r: Result<Weights>)
    modifies args`globalStep
    ensures var run := TrainProxyRun(args.cfg, net, old(Snap(args, store)), samples, model, rebuild);
      Snap(args, store) == run.world && r == run.result
  {
    var kind := ProxyKind(args.cfg.sslMethod);
    if kind.None? {
      return Err(UnboundTrainer);
    }
    var loader := net.poolLoader(samples);
    var made := NewTrainer(args, store, net, kind.value, model, loader, rebuild, "1", ActiveLearning, ProxyLogStep);
    if made.Err? {
      return Err(made.error);
    }
    var trainer := made.value;
    var res := ProxyLoop(args, trainer, Max0(args.cfg.alEpochs));
    if res.Err? {
      return Err(res.error);
    }
    return Ok(trainer.model);
  }

  /** Lines 57-66: `epochs` rounds of `train_epoch()` then `scheduler.step()`. */
  method ProxyLoop(args: Args, trainer: Trainer, epochs: nat) returns (r: Result<()>)
    modifies trainer`model, trainer`optimizer, trainer`scheduler, args`globalStep
    ensures (trainer.State(), args.globalStep, r)
         == ProxyEpochs(trainer.kind, trainer.net, trainer.loader, trainer.batchSize, trainer.logStep,
                        old(trainer.State()), old(args.globalStep), epochs)
  {
    var epoch := 0;
    while epoch < epochs
      invariant 0 <= epoch <= epochs
      invariant ProxyEpochs(trainer.kind, trainer.net, trainer.loader, trainer.batchSize, trainer.logStep, trainer.State(), args.globalStep, epochs - epoch)
             == ProxyEpochs(trainer.kind, trainer.net, trainer.loader, trainer.batchSize, trainer.logStep,
                            old(trainer.State()), old(args.globalStep), epochs)
    {
      var loss := trainer.TrainEpoch(args, None);
      if loss.Err? {
        return Err(loss.error);
      }
      var stepped := trainer.StepSchedulerOnce();
      if stepped.Err? {
        return Err(stepped.error);
      }
      epoch := epoch + 1;
    }
    return Ok(());
  }

  /** Each successful run of the epoch loop makes exactly k scheduler steps
      (so a scheduler exists whenever k > 0); with SimCLR it also makes k
      passes over the loader, each advancing global_step and the optimizer
      once per batch. */
  lemma {:induction false} ProxyEpochsCounts(kind: TrainerKind, net: Oracle, loader: seq<Batch>, bs: int, ls: int,
                                             st: TrainerState, gs: int, k: nat)
    ensures var (st2, gs2, res) := ProxyEpochs(kind, net, loader, bs, ls, st, gs, k);
      res.Ok? ==>
        && (k > 0 ==> st.scheduler.Some?)
        && (st.scheduler.Some? ==> st2.scheduler == Some(Scheduler(st.scheduler.value.steps + k)))
        && (kind == SimClrKind ==>
              && gs2 == gs + k * |loader|
              && st2.optimizer.steps == st.optimizer.steps + k * |loader|)
    decreases k
  {
    if k > 0 {
      var o := EpochOf(kind, net, loader, bs, ls, st, gs, None);
      if o.loss.Ok? && o.state.scheduler.Some? {
        SimClrEpochFacts(net, loader, bs, ls, st, gs, None);
        ProxyEpochsCounts(kind, net, loader, bs, ls, o.state.(scheduler := StepScheduler(o.state.scheduler)), o.globalStep, k - 1);
        MulSucc(k - 1, |loader|);
      }
    }
  }

  /** A SimCLR proxy trained for at least one epoch on an empty pool loader,
      or with a zero batch size, divides by zero in its first train_epoch,
      before global_step moves. */
  lemma ProxyDividesByZero(net: Oracle, loader: seq<Batch>, bs: int, st: TrainerState, gs: int, k: nat)
    requires k > 0 && (loader == [] || bs == 0)
    ensures ProxyEpochs(SimClrKind, net, loader, bs, ProxyLogStep, st, gs, k).2 == Err(ZeroDivision)
    ensures ProxyEpochs(SimClrKind, net, loader, bs, ProxyLogStep, st, gs, k).1 == gs
  {
    SimClrEpochFacts(net, loader, bs, ProxyLogStep, st, gs, None);
  }

  /** `train_proxy` changes nothing but `args.global_step`, and an unknown
      method fails with the unbound trainer without touching anything. */
  lemma TrainProxyChangesOnlyGlobalStep(cfg: Config, net: Oracle, w: World, samples: seq<PathLoss>,
                                        model: Weights, rebuild: bool)
    ensures var run := TrainProxyRun(cfg, net, w, samples, model, rebuild);
      run.world == w.(globalStep := run.world.globalStep)
    ensures ProxyKind(cfg.sslMethod).None? ==> TrainProxyRun(cfg, net, w, samples, model, rebuild) == Run(w, Err(UnboundTrainer))
  {
  }

  // =====================================================================
  // finetune (lines 70-99)

  /** What `finetune(model, samples)` returns: the softmax rows over the
      samples' loader, ranked by `get_new_samples`; with no batches
      `torch.cat` of the empty list raises. */
  function FinetuneResult(cfg: Config, net: Oracle, model: Weights, samples: seq<PathLoss>): Result<seq<PathLoss>> {
    var preds := net.predictions(model, samples);
    if preds == [] then Err(RuntimeError("torch.cat(): expected a non-empty list of Tensors"))
    else NewSamples(cfg.alMethod, preds, net.entropy, samples)
  }

  /** `finetune(model, samples)`. */
  method Finetune(args: Args, net: Oracle, model: Weights, samples: seq<PathLoss>) returns (r: Result<seq<PathLoss>>)
    ensures r == FinetuneResult(args.cfg, net, model, samples)
  {
    var preds := net.predictions(model, samples);
    if preds == [] {
      return Err(RuntimeError("torch.cat(): expected a non-empty list of Tensors"));
    }
    r := GetNewSamples(args.cfg.alMethod, preds, net.entropy, samples);
  }

  /** A successful finetune returns at most 5120 samples, each taken from
      the given ones and none twice. */
  lemma FinetuneSelects(cfg: Config, net: Oracle, model: Weights, samples: seq<PathLoss>)
    requires FinetuneResult(cfg, net, model, samples).Ok?
    ensures var out := FinetuneResult(cfg, net, model, samples).value;
      && |out| <= SelectCap
      && |out| <= |samples|
      && (forall k :: 0 <= k < |out| ==> out[k] in samples)
      && multiset(out) <= multiset(samples)
  {
    var preds := net.predictions(model, samples);
    NewSamplesShape(cfg.alMethod, preds, net.entropy, samples);
    NewSamplesOkIff(cfg.alMethod, preds, net.entropy, samples);
    NewSamplesSubMultiset(cfg.alMethod, preds, net.entropy, samples);
  }

  // =====================================================================
  // do_active_learning (lines 185-220)

  /** `path_loss[b*6400:(b+1)*6400]`. */
  const SliceSize: nat := 6400

  function Slice(pl: seq<PathLoss>, b: nat): seq<PathLoss> {
    pl[Min(b * SliceSize, |pl|)..Min((b + 1) * SliceSize, |pl|)]
  }

  /** What one iteration of the batch loop did, for the statements about a
      whole run: its slice, the proxy state it loaded (b > 0), the samples
      it chose, the rebuild flag train_proxy got, and the model it saved. */
  datatype BatchRecord = BatchRecord(
    slice: seq<PathLoss>,
    loaded: Option<Weights>,
    selected: seq<PathLoss>,
    trained: Option<bool>,
    saved: Option<Weights>)

  /** The loop's variables: the pool, `proxy_model`, `rebuild_al_model`,
      the world, and the iterations so far. */
  datatype AlState = AlState(pool: seq<PathLoss>, proxy: Weights, rebuild: bool, world: World, trace: seq<BatchRecord>)

  /** The state after an iteration, or the state when it raised. */
  datatype AlStepOut = AlStepOut(state: AlState, failure: Option<Error>)

  /** The concatenation of the selections of the iterations so far. */
  function Pool(trace: seq<BatchRecord>): seq<PathLoss>
    decreases |trace|
  {
    if trace == [] then [] else Pool(trace[..|trace| - 1]) + trace[|trace| - 1].selected
  }

  /** Lines 199-207: the proxy weights after the load of batch b > 0, the
      state dict loaded, and the samples chosen from the slice. */
  datatype Selection = Selection(proxy: Weights, loaded: Option<Weights>, picked: seq<PathLoss>)

  function SelectBatch(cfg: Config, net: Oracle, pl: seq<PathLoss>, b: nat, s: AlState): Result<Selection> {
    var slice := Slice(pl, b);
    if b > 0 then
      var saved :- SimpleLoadModel(cfg, s.world, ProxyName(b - 1));
      var proxy := net.loadState(s.proxy, saved);
      var picked :- FinetuneResult(cfg, net, proxy, slice);
      Ok(Selection(proxy, Some(saved), picked))
    else
      Ok(Selection(s.proxy, None, slice[..Min(SelectCap, |slice|)]))
  }

  /** One iteration (lines 197-217) of a loop of n batches. */
  function AlStep(cfg: Config, net: Oracle, pl: seq<PathLoss>, n: int, b: nat, s: AlState): AlStepOut {
    match SelectBatch(cfg, net, pl, b, s)
    case Err(e) => AlStepOut(s, Some(e))
    case Ok(sel) =>
      var pool := s.pool + sel.picked;
      if b < n - 1 then
        var run := TrainProxyRun(cfg, net, s.world, pool, sel.proxy, s.rebuild);
        match run.result
        case Err(e) => AlStepOut(s.(world := run.world), Some(e))
        case Ok(trained) =>
          match AfterSimpleSave(cfg, run.world, trained, ProxyName(b))
          case Err(e) => AlStepOut(s.(world := run.world), Some(e))
          case Ok(w2) =>
            AlStepOut(AlState(pool, trained, false, w2,
                              s.trace + [BatchRecord(Slice(pl, b), sel.loaded, sel.picked, Some(s.rebuild), Some(trained))]), None)
      else
        AlStepOut(AlState(pool, sel.proxy, s.rebuild, s.world,
                          s.trace + [BatchRecord(Slice(pl, b), sel.loaded, sel.picked, None, None)]), None)
  }

  /** The iterations b, b+1, ..., n-1, stopping at the first exception. */
  function AlFrom(cfg: Config, net: Oracle, pl: seq<PathLoss>, n: int, b: nat, s: AlState): AlStepOut
    decreases n - b
  {
    if b >= n then AlStepOut(s, None)
    else
      var o := AlStep(cfg, net, pl, n, b, s);
      if o.failure.Some? then o else AlFrom(cfg, net, pl, n, b + 1, o.state)
  }

  /** Lines 189-191: the cached list, or a fresh scoring when the cache
      load returns None. */
  function PathLossList(cfg: Config, net: Oracle, w: World, encoder: Weights, paths: seq<Path>): Run<seq<PathLoss>> {
    match LoadPathLoss(cfg, w, cfg.alPathLossFile)
    case Err(e) => Run(w, Err(e))
    case Ok(None) => MakeBatchesRun(cfg, net, w, encoder, paths)
    case Ok(Some(items)) => Run(w, Ok(items))
  }

  /** What `do_active_learning()` leaves behind, with the iterations it ran. */
  datatype AlOutcome = AlOutcome(world: World, result: Result<seq<PathLoss>>, trace: seq<BatchRecord>)

  function AlRun(cfg: Config, net: Oracle, w: World, encoder: Weights, paths: seq<Path>): AlOutcome {
    var src := PathLossList(cfg, net, w, encoder, paths);
    match src.result
    case Err(e) => AlOutcome(src.world, Err(e), [])
    case Ok(pl) =>
      var o := AlFrom(cfg, net, pl, cfg.alBatches, 0, AlState([], encoder, true, src.world, []));
      if o.failure.Some? then AlOutcome(o.state.world, Err(o.failure.value), o.state.trace)
      else AlOutcome(AfterSavePathLoss(cfg, o.state.world, cfg.pretrainPathLossFile, o.state.pool),
                     Ok(o.state.pool), o.state.trace)
  }

  /** One iteration of the batch loop, on the objects. */
  method BatchStep(args: Args, store: FileStore, net: Oracle, pl: seq<PathLoss>, n: int, b: nat,
                   pool: seq<PathLoss>, proxy: Weights, rebuild: bool, ghost trace: seq<BatchRecord>)
    returns (failure: Option<Error>, pool2: seq<PathLoss>, proxy2: Weights, rebuild2: bool, ghost trace2: seq<BatchRecord>)
    requires b < n
    modifies args`globalStep, store`files
    ensures var o := AlStep(args.cfg, net, pl, n, b, AlState(pool, proxy, rebuild, old(Snap(args, store)), trace));
      && failure == o.failure
      && (failure.None? ==> o.state == AlState(pool2, proxy2, rebuild2, Snap(args, store), trace2))
      && (failure.Some? ==> Snap(args, store) == o.state.world)
  {
    ghost var s := AlState(pool, proxy, rebuild, Snap(args, store), trace);
    var slice := Slice(pl, b);
    var picked: seq<PathLoss>;
    ghost var loaded: Option<Weights> := None;
    proxy2 := proxy;
    if b > 0 {
      var saved := SimpleLoadModel(args.cfg, Snap(args, store), ProxyName(b - 1));
      if saved.Err? {
        return Some(saved.error), pool, proxy, rebuild, trace;
      }
      proxy2 := net.loadState(proxy, saved.value);
      loaded := Some(saved.value);
      var chosen := Finetune(args, net, proxy2, slice);
      if chosen.Err? {
        return Some(chosen.error), pool, proxy, rebuild, trace;
      }
      picked := chosen.value;
    } else {
      picked := slice[..Min(SelectCap, |slice|)];
    }
    assert SelectBatch(args.cfg, net, pl, b, s) == Ok(Selection(proxy2, loaded, picked));
    pool2 := pool + picked;
    if b < n - 1 {
      var trained := TrainProxy(args, store, net, pool2, proxy2, rebuild);
      if trained.Err? {
        return Some(trained.error), pool, proxy, rebuild, trace;
      }
      proxy2 := trained.value;
      rebuild2 := false;
      var written := SimpleSaveModel(args, store, proxy2, ProxyName(b));
      if written.Err? {
        return Some(written.error), pool, proxy, rebuild, trace;
      }
      trace2 := trace + [BatchRecord(slice, loaded, picked, Some(rebuild), Some(proxy2))];
    } else {
      rebuild2 := rebuild;
      trace2 := trace + [BatchRecord(slice, loaded, picked, None, None)];
    }
    failure := None;
  }

  /** The batch loop of lines 196-217 over the list `pl`. */
  method RunBatches(args: Args, store: FileStore, net: Oracle, pl: seq<PathLoss>, encoder: Weights)
    returns (failure: Option<Error>, pool: seq<PathLoss>)
    modifies args`globalStep, store`files
    ensures var o := AlFrom(args.cfg, net, pl, args.cfg.alBatches, 0, AlState([], encoder, true, old(Snap(args, store)), []));
      && failure == o.failure
      && Snap(args, store) == o.state.world
      && (failure.None? ==> pool == o.state.pool)
  {
    ghost var s0 := AlState([], encoder, true, Snap(args, store), []);
    var n := args.cfg.alBatches;
    pool := [];
    var proxy := encoder;
    var rebuild := true;
    ghost var trace: seq<BatchRecord> := [];
    var b: nat := 0;
    while b < n
      invariant AlFrom(args.cfg, net, pl, n, b, AlState(pool, proxy, rebuild, Snap(args, store), trace))
             == AlFrom(args.cfg, net, pl, n, 0, s0)
      decreases n - b
    {
      ghost var cur := AlState(pool, proxy, rebuild, Snap(args, store), trace);
      var stepFailure;
      stepFailure, pool, proxy, rebuild, trace := BatchStep(args, store, net, pl, n, b, pool, proxy, rebuild, trace);
      if stepFailure.Some? {
        return stepFailure, pool;
      }
      b := b + 1;
    }
    failure := None;
  }

  /** `do_active_learning()`, with the freshly built encoder and the target
      pool loader's items as parameters. */
  method DoActiveLearning(args: Args, store: FileStore, net: Oracle, encoder: Weights, paths: seq<Path>)
    returns (r: Result<seq<PathLoss>>)
    modifies args`alBatchSize, args`globalStep, store`files
    ensures var o := AlRun(args.cfg, net, old(Snap(args, store)), encoder, paths);
      Snap(args, store) == o.world && r == o.result
  {
    var cached := LoadPathLoss(args.cfg, Snap(args, store), args.cfg.alPathLossFile);
    if cached.Err? {
      return Err(cached.error);
    }
    var pl: seq<PathLoss>;
    if cached.value.None? {
      var made := MakeBatches(args, store, net, encoder, paths);
      if made.Err? {
        return Err(made.error);
      }
      pl := made.value;
    } else {
      pl := cached.value.value;
    }
    var failure, pool := RunBatches(args, store, net, pl, encoder);
    if failure.Some? {
      return Err(failure.value);
    }
    SavePathLoss(args, store, args.cfg.pretrainPathLossFile, pool);
    return Ok(pool);
  }

  // =====================================================================
  // Properties of the batch loop

  /** Slices hold at most 6400 records, are empty past the end of the
      list, and the first k of them, concatenated, are the list's first
      min(6400k, |pl|) records: they are contiguous and do not overlap. */
  lemma {:induction false} SlicesTile(pl: seq<PathLoss>, k: nat)
    ensures |Slice(pl, k)| <= SliceSize
    ensures k * SliceSize >= |pl| ==> Slice(pl, k) == []
    ensures SlicesUpTo(pl, k) == pl[..Min(k * SliceSize, |pl|)]
  {
    if k > 0 {
      SlicesTile(pl, k - 1);
      var a, c := Min((k - 1) * SliceSize, |pl|), Min(k * SliceSize, |pl|);
      assert pl[..a] + pl[a..c] == pl[..c];
    }
  }

  /** The slices of batches 0..k-1, concatenated. */
  function SlicesUpTo(pl: seq<PathLoss>, k: nat): seq<PathLoss>
    decreases k
  {
    if k == 0 then [] else SlicesUpTo(pl, k - 1) + Slice(pl, k - 1)
  }

  /** The proxy model of batch b sits under `proxy_{b}.pth`. */
  predicate ProxySaved(cfg: Config, w: World, b: int, proxy: Weights) {
    var p := Join(cfg.modelPath, ProxyName(b));
    p in w.files && w.files[p] == TorchCheckpoint(map["model" := proxy])
  }

  /** What iteration k of a loop of n batches recorded, as lines 197-217
      dictate. */
  predicate RecordOk(pl: seq<PathLoss>, n: int, trace: seq<BatchRecord>, k: nat)
    requires k < |trace|
  {
    var r := trace[k];
    && r.slice == Slice(pl, k)
    && (r.loaded.Some? <==> k > 0)
    && (k == 0 ==> r.selected == r.slice[..Min(SelectCap, |r.slice|)])
    && (k > 0 ==> |r.selected| <= SelectCap && multiset(r.selected) <= multiset(r.slice))
    && (k > 0 ==> r.loaded == trace[k - 1].saved)
    && r.trained == (if k < n - 1 then Some(k == 0) else None)
    && (r.saved.Some? <==> k < n - 1)
  }

  /** The loop invariant: b iterations recorded, the pool is their
      selections concatenated, rebuild_al_model is true until a proxy has
      been trained, and the proxy of the previous batch is on disk. */
  predicate AlInv(cfg: Config, pl: seq<PathLoss>, n: int, b: nat, s: AlState) {
    && |s.trace| == b
    && s.pool == Pool(s.trace)
    && s.rebuild == (b == 0 || n <= 1)
    && (forall k: nat :: k < b ==> RecordOk(pl, n, s.trace, k))
    && (0 < b < n ==> ProxySaved(cfg, s.world, b - 1, s.proxy) && s.trace[b - 1].saved == Some(s.proxy))
  }

  /** At batch b > 0 the load of `proxy_{b-1}` cannot fail: it reads back
      the model the previous iteration trained and saved. */
  lemma ProxyLoadSucceeds(cfg: Config, pl: seq<PathLoss>, n: int, b: nat, s: AlState)
    requires AlInv(cfg, pl, n, b, s) && 0 < b < n
    ensures SimpleLoadModel(cfg, s.world, ProxyName(b - 1)) == Ok(s.proxy)
  {
  }

  lemma PoolSnoc(trace: seq<BatchRecord>, rec: BatchRecord)
    ensures Pool(trace + [rec]) == Pool(trace) + rec.selected
  {
    assert (trace + [rec])[..|trace|] == trace;
  }

  /** What a completed iteration appends and leaves behind. */
  lemma AlStepShape(cfg: Config, net: Oracle, pl: seq<PathLoss>, n: int, b: nat, s: AlState)
    requires AlStep(cfg, net, pl, n, b, s).failure.None?
    ensures var o := AlStep(cfg, net, pl, n, b, s).state;
      var sel := SelectBatch(cfg, net, pl, b, s);
      && sel.Ok?
      && o.pool == s.pool + sel.value.picked
      && o.trace == s.trace + [BatchRecord(Slice(pl, b), sel.value.loaded, sel.value.picked,
                                           if b < n - 1 then Some(s.rebuild) else None,
                                           if b < n - 1 then Some(o.proxy) else None)]
      && o.rebuild == (if b < n - 1 then false else s.rebuild)
      && (b < n - 1 ==> ProxySaved(cfg, o.world, b, o.proxy))
  {
  }

  /** Batch 0 keeps the head of its slice and loads nothing; a later batch
      loads the state dict saved under `proxy_{b-1}` and picks at most 5120
      records of its own slice, none more often than it occurs there. */
  lemma SelectBatchShape(cfg: Config, net: Oracle, pl: seq<PathLoss>, b: nat, s: AlState)
    requires SelectBatch(cfg, net, pl, b, s).Ok?
    ensures var sel := SelectBatch(cfg, net, pl, b, s).value;
      && (b == 0 ==> sel.loaded.None? && sel.picked == Slice(pl, 0)[..Min(SelectCap, |Slice(pl, 0)|)])
      && (b > 0 ==> SimpleLoadModel(cfg, s.world, ProxyName(b - 1)).Ok?
                    && sel.loaded == Some(SimpleLoadModel(cfg, s.world, ProxyName(b - 1)).value)
                    && |sel.picked| <= SelectCap
                    && multiset(sel.picked) <= multiset(Slice(pl, b)))
  {
    if b > 0 {
      var saved := SimpleLoadModel(cfg, s.world, ProxyName(b - 1)).value;
      FinetuneSelects(cfg, net, net.loadState(s.proxy, saved), Slice(pl, b));
    }
  }

  /** Each iteration that completes keeps the invariant. */
  lemma AlStepKeeps(cfg: Config, net: Oracle, pl: seq<PathLoss>, n: int, b: nat, s: AlState)
    requires AlInv(cfg, pl, n, b, s) && b < n
    requires AlStep(cfg, net, pl, n, b, s).failure.None?
    ensures AlInv(cfg, pl, n, b + 1, AlStep(cfg, net, pl, n, b, s).state)
  {
    var o := AlStep(cfg, net, pl, n, b, s).state;
    AlStepShape(cfg, net, pl, n, b, s);
    SelectBatchShape(cfg, net, pl, b, s);
    if b > 0 {
      ProxyLoadSucceeds(cfg, pl, n, b, s);
    }
    var rec := o.trace[b];
    PoolSnoc(s.trace, rec);
    forall k: nat | k < b + 1
      ensures RecordOk(pl, n, o.trace, k)
    {
      if k < b {
        assert o.trace[k] == s.trace[k];
        assert RecordOk(pl, n, s.trace, k);
      }
      if 0 < k {
        assert o.trace[k - 1] == s.trace[k - 1];
      }
    }
  }

  /** A run of the remaining iterations that raises nothing ends with the
      invariant at the last batch. */
  lemma {:induction false} AlFromKeeps(cfg: Config, net: Oracle, pl: seq<PathLoss>, n: int, b: nat, s: AlState)
    requires AlInv(cfg, pl, n, b, s)
    requires AlFrom(cfg, net, pl, n, b, s).failure.None?
    ensures AlInv(cfg, pl, n, if b < n then n else b, AlFrom(cfg, net, pl, n, b, s).state)
    decreases n - b
  {
    if b < n {
      var o := AlStep(cfg, net, pl, n, b, s);
      assert o.failure.None? && AlFrom(cfg, net, pl, n, b, s) == AlFrom(cfg, net, pl, n, b + 1, o.state);
      AlStepKeeps(cfg, net, pl, n, b, s);
      AlFromKeeps(cfg, net, pl, n, b + 1, o.state);
    }
  }

  /** A successful `do_active_learning` runs al_batches iterations (none
      when it is not positive): iteration b takes `path_loss[b*6400:(b+1)*6400]`;
      iteration 0 keeps the first min(5120, |slice|) records and loads
      nothing; every later one loads exactly the proxy the one before it
      saved and keeps at most 5120 records of its own slice, none more
      often than it occurs there; train_proxy runs for every iteration but the last, with
      rebuild_al_model true only the first time, and its model is saved.
      The returned pool is the concatenation of the selections and is
      saved under pretrain_path_loss_file unless that file cannot be
      written. */
  lemma AlRunFacts(cfg: Config, net: Oracle, w: World, encoder: Weights, paths: seq<Path>)
    requires AlRun(cfg, net, w, encoder, paths).result.Ok?
    ensures var o := AlRun(cfg, net, w, encoder, paths);
      var pool := o.result.value;
      && |o.trace| == Max0(cfg.alBatches)
      && pool == Pool(o.trace)
      && (forall k: nat :: k < |o.trace| ==> RecordOk(PathLossList(cfg, net, w, encoder, paths).result.value, cfg.alBatches, o.trace, k))
      && (Join(cfg.modelPath, cfg.pretrainPathLossFile) !in o.world.unwritable ==>
            LoadPathLoss(cfg, o.world, cfg.pretrainPathLossFile) == Ok(Some(pool)))
  {
    var src := PathLossList(cfg, net, w, encoder, paths);
    var pl := src.result.value;
    var s0 := AlState([], encoder, true, src.world, []);
    AlFromKeeps(cfg, net, pl, cfg.alBatches, 0, s0);
    var o := AlFrom(cfg, net, pl, cfg.alBatches, 0, s0);
    PathLossRoundTrip(cfg, o.state.world, cfg.pretrainPathLossFile, o.state.pool);
  }

  /** The list is rescored exactly when the cache load returns None; a
      cached list is used as it is and nothing is written for it. */
  lemma RescoresOnlyWithoutCache(cfg: Config, net: Oracle, w: World, encoder: Weights, paths: seq<Path>)
    ensures LoadPathLoss(cfg, w, cfg.alPathLossFile) == Ok(None) ==>
      PathLossList(cfg, net, w, encoder, paths) == MakeBatchesRun(cfg, net, w, encoder, paths)
    ensures forall items :: LoadPathLoss(cfg, w, cfg.alPathLossFile) == Ok(Some(items)) ==>
      PathLossList(cfg, net, w, encoder, paths) == Run(w, Ok(items))
  {
  }
}
