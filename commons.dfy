/** Checkpoint naming and the save/load helpers of utils/commons.py, over the
    file map of `Environment.World`. Functions describe what a call reads or
    what the world becomes; the methods perform the writes on the objects. */
module Commons {
  import opened Outcome
  import opened PathLosses
  import opened Environment

  // ---------------------------------------------------------------------
  // Paths and names

  /** `os.path.join(dir, name)` on POSIX: an absolute name replaces the
      directory, otherwise one separator is put between them. */
  function Join(dir: string, name: string): string {
    if |name| > 0 && name[0] == '/' then name
    else if dir == [] || dir[|dir| - 1] == '/' then dir + name
    else dir + "/" + name
  }

  function DigitChar(d: nat): (c: char)
    requires d < 10
    ensures '0' <= c <= '9'
  {
    (d + 48) as char
  }

  /** `str(n)` for a non-negative int. */
  function DigitsOf(n: nat): (s: string)
    ensures |s| > 0 && '0' <= s[0] <= '9'
  {
    if n < 10 then [DigitChar(n)] else DigitsOf(n / 10) + [DigitChar(n % 10)]
  }

  /** `str(i)` for any int. */
  function IntToString(i: int): string {
    if i < 0 then "-" + DigitsOf(-i) else DigitsOf(i)
  }

  lemma {:induction false} DigitsOfInjective(a: nat, b: nat)
    requires DigitsOf(a) == DigitsOf(b)
    ensures a == b
    decreases a
  {
    if a < 10 || b < 10 {
      assert DigitChar(a % 10) == DigitsOf(a)[|DigitsOf(a)| - 1] == DigitsOf(b)[|DigitsOf(b)| - 1] == DigitChar(b % 10);
    } else {
      var sa, sb := DigitsOf(a), DigitsOf(b);
      assert sa[|sa| - 1] == DigitChar(a % 10) && sb[|sb| - 1] == DigitChar(b % 10);
      assert sa[..|sa| - 1] == DigitsOf(a / 10) && sb[..|sb| - 1] == DigitsOf(b / 10);
      DigitsOfInjective(a / 10, b / 10);
    }
  }

  /** Distinct ints print differently. */
  lemma IntToStringInjective(a: int, b: int)
    requires IntToString(a) == IntToString(b)
    ensures a == b
  {
    if a < 0 && b < 0 {
      assert DigitsOf(-a) == IntToString(a)[1..] == IntToString(b)[1..] == DigitsOf(-b);
      DigitsOfInjective(-a, -b);
    } else if a >= 0 && b >= 0 {
      DigitsOfInjective(a, b);
    }
  }

  /** The file-name prefix chosen from `args.method` (lines 12-19 and 33-40). */
  function Prefix(m: SslMethod): string {
    if m == SimClr then "simclr" else if m == Dcl then "dcl" else "myow"
  }

  /** `"{}_{}_checkpoint_{}.tar".format(prefix, level, epoch)`. */
  function CheckpointName(prefix: string, level: string, epoch: int): string {
    prefix + "_" + level + "_checkpoint_" + IntToString(epoch) + ".tar"
  }

  /** Where `save_state` writes at epoch index `epoch`, and where
      `load_saved_state` looks when it does not use `args.resume`. */
  function CheckpointPath(cfg: Config, level: string, epoch: int): string {
    Join(cfg.modelPath, CheckpointName(Prefix(cfg.sslMethod), level, epoch))
  }

  /** `f'proxy_{batch}.pth'`. */
  function ProxyName(batch: int): string {
    "proxy_" + IntToString(batch) + ".pth"
  }

  /** The prefix is "simclr" exactly for SIMCLR, "dcl" exactly for DCL, and
      "myow" for every other method. */
  lemma PrefixChoice(m: SslMethod)
    ensures Prefix(m) == "simclr" <==> m == SimClr
    ensures Prefix(m) == "dcl" <==> m == Dcl
    ensures Prefix(m) == "myow" <==> m != SimClr && m != Dcl
  {
  }

  lemma {:induction false} JoinInjective(dir: string, n1: string, n2: string)
    requires |n1| > 0 && n1[0] != '/' && |n2| > 0 && n2[0] != '/'
    requires Join(dir, n1) == Join(dir, n2)
    ensures n1 == n2
  {
    var d := if dir == [] || dir[|dir| - 1] == '/' then dir else dir + "/";
    assert Join(dir, n1) == d + n1 && Join(dir, n2) == d + n2;
    assert n1 == (d + n1)[|d|..] == (d + n2)[|d|..] == n2;
  }

  /** Checkpoints of distinct epoch indices go to distinct files, so the
      periodic saves of a run never overwrite one another. */
  lemma CheckpointPathInjective(cfg: Config, level: string, e1: int, e2: int)
    requires CheckpointPath(cfg, level, e1) == CheckpointPath(cfg, level, e2)
    ensures e1 == e2
  {
    var head := Prefix(cfg.sslMethod) + "_" + level + "_checkpoint_";
    var n1, n2 := CheckpointName(Prefix(cfg.sslMethod), level, e1), CheckpointName(Prefix(cfg.sslMethod), level, e2);
    assert n1 == head + (IntToString(e1) + ".tar") && n2 == head + (IntToString(e2) + ".tar");
    assert n1[0] == Prefix(cfg.sslMethod)[0] && n2[0] == Prefix(cfg.sslMethod)[0];
    JoinInjective(cfg.modelPath, n1, n2);
    var t1, t2 := IntToString(e1) + ".tar", IntToString(e2) + ".tar";
    assert t1 == n1[|head|..] == n2[|head|..] == t2;
    assert IntToString(e1) == t1[..|t1| - 4] == t2[..|t2| - 4] == IntToString(e2);
    IntToStringInjective(e1, e2);
  }

  // ---------------------------------------------------------------------
  // Reading

  /** `torch.load(path)`: the stored object, or the error for a missing file. */
  function TorchLoad(w: World, path: string): (r: Result<Blob>)
    ensures r.Ok? <==> path in w.files
    ensures r.Ok? ==> r.value == w.files[path]
    ensures r.Err? ==> r.error == FileNotFound(path)
  {
    if path in w.files then Ok(w.files[path]) else Err(FileNotFound(path))
  }

  /** `blob[key]`: a dict lookup, or the error indexing a list by a string raises. */
  function Subscript(blob: Blob, key: string): Result<Weights> {
    match blob
    case TorchCheckpoint(entries) =>
      if key in entries then Ok(entries[key]) else Err(KeyError(key))
    case Pickled(_) =>
      Err(TypeError("list indices must be integers or slices, not str"))
  }

  /** The path `load_saved_state` reads (lines 42-44): `args.resume` when
      `recent` holds and resume is truthy, else the epoch_num checkpoint. */
  function LoadPath(cfg: Config, w: World, recent: bool, level: string): string {
    if recent && w.resume != "" then w.resume else CheckpointPath(cfg, level, cfg.epochNum)
  }

  /** `load_saved_state(args, recent, pretrain_level)`. */
  function LoadSavedState(cfg: Config, w: World, recent: bool, level: string): (r: Result<Blob>)
    ensures r.Ok? <==> LoadPath(cfg, w, recent, level) in w.files
  {
    TorchLoad(w, LoadPath(cfg, w, recent, level))
  }

  /** `simple_load_model(args, name)`: the 'model' entry of the stored dict. */
  function SimpleLoadModel(cfg: Config, w: World, name: string): Result<Weights> {
    var blob :- TorchLoad(w, Join(cfg.modelPath, name));
    Subscript(blob, "model")
  }

  /** `load_path_loss(args, filename)`: None when the file cannot be opened,
      otherwise what `pickle.load` reads back. */
  function LoadPathLoss(cfg: Config, w: World, filename: string): Result<Option<seq<PathLoss>>> {
    var path := Join(cfg.modelPath, filename);
    if path !in w.files then Ok(None)
    else match w.files[path]
      case Pickled(items) => Ok(Some(items))
      case TorchCheckpoint(_) => Err(UnpicklingError(path))
  }

  // ---------------------------------------------------------------------
  // Writing

  /** The dict `save_state` hands to `torch.save` (lines 23-26). */
  function StateEntries(model: Weights, optimizerType: string, optimizerState: Weights): map<string, Weights> {
    map["model" := model, optimizerType + "-optimizer" := optimizerState]
  }

  /** The saved state has exactly two keys: 'model' and the optimizer's. */
  lemma StateEntriesKeys(model: Weights, optimizerType: string, optimizerState: Weights)
    ensures StateEntries(model, optimizerType, optimizerState).Keys == {"model", optimizerType + "-optimizer"}
    ensures |StateEntries(model, optimizerType, optimizerState)| == 2
    ensures StateEntries(model, optimizerType, optimizerState)["model"] == model
    ensures StateEntries(model, optimizerType, optimizerState)[optimizerType + "-optimizer"] == optimizerState
  {
    assert |optimizerType + "-optimizer"| >= 10 > |"model"|;
  }

  /** The world after `save_state` at the current epoch index: the dict is
      written and `args.resume` names it; a write that fails raises and
      leaves resume as it was. */
  function AfterSaveState(cfg: Config, w: World, model: Weights, optimizerState: Weights,
                          level: string, optimizerType: string): Result<World>
  {
    var path := CheckpointPath(cfg, level, w.currentEpoch);
    if path in w.unwritable then Err(IOError(path))
    else Ok(w.(files := w.files[path := TorchCheckpoint(StateEntries(model, optimizerType, optimizerState))],
               resume := path))
  }

  /** The world after `simple_save_model(args, model, name)`. */
  function AfterSimpleSave(cfg: Config, w: World, model: Weights, name: string): Result<World> {
    var path := Join(cfg.modelPath, name);
    if path in w.unwritable then Err(IOError(path))
    else Ok(w.(files := w.files[path := TorchCheckpoint(map["model" := model])]))
  }

  /** The world after `save_path_loss(args, filename, items)`: an IOError is
      caught and printed, so a failed write changes nothing. */
  function AfterSavePathLoss(cfg: Config, w: World, filename: string, items: seq<PathLoss>): World {
    var path := Join(cfg.modelPath, filename);
    if path in w.unwritable then w else w.(files := w.files[path := Pickled(items)])
  }

  // ---------------------------------------------------------------------
  // Properties of saving and loading

  /** `save_state` writes to `model_path/{prefix}_{level}_checkpoint_{current_epoch}.tar`,
      stores exactly the model and optimizer states, and records that path
      in `args.resume`; nothing else in the world changes. */
  lemma SaveStateWrites(cfg: Config, w: World, model: Weights, optimizerState: Weights,
                        level: string, optimizerType: string)
    ensures var r := AfterSaveState(cfg, w, model, optimizerState, level, optimizerType);
      var path := CheckpointPath(cfg, level, w.currentEpoch);
      && (r.Ok? <==> path !in w.unwritable)
      && (r.Ok? ==> && r.value.resume == path
                    && path in r.value.files
                    && r.value.files[path] == TorchCheckpoint(StateEntries(model, optimizerType, optimizerState))
                    && (forall p :: p in w.files && p != path ==> p in r.value.files && r.value.files[p] == w.files[p])
                    && r.value.currentEpoch == w.currentEpoch
                    && r.value.globalStep == w.globalStep
                    && r.value.alBatchSize == w.alBatchSize)
  {
  }

  /** After `save_state`, a default `load_saved_state` (recent=True) reads
      back exactly the dict just written, whatever level it is asked for. */
  lemma LoadAfterSaveState(cfg: Config, w: World, model: Weights, optimizerState: Weights,
                           level: string, optimizerType: string, loadLevel: string)
    requires AfterSaveState(cfg, w, model, optimizerState, level, optimizerType).Ok?
    ensures var w' := AfterSaveState(cfg, w, model, optimizerState, level, optimizerType).value;
      LoadSavedState(cfg, w', true, loadLevel) == Ok(TorchCheckpoint(StateEntries(model, optimizerType, optimizerState)))
  {
    var path := CheckpointPath(cfg, level, w.currentEpoch);
    assert |path| > 0 by {
      var n := CheckpointName(Prefix(cfg.sslMethod), level, w.currentEpoch);
      assert |Join(cfg.modelPath, n)| >= |n| > 0;
    }
  }

  /** With `recent` false, or no resume recorded, the load reads the
      checkpoint of `args.epoch_num`; so one saved when current_epoch was
      epoch_num is read back. */
  lemma LoadByEpochNum(cfg: Config, w: World, recent: bool, level: string)
    requires !recent || w.resume == ""
    ensures LoadSavedState(cfg, w, recent, level) == TorchLoad(w, CheckpointPath(cfg, level, cfg.epochNum))
    ensures var path := CheckpointPath(cfg, level, cfg.epochNum);
      path in w.files ==> LoadSavedState(cfg, w, recent, level) == Ok(w.files[path])
  {
  }

  /** `simple_load_model(p)` after `simple_save_model(m, p)` returns m. */
  lemma SimpleRoundTrip(cfg: Config, w: World, model: Weights, name: string)
    requires AfterSimpleSave(cfg, w, model, name).Ok?
    ensures SimpleLoadModel(cfg, AfterSimpleSave(cfg, w, model, name).value, name) == Ok(model)
  {
  }

  /** A missing file makes `load_path_loss` return None; after a successful
      `save_path_loss` it returns the same list; a failed save is swallowed
      and changes nothing. */
  lemma PathLossRoundTrip(cfg: Config, w: World, filename: string, items: seq<PathLoss>)
    ensures Join(cfg.modelPath, filename) !in w.files ==> LoadPathLoss(cfg, w, filename) == Ok(None)
    ensures Join(cfg.modelPath, filename) in w.unwritable ==> AfterSavePathLoss(cfg, w, filename, items) == w
    ensures Join(cfg.modelPath, filename) !in w.unwritable ==>
      LoadPathLoss(cfg, AfterSavePathLoss(cfg, w, filename, items), filename) == Ok(Some(items))
  {
  }

  // ---------------------------------------------------------------------
  // The writes, on the objects

  /** `save_state(args, model, optimizer, pretrain_level, optimizer_type)`. */
  method SaveState(args: Args, store: FileStore, model: Weights, optimizerState: Weights,
                   level: string, optimizerType: string) returns (r: Result<()>)
    modifies args`resume, store`files
    ensures var spec := AfterSaveState(args.cfg, old(Snap(args, store)), model, optimizerState, level, optimizerType);
      && (r.Ok? <==> spec.Ok?)
      && (r.Ok? ==> Snap(args, store) == spec.value)
      && (r.Err? ==> r.error == spec.error && Snap(args, store) == old(Snap(args, store)))
  {
    var path := CheckpointPath(args.cfg, level, args.currentEpoch);
    if path in store.unwritable {
      return Err(IOError(path));
    }
    store.files := store.files[path := TorchCheckpoint(StateEntries(model, optimizerType, optimizerState))];
    args.resume := path;
    return Ok(());
  }

  /** `simple_save_model(args, model, name)`. */
  method SimpleSaveModel(args: Args, store: FileStore, model: Weights, name: string) returns (r: Result<()>)
    modifies store`files
    ensures var spec := AfterSimpleSave(args.cfg, old(Snap(args, store)), model, name);
      && (r.Ok? <==> spec.Ok?)
      && (r.Ok? ==> Snap(args, store) == spec.value)
      && (r.Err? ==> r.error == spec.error && Snap(args, store) == old(Snap(args, store)))
  {
    var path := Join(args.cfg.modelPath, name);
    if path in store.unwritable {
      return Err(IOError(path));
    }
    store.files := store.files[path := TorchCheckpoint(map["model" := model])];
    return Ok(());
  }

  /** `save_path_loss(args, filename, items)`. */
  method SavePathLoss(args: Args, store: FileStore, filename: string, items: seq<PathLoss>)
    modifies store`files
    ensures Snap(args, store) == AfterSavePathLoss(args.cfg, old(Snap(args, store)), filename, items)
  {
    var path := Join(args.cfg.modelPath, filename);
    if path !in store.unwritable {
      store.files := store.files[path := Pickled(items)];
    }
  }
}
