/** The state the core shares: the `args` namespace (its read-only settings
    and the four attributes the core assigns), and the file system seen as a
    map from path to stored object. */
module Environment {
  import opened PathLosses

  /** A model's `state_dict()`, seen as an opaque tensor list. */
  type Weights = seq<real>

  /** One item a DataLoader yields: the sample paths of one batch. */
  type Batch = seq<Path>

  /** `args.method`, compared against the SSL_Method values. */
  datatype SslMethod = SimClr | Dcl | Myow | Swav | OtherMethod(name: string)

  /** `args.al_method`, compared against the AL_Method values. */
  datatype AlMethod = LeastConfidence | Entropy | Both | OtherAlMethod(name: string)

  /** The TrainingType values the core passes around. */
  datatype TrainingType = BasePretrain | TargetPretrain | ActiveLearning | AlFinetuning

  /** What a file holds: a dict written by `torch.save`, or a list of
      records written by `pickle.dump`. */
  datatype Blob =
    | TorchCheckpoint(entries: map<string, Weights>)
    | Pickled(items: seq<PathLoss>)

  /** The attributes of `args` that the core reads and never assigns. */
  datatype Config = Config(
    sslMethod: SslMethod,
    alMethod: AlMethod,
    alBatches: int,
    alEpochs: int,
    epochNum: int,
    baseEpochs: int,
    targetEpochs: int,
    startEpoch: int,
    modelPath: string,
    alPathLossFile: string,
    pretrainPathLossFile: string,
    baseOptimizer: string,
    targetOptimizer: string,
    logStep: int)

  /** A snapshot of everything the core changes: the files, the paths that
      cannot be opened for writing, and the assigned attributes of `args`.
      An empty `resume` is Python's falsy value (None or ""). */
  datatype World = World(
    files: map<string, Blob>,
    unwritable: set<string>,
    resume: string,
    alBatchSize: int,
    currentEpoch: int,
    globalStep: int)

  /** The `args` namespace. */
  class Args {
    const cfg: Config
    var resume: string
    var alBatchSize: int
    var currentEpoch: int
    var globalStep: int

    constructor (cfg: Config, resume: string, alBatchSize: int, currentEpoch: int, globalStep: int)
      ensures this.cfg == cfg && this.resume == resume && this.alBatchSize == alBatchSize
      ensures this.currentEpoch == currentEpoch && this.globalStep == globalStep
    {
      this.cfg := cfg;
      this.resume := resume;
      this.alBatchSize := alBatchSize;
      this.currentEpoch := currentEpoch;
      this.globalStep := globalStep;
    }
  }

  /** The directory tree under `args.model_path` and wherever else the
      configured file names point. */
  class FileStore {
    var files: map<string, Blob>
    const unwritable: set<string>

    constructor (files: map<string, Blob>, unwritable: set<string>)
      ensures this.files == files && this.unwritable == unwritable
    {
      this.files := files;
      this.unwritable := unwritable;
    }
  }

  /** The world as the two objects currently hold it. */
  function Snap(args: Args, store: FileStore): World
    reads args, store
  {
    World(store.files, store.unwritable, args.resume, args.alBatchSize, args.currentEpoch, args.globalStep)
  }
}
