# Active self-pretraining: bookkeeping core in Dafny

This project models the bookkeeping core of the active self-pretraining pipeline. The pipeline first pretrains a self-supervised encoder (SimCLR, DCL, SwAV or MYOW) on a base dataset. Then, in batches, it picks the target images whose consistency loss is highest and which a proxy model is least sure about. Finally it pretrains again on that pool. The neural parts are not modelled: forward passes, losses, softmax rows, weight updates, state dicts and data loaders are uninterpreted values and functions, gathered in the `Network.Oracle` datatype. What the model keeps is everything around them:

- **PathLoss records** (`PathLosses`): the `order=True` dataclass with its derived `sort_index`, and the order that Python generates for it.
- **Checkpoint files** (`Commons`): names, paths, `args.resume`, and the save/load pairs. These work over an abstract file store, a map from path to stored object. A set of unwritable paths lets writes fail.
- **The SimCLR trainer** (`Trainers`): the constructor's choice between reusing the encoder and rebuilding it and loading saved state; then `train_epoch`'s step order, its counters, `args.global_step`, the `log_step` log line and its divisions by `log_step` and `total_num`.
- **The sample selector** (`Selector`): `get_new_samples`, meaning least-confidence and entropy ranking, mapping back to samples, and the cap of 5120.
- **The stable loss sort** (`LossSort`): `make_batches` uses it.
- **The active-learning orchestrator** (`Pretext`): `make_batches`, `train_proxy`, `finetune` and `do_active_learning`, with the 6400-record slices, proxy checkpoints `proxy_{b}.pth` and the growing sample pool.
- **The pretraining epoch loop** (`SelfSup`): `base_pretrain` with its periodic and final checkpoints, `first_pretrain` and `second_pretrain`.

`args` and the file store are objects. `Environment.Args` has the mutable fields `resume`, `al_batch_size`, `current_epoch` and `global_step`. `Environment.FileStore` holds the file map. The trainer is a class, `Trainers.Trainer`, whose `model`, `optimizer` and `scheduler` its methods update. The loops of the source are `while` loops in methods. Each method is proved equal to a specification function over a snapshot of the state (`Environment.Snap`), and each method's `modifies` clause names exactly the fields it writes. Lemmas then state the promised properties about those functions.

Python exceptions are values of `Outcome.Error`, carried in a `Result`. The model follows the code as written, including three places where the code cannot behave as its structure suggests:

- Where no branch matches the method name, `base_pretrain` and `train_proxy` evaluate a bare `ValueError` expression and never raise it. Execution then fails at the first use of the unbound `trainer` (`Outcome.UnboundTrainer`).
- `base_pretrain` calls `trainer.train_epoch(epoch)`, but `SimCLRTrainer.train_epoch` takes no argument. With SimCLR, the first epoch of a pretraining loop raises TypeError.
- `BasePretrainer.second_pretrain` returns None. `second_pretrain` therefore fails unpacking it before any training.

## Model

| member | source | states |
|---|---|---|
| PathLosses.Make | datautils/path_loss.py:4-12 | a record built from (path, loss) has sort_index equal to loss and keeps path and loss as given |
| PathLosses.WellFormedIsMade | datautils/path_loss.py:6-12 | sort_index is no constructor input: every well-formed record is the one built from its own path and loss |
| PathLosses.MakeEqualIff | datautils/path_loss.py:4-12 | two constructed records are equal exactly when their paths and losses are equal |
| PathLosses.StrLessIrreflexive | datautils/path_loss.py:8 | Python string comparison, used to break loss ties, never puts a string before itself |
| PathLosses.StrLessTransitive | datautils/path_loss.py:8 | string comparison is transitive |
| PathLosses.StrLessTrichotomy | datautils/path_loss.py:8 | of two distinct strings exactly one comes first |
| PathLosses.LessIsStrictTotalOrder | datautils/path_loss.py:4-9 | the generated `<` on (sort_index, path, loss) is irreflexive, asymmetric, transitive and total |
| PathLosses.SmallerLossSortsFirst | datautils/path_loss.py:4-12 | a record with smaller loss compares below one with larger loss, whatever the paths |
| PathLosses.EqualLossOrderedByPath | datautils/path_loss.py:4-9 | records of equal loss compare as their paths do, for both `<` and `<=` |
| PathLosses.EqualIffPathAndLoss | datautils/path_loss.py:4-12 | the generated `__eq__` on constructed records holds exactly when path and loss agree |
| PathLosses.LessEqTotal | datautils/path_loss.py:4-9 | `<=` is total and antisymmetric, so any list of records can be sorted |
| Commons.DigitsOfInjective | utils/commons.py:21 | the decimal digits of distinct naturals differ |
| Commons.IntToStringInjective | utils/commons.py:21 | `str` of distinct ints differs, so epoch indices name distinct files |
| Commons.PrefixChoice | utils/commons.py:12-19 | the prefix is "simclr" exactly for SIMCLR, "dcl" exactly for DCL, "myow" for every other method |
| Commons.JoinInjective | utils/commons.py:21 | `os.path.join` with one directory and relative names is injective in the name |
| Commons.CheckpointPathInjective | utils/commons.py:21 | checkpoints of distinct epoch indices go to distinct paths |
| Commons.TorchLoad | utils/commons.py:46 | a load succeeds exactly when the path is stored, returns what is stored, and otherwise reports that path missing |
| Commons.LoadSavedState | utils/commons.py:32-46 | load_saved_state succeeds exactly when the path chosen from resume/epoch_num is stored |
| Commons.StateEntriesKeys | utils/commons.py:23-26 | the saved dict has exactly the keys 'model' and optimizer_type + '-optimizer', holding the model and optimizer states |
| Commons.SaveStateWrites | utils/commons.py:11-30 | save_state succeeds exactly when its path `model_path/{prefix}_{level}_checkpoint_{current_epoch}.tar` is writable; it then stores that dict there, sets resume to that path and changes no other file or field |
| Commons.LoadAfterSaveState | utils/commons.py:30-46 | after a save_state, a default load_saved_state at any level reads back exactly the dict just written |
| Commons.LoadByEpochNum | utils/commons.py:42-46 | with recent false or no resume, load_saved_state reads the checkpoint named by epoch_num |
| Commons.SimpleRoundTrip | utils/commons.py:49-61 | simple_load_model of a name after simple_save_model of m under it returns m |
| Commons.PathLossRoundTrip | utils/commons.py:83-102 | load_path_loss of a missing file gives None; a save to an unwritable path is swallowed and changes nothing; otherwise the load reads back the same list |
| Commons.SaveState | utils/commons.py:11-30 | the method's outcome and new args/file state are those of the save_state specification, and a failed save changes nothing |
| Commons.SimpleSaveModel | utils/commons.py:49-55 | the new file state is that of the simple_save_model specification; a failure changes nothing |
| Commons.SavePathLoss | utils/commons.py:83-91 | the new file state is that of the save_path_loss specification (an IOError leaves it unchanged) |
| Trainers.SimClrReusesEncoder | models/self_sup/simclr/trainer/simclr_trainer.py:22-25 | with ACTIVE_LEARNING and rebuild false, the encoder becomes the model, the criterion is NT-Xent, nothing is loaded and the optimizer is built from None |
| Trainers.SimClrRebuilds | models/self_sup/simclr/trainer/simclr_trainer.py:27-37 | otherwise the model is rebuilt; state is loaded unless BASE_PRETRAIN with epoch_num == base_epochs; construction fails exactly when that load or its 'model' lookup fails; the optimizer is built from exactly the loaded dict, or from None |
| Trainers.InitTrainerFresh | models/self_sup/simclr/trainer/simclr_trainer.py:36-37 | a constructed trainer's optimizer has made no step, and it has a fresh scheduler exactly when load_optimizer makes one |
| Trainers.NewTrainer | models/self_sup/simclr/trainer/simclr_trainer.py:10-37 | the constructed trainer object holds the state the constructor specification gives, or the constructor's exception is returned |
| Trainers.RunStepsOrder | models/self_sup/simclr/trainer/simclr_trainer.py:43-58 | one loss and one optimizer step per batch, and the loss of step k is computed on the weights left by the k steps before it |
| Trainers.WeightedTotalScales | models/self_sup/simclr/trainer/simclr_trainer.py:57-58 | total_loss is batch_size times the sum of the step losses |
| Trainers.RepeatedIsProduct | models/self_sup/simclr/trainer/simclr_trainer.py:57 | adding batch_size once per step gives steps × batch_size |
| Trainers.EpochMeanIsAverage | models/self_sup/simclr/trainer/simclr_trainer.py:40-66 | the epoch result is the plain mean of the step losses, and it is a division by zero exactly when the loader is empty or batch_size is 0 |
| Trainers.SimClrEpochFacts | models/self_sup/simclr/trainer/simclr_trainer.py:39-66 | train_epoch() raises ZeroDivisionError exactly when the loader is empty, batch_size is 0 or log_step is 0; a non-empty loader then gets one optimizer step and global_step does not move; otherwise global_step and the optimizer advance by one per batch and the mean loss is returned; criterion and scheduler are kept; train_epoch(epoch) raises TypeError and changes nothing |
| Trainers.Trainer.TrainEpoch | models/self_sup/simclr/trainer/simclr_trainer.py:39-66 | the trainer's new state, global_step and result are those of the epoch specification, for both call forms, including the step-0 ZeroDivisionError of the log line |
| Trainers.Trainer.SimClrEpoch | models/self_sup/simclr/trainer/simclr_trainer.py:40-66 | when step 0's log line divides by zero (batch_size or log_step 0, non-empty loader) the weights and optimizer are those after one step, global_step is unchanged and the result is ZeroDivisionError; otherwise the weights and optimizer are the loader fold, global_step grows by the number of batches, and the result is the epoch mean |
| Trainers.Trainer.RunLoader | models/self_sup/simclr/trainer/simclr_trainer.py:43-64 | the loop stops at step 0's log line exactly when the loader is non-empty and batch_size or log_step is 0, after one step and with global_step unchanged; otherwise it leaves the folded weights and optimizer, total_num = steps × batch_size, total_loss = the weighted loss sum, global_step + steps |
| Trainers.Trainer.TrainStep | models/self_sup/simclr/trainer/simclr_trainer.py:44-55 | one step: the loss on the old weights, one optimizer update of them, one optimizer step; nothing else changes |
| Trainers.LogLineRaises | models/self_sup/simclr/trainer/simclr_trainer.py:57-61 | once every earlier step logged safely, the log line of step k raises exactly when k is 0 and batch_size or log_step is 0 |
| Trainers.RepeatedNonZero | models/self_sup/simclr/trainer/simclr_trainer.py:57 | after one step or more, total_num is 0 only if batch_size is 0 |
| Trainers.Trainer.StepSchedulerOnce | models/active_learning/pretext_trainer.py:64 | stepping an existing scheduler advances it; with no scheduler the call fails with the NoneType attribute error |
| Selector.RowMax | models/active_learning/pretext_trainer.py:110 | the row maximum is an element of the row and bounds all of them |
| Selector.RowMaxes | models/active_learning/pretext_trainer.py:110 | one maximum per prediction row |
| Selector.Entropies | models/active_learning/pretext_trainer.py:114 | one entropy score per prediction row |
| Selector.ArgSort | models/active_learning/pretext_trainer.py:111 | argsort returns a permutation of the row indices whose keys are non-decreasing |
| Selector.Reverse | models/active_learning/pretext_trainer.py:115 | `[::-1]` has the same length and elements, in reverse positions |
| Selector.IndexPermutationFacts | models/active_learning/pretext_trainer.py:131-133 | a ranked index list has every row index exactly once and none out of range |
| Selector.Gather | models/active_learning/pretext_trainer.py:131-133 | the mapping loop succeeds exactly when every ranked index is a valid sample index, giving samples[idx[k]] at position k, and otherwise raises IndexError |
| Selector.MapBack | models/active_learning/pretext_trainer.py:131-133 | the loop's result is the mapping specification's |
| Selector.GetNewSamples | models/active_learning/pretext_trainer.py:108-135 | the method's result is the get_new_samples specification's |
| Selector.RankIsPermutation | models/active_learning/pretext_trainer.py:109-129 | every successful ranking is a permutation of the prediction rows |
| Selector.LeastConfidenceAscending | models/active_learning/pretext_trainer.py:109-111 | least confidence always ranks (given non-empty rows), with row maxima non-decreasing |
| Selector.ReversedDescending | models/active_learning/pretext_trainer.py:115 | reversing an ascending ranking gives a non-increasing one |
| Selector.EntropyDescending | models/active_learning/pretext_trainer.py:113-115 | entropy always ranks, with entropies non-increasing |
| Selector.NewSamplesCases | models/active_learning/pretext_trainer.py:108-135 | get_new_samples raises the ranking's or the mapping's error, or returns the first min(5120, n) mapped samples |
| Selector.DistinctPicksSubMultiset | models/active_learning/pretext_trainer.py:131-133 | picking samples at pairwise distinct valid indices takes no sample more often than it occurs |
| Selector.NewSamplesSubMultiset | models/active_learning/pretext_trainer.py:131-135 | a selection is a sub-multiset of the samples |
| Selector.NewSamplesShape | models/active_learning/pretext_trainer.py:131-135 | a selection has min(rows, 5120) elements, the k-th being the sample of the k-th ranked row, no row twice |
| Selector.GatherPermutationOkIff | models/active_learning/pretext_trainer.py:131-133 | mapping a permutation of n rows succeeds exactly when there are at least n samples |
| Selector.NewSamplesOkIff | models/active_learning/pretext_trainer.py:108-135 | get_new_samples succeeds exactly when the ranking does and there are at least as many samples as rows |
| Selector.UnknownMethodRaises | models/active_learning/pretext_trainer.py:117-129 | an unknown al_method raises ValueError naming it; BOTH never returns a selection |
| LossSort.InsertByLossAddsOne | models/active_learning/pretext_trainer.py:178 | an insertion step adds exactly the inserted record |
| LossSort.InsertByLossSorted | models/active_learning/pretext_trainer.py:178 | an insertion step keeps a list in non-increasing loss order |
| LossSort.InsertByLossStable | models/active_learning/pretext_trainer.py:178 | an inserted record goes after every record of equal loss |
| LossSort.SortByLossDescPermutes | models/active_learning/pretext_trainer.py:178 | the sorted list is a permutation of its input |
| LossSort.SortByLossDescSorted | models/active_learning/pretext_trainer.py:178 | the sorted list has non-increasing losses |
| LossSort.SortByLossDescStable | models/active_learning/pretext_trainer.py:178 | records of equal loss keep their input order (reverse=True is stable) |
| Pretext.Scores | models/active_learning/pretext_trainer.py:151-176 | the scan appends one well-formed record per loader item, in loader order, with that item's path and loss |
| Pretext.ScoreSamples | models/active_learning/pretext_trainer.py:151-176 | the scan loop builds exactly that list |
| Pretext.MakeBatches | models/active_learning/pretext_trainer.py:137-183 | the new args/file state and result are those of the make_batches specification |
| Pretext.MakeBatchesFacts | models/active_learning/pretext_trainer.py:137-183 | make_batches succeeds exactly when the level-1 state loads; it then returns a permutation of the scan, one record per item, sorted by non-increasing loss with ties in scan order; the list is readable under al_path_loss_file if writable; al_batch_size and resume are restored. A failure leaves al_batch_size at 1 and nothing else changed |
| Pretext.TrainProxy | models/active_learning/pretext_trainer.py:30-68 | the new args/file state and result are those of the train_proxy specification |
| Pretext.ProxyLoop | models/active_learning/pretext_trainer.py:57-64 | the trainer state, global_step and outcome after the loop are those of the epoch-loop specification |
| Pretext.ProxyEpochsCounts | models/active_learning/pretext_trainer.py:57-64 | a successful loop of k epochs steps the scheduler exactly k times (so one exists when k > 0); with SimCLR it advances global_step and the optimizer by k × batches |
| Pretext.ProxyDividesByZero | models/active_learning/pretext_trainer.py:57-61 | a SimCLR proxy trained for one epoch or more on an empty loader, or with batch size 0, raises ZeroDivisionError in its first epoch, before global_step moves |
| Pretext.TrainProxyChangesOnlyGlobalStep | models/active_learning/pretext_trainer.py:30-68 | train_proxy changes nothing but global_step; an unknown method fails on the unbound trainer and changes nothing |
| Pretext.Finetune | models/active_learning/pretext_trainer.py:70-99 | the result is the finetune specification's, including the empty-list error of torch.cat |
| Pretext.FinetuneSelects | models/active_learning/pretext_trainer.py:70-99 | a successful finetune returns at most 5120 records and no more than it was given, each one of them, none more often than it was given |
| Pretext.BatchStep | models/active_learning/pretext_trainer.py:197-217 | one iteration's failure, pool, proxy, rebuild flag and new file state are the iteration specification's |
| Pretext.RunBatches | models/active_learning/pretext_trainer.py:193-217 | the batch loop's outcome, pool and file state are those of the iterations run from batch 0 with an empty pool and rebuild true |
| Pretext.DoActiveLearning | models/active_learning/pretext_trainer.py:185-220 | the new args/file state and result are those of the do_active_learning specification |
| Pretext.SlicesTile | models/active_learning/pretext_trainer.py:197 | slices hold at most 6400 records, are empty past the end, and the first k together are the list's first min(6400k, n) records: contiguous and disjoint |
| Pretext.ProxyLoadSucceeds | models/active_learning/pretext_trainer.py:199-201 | at batch b > 0 loading proxy_{b-1} succeeds and yields the proxy the previous iteration saved |
| Pretext.AlStepShape | models/active_learning/pretext_trainer.py:197-217 | a completed iteration appends its selection to the pool, records its slice, load, training and save, trains only before the last batch, then clears rebuild and saves proxy_{b} |
| Pretext.SelectBatchShape | models/active_learning/pretext_trainer.py:199-207 | batch 0 keeps the first min(5120, len(slice)) records and loads nothing; a later batch loads proxy_{b-1} and picks at most 5120 records of its own slice, none more often than it occurs there |
| Pretext.AlStepKeeps | models/active_learning/pretext_trainer.py:196-217 | each completed iteration keeps the loop invariant (records correct, including every later batch's selection being at most 5120 records of its own slice; pool = their selections; rebuild until first training; previous proxy on disk) |
| Pretext.AlFromKeeps | models/active_learning/pretext_trainer.py:196-217 | a run of the remaining iterations that raises nothing ends with the invariant at the last batch |
| Pretext.AlRunFacts | models/active_learning/pretext_trainer.py:185-220 | a successful run makes max(0, al_batches) iterations; iteration b works on slice b; batch 0 keeps min(5120, len(slice)) records and loads nothing; every later batch loads the proxy the one before saved and selects at most 5120 records of its own slice, none more often than they occur there; train_proxy runs for every batch but the last, with rebuild only the first time; the pool returned is the concatenation of selections and is readable under pretrain_path_loss_file when writable |
| Pretext.RescoresOnlyWithoutCache | models/active_learning/pretext_trainer.py:189-191 | the list is rescored by make_batches exactly when the cache load gives None; a cached list is used as is, with nothing written |
| SelfSup.PretrainLevel | models/trainers/selfsup_pretrainer.py:21 | the level is "1" exactly for BASE_PRETRAIN and "2" otherwise |
| SelfSup.EpochIteration | models/trainers/selfsup_pretrainer.py:66-84 | one iteration's trainer state, args/file state and outcome are the iteration specification's |
| SelfSup.EpochLoop | models/trainers/selfsup_pretrainer.py:66-84 | the loop's trainer state, args/file state and outcome are those of the epochs start_epoch..epochs-1 |
| SelfSup.BasePretrain | models/trainers/selfsup_pretrainer.py:20-86 | the new args/file state and result are those of the base_pretrain specification |
| SelfSup.FirstPretrain | models/trainers/selfsup_pretrainer.py:89-92 | first_pretrain is base pretraining for base_epochs at BASE_PRETRAIN with the base optimizer |
| SelfSup.ParentSecondPretrain | models/trainers/base_pretrainer.py:32-33 | the parent's second_pretrain returns nothing |
| SelfSup.SecondPretrainFrom | models/trainers/selfsup_pretrainer.py:95-98 | unpacking None raises TypeError and changes nothing; an (encoder, loader) pair runs base pretraining for target_epochs at TARGET_PRETRAIN with the target optimizer |
| SelfSup.SecondPretrain | models/trainers/selfsup_pretrainer.py:95-98 | second_pretrain always fails unpacking None and changes nothing |
| SelfSup.EpochStepFacts | models/trainers/selfsup_pretrainer.py:70-84 | a successful iteration increments current_epoch, saves exactly when e > 0 and e % 20 == 0, and steps the scheduler exactly when there is one |
| SelfSup.PretrainEpochCount | models/trainers/selfsup_pretrainer.py:66-84 | a successful loop increases current_epoch by exactly max(0, epochs - start) |
| SelfSup.PretrainSaves | models/trainers/selfsup_pretrainer.py:66-84 | the intermediate saves happen at current_epoch c0 + (e - start) for exactly the loop indices e > 0 with e % 20 == 0 |
| SelfSup.PretrainSavesIncreasing | models/trainers/selfsup_pretrainer.py:78-84 | those checkpoint indices strictly increase, so no save overwrites another |
| SelfSup.PretrainSchedulerSteps | models/trainers/selfsup_pretrainer.py:72-76 | an existing scheduler is stepped once per epoch; with none it is never stepped |
| SelfSup.SimClrPretrainRaises | models/trainers/selfsup_pretrainer.py:70 | with SimCLR, a loop that runs at all raises TypeError on its first train_epoch(epoch), leaving trainer and world as they were |
| SelfSup.BasePretrainFacts | models/trainers/selfsup_pretrainer.py:20-86 | a successful base_pretrain advances current_epoch by max(0, epochs - start); resume names the final checkpoint c0 + max(0, epochs - start); loading it reads back the trainer's final model and optimizer state |
| SelfSup.UnknownMethodUnbound | models/trainers/selfsup_pretrainer.py:60-63 | an unknown method fails at trainer.model on the unbound trainer and changes nothing |

## Left out

- Forward passes, criteria, softmax, `loss.item()`, backward passes and optimizer updates are opaque functions of `Network.Oracle`. Losses are `real`, so float rounding, NaN and `log(0)` are not modelled.
- The entropy arithmetic `-(log(p) * p).sum()` is an opaque per-row score. Only its ordering use is modelled.
- The BOTH selection branch is modelled only as always failing: its float slice bound raises TypeError. The elementwise index sum and `random.shuffle` are not modelled.
- Selector.ArgSort: numpy's default argsort is not stable. The model breaks ties by row index, which is one of the orders numpy may return. The ordering lemmas hold for every tie order; the exact order of tied rows is not claimed.
- Selector.RowMaxes: a prediction row with no columns is reported as a ValueError from `max`. numpy's exact error for an empty axis is not modelled.
- pickle, `torch.save` and `torch.load` byte formats and `map_location` are not modelled. The file store maps a path to the object stored there. `pil_loader` and `accuracy` are not part of this model.
- `load_state_dict(..., strict=False)` is an opaque `loadState` function. Missing or unexpected keys are not modelled.
- `get_model_criterion`, `get_params` and `load_optimizer` are oracle functions (the built model, the batch size, and whether a scheduler exists). Parameter sharing and aliasing between the encoder and the built model are not modelled.
- The DCL (SimCLRTrainerV2), SwAV and MYOW trainers are not part of this model. Their constructors are an oracle that may fail with any exception. Their `train_epoch`, given the trainer's weights, optimizer, loader, global_step and the epoch argument, is an oracle that decides the new weights, optimizer, global_step and the returned loss or exception. SwAV's constructor ignoring the encoder is absorbed by that oracle.
- Data loaders (`PretextDataLoader`, `get_target_pretrain_ds`, BasePretrainer.first_pretrain's datasets) are parameters: the sequence of batches, or of paths. Per-epoch reshuffling is not modelled: every epoch sees the same batch order. The encoder `resnet_backbone` builds is a parameter too.
- In make_batches each scan step is modelled as one (path, loss) pair. The loader is built with al_batch_size 1, so in the source `path` is a batch holding one path.
- Pretext.Finetune: the model output shape depends on the method (a tuple except for SimCLR). The oracle's prediction rows absorb this.
- PathLoss.loss is annotated `int` in the dataclass but holds a float loss. It is `real` here.
- Logging output (the divisions of the step log line are modelled), `writer.add_scalar`, `scheduler.get_last_lr()` and the `lr` it reports, device moves, `model.eval()`/`model.train()` and `torch.no_grad()` are not modelled.
- Concurrency and the DataLoader worker processes are not modelled.
- models/heads/logloss_head.py, datautils/target_dataset.py and datautils/imagenet.py are not part of this model. Of models/trainers/base_pretrainer.py only the value `second_pretrain` returns is modelled.
