# ResNet architecture plan and training-loop bookkeeping, in Dafny

This project models the parts of a PyTorch ResNet image-classification
repository that can be reasoned about without tensors:

- **The architecture plan** of `model.py`. It covers how `_BasicBlock` and
  `_Bottleneck` size their convolutions, how `ResNet._make_layer` chains
  blocks and decides on a downsample projection, and how `ResNet.__init__`
  assembles the stem, four stages and the classifier. The factories
  `resnet18` … `resnet152` are included. A network is a value (`ResNet.Net`)
  of convolution and block descriptions. The proofs show three things:
  - every residual `torch.add` gets operands of the same width and stride;
  - the blocks form one chain of matching widths from the stem to the
    classifier;
  - the number in each factory's name is its count of weighted layers.
- **The bookkeeping of `train.py`**. This is the epoch loop of `main`: which
  epochs run, `best_acc1`, `is_best`, `is_last`, and the epoch number and
  file name saved with each checkpoint. It also covers the batch loops of
  `train` and `validate`: `batch_index`, the progress and tensorboard ticks,
  the global step, and the mode check. Finally it covers the `model_names`
  list, i.e. the filter over `model.__dict__` and Python's `sorted` order on
  strings.

Modules, one per file:

| file | module | models |
|---|---|---|
| `wrappers.dfy` | `Wrappers` | `Option` and `Result` |
| `decimal.dfy` | `Decimal` | `str(int)` and its inverse |
| `blocks.dfy` | `Blocks` | `_BasicBlock`, `_Bottleneck` |
| `resnet.dfy` | `ResNet` | `ResNet._make_layer`, `ResNet.__init__` |
| `factories.dfy` | `Factories` | `resnet18` … `resnet152` |
| `model_names.dfy` | `ArchNames` | `model_names` |
| `epochs.dfy` | `Epochs` | `main`'s epoch loop |
| `batches.dfy` | `Batches` | the batch loops of `train` and `validate` |

Conventions:

- Exceptions the code can raise are values: `Result.Failure` carries
  `IndexError`, `ZeroDivisionError` or `ValueError`.
- The data prefetchers are the sequence of what successive `next()` calls
  return.
- The accuracy `validate` returns is a parameter.

## Model

| member | source | states |
|---|---|---|
| Blocks.WidthPerGroup | model.py:88 | `int(out_channels * (base_channels / 64.0))` is the largest `q` with `64 q <= out_channels * base_channels`. |
| Blocks.InnerWidthAtDefaultBase | model.py:88 | With the default `base_channels = 64` the bottleneck width is `out_channels * groups`; with `groups = 1` as well it is `out_channels`. |
| Blocks.MainPath | model.py:44-95 | Both blocks' convolutions: two for the basic block, three for the bottleneck. Each reads what the previous one writes. The first reads `in_channels`, the last writes `out_channels * expansion`, and the strides multiply to the block stride. The basic block's first convolution writes `out_channels` and neither is grouped. The bottleneck's first convolution writes the inner width `int(out_channels * base_channels / 64) * groups`, and only its 3x3 convolution is grouped, with `groups` groups. |
| Blocks.IdentityShortcutJoins | model.py:163 | Without a projection, the residual add matches widths and strides exactly when `stride == 1` and `in_channels == channels * expansion`. Both directions hold, so the projection test is exactly the test of whether one is needed. |
| Blocks.ProjectionShortcutJoins | model.py:161-167 | The projection `_make_layer` builds (a 1x1 convolution to `channels * expansion` with the block stride) always makes the residual add match. |
| ResNet.Downsample | model.py:161-167 | A projection is attached exactly when the identity shortcut would not join, i.e. when the residual add without one would mismatch in width or stride. With the shortcut `_make_layer` attaches, the add always matches. The projection is a 1x1 convolution from the incoming width to `channels * expansion` with the stage stride and no padding. |
| ResNet.BlockCount | model.py:180 | One block plus `range(1, repeat_times)`: exactly `repeat_times` blocks, and a single block when `repeat_times < 1`. |
| ResNet.MakeLayer | model.py:154-192 | A stage has `BlockCount` blocks. The first reads the incoming width with the stage stride and has a projection iff stride or width changes. Every later block reads `channels * expansion` with stride 1 and no projection. All blocks share class, `groups` and `base_channels`. Every residual add matches, the blocks chain, and `self.in_channels` ends at `channels * expansion`. |
| ResNet.MakeLayerLoop | model.py:161-192 | The imperative version, with a `for` loop appending to `layers` while `self.in_channels` is mutated, builds exactly the stage `MakeLayer` describes. |
| ResNet.MakeStages | model.py:142-145 | Successive `_make_layer` calls build one stage per count. Stage `i` has `max(1, counts[i])` blocks, and its first block has base width `widths[i]` and stride `strides[i]`. `self.in_channels` ends at the last width times the expansion. |
| ResNet.StageIsLayer | model.py:142-145 | Stage `i` is exactly the `_make_layer` call with count `counts[i]`, width `widths[i]` and stride `strides[i]`. Its incoming width is the initial width for the first stage and `widths[i - 1] * expansion` for the others. |
| ResNet.FourStages | model.py:142-145 | Each of the four stages `ResNet.__init__` builds is exactly `_make_layer(arch_cfg[i], block, width, stride)` with widths 64/128/256/512 and strides 1/2/2/2. The first reads the stem's 64 channels and each later one reads the previous stage's output. |
| ResNet.StagesSound | model.py:142-145 | The stages together hold `sum(max(1, counts[i]))` blocks, all of the one class. Every residual add matches, and the blocks chain from the initial width to the final `self.in_channels`. |
| ResNet.Build | model.py:123-149 | `ResNet(arch_cfg, …)` fails iff `arch_cfg` has fewer than four entries or a bottleneck network is given `groups = 0`. An empty `arch_cfg` raises `IndexError` before any block is built. Otherwise `groups = 0` raises the grouped convolution's `ValueError` (model.py:92), and a short `arch_cfg` raises `IndexError`. On success the stem is `Conv2d(3, 64, 7, 2, 3)` and the classifier is `Linear(512 * expansion, num_classes)`. Stage `i` is exactly `_make_layer(arch_cfg[i], block, width, stride)` with widths 64/128/256/512 and strides 1/2/2/2, reading 64 channels for the first stage and the previous stage's output for the others. |
| ResNet.BuildWellFormed | model.py:137-149 | Every network `ResNet.__init__` builds is well formed. Every residual add matches, each block reads what the stem or the previous block wrote, and the last block writes exactly the classifier's input width. |
| ResNet.BuildDepth | model.py:142-149 | A network built from `arch_cfg` has `convs_per_block * sum(max(1, arch_cfg[i])) + 2` weighted layers. |
| Factories.Factory | model.py:226-253 | A bottleneck factory raises `ValueError` iff it is given `groups = 0`, and a basic-block factory never fails. Otherwise it builds a well-formed network whose classifier has `num_classes` outputs. The number in the factory's name is the network's weighted-layer count. |
| Factories.FactoryWellFormed | model.py:226-253 | With accepted `groups`, each factory's `ResNet(...)` call succeeds and builds a well-formed network. |
| Factories.FactoryDepthNamed | model.py:226-253 | With accepted `groups`, the weighted-layer count of each factory's network renders to the number in its name. |
| Factories.FirstStageFirstBlock | model.py:142 | The first block of a factory's first stage is the first block `_make_layer` builds from the stem's 64 channels with width 64 and stride 1. |
| Factories.ResNet50FirstBlockProjects | model.py:238-241 | `resnet50`'s first block gets the projection `Conv2d(64, 256, 1, 1, 0)`, because its first stage widens 64 channels to 256. |
| Factories.ResNet18FirstBlockIdentity | model.py:226-229 | `resnet18`'s first block gets no projection, because its first stage keeps 64 channels at stride 1. |
| Factories.NameMatchesDepth | model.py:226-253 | With the stage counts and block class each factory passes, the depths are 18, 34, 50, 101 and 152, matching the names. |
| ArchNames.FilterMembers | train.py:31-32 | A name survives the generator's filter iff some binding with that name is `islower()`, does not start with `__`, and is callable. |
| ArchNames.Insert | train.py:31 | Inserting into a sorted list keeps it sorted and adds exactly the one element to its multiset. |
| ArchNames.Sort | train.py:31 | `sorted` returns a permutation of its input in Python's string order. |
| ArchNames.LessTrichotomy | train.py:31 | Python's string `<` is total: two different strings are ordered one way or the other. |
| ArchNames.LessTransitive | train.py:31 | Python's string `<` is transitive. |
| ArchNames.SortedUnique | train.py:31 | Two sorted lists with the same multiset of strings are equal, so the result of `sorted` does not depend on the algorithm. |
| ArchNames.ModelNames | train.py:31-32 | `model_names` is sorted. It contains a name iff that name passes the filter. |
| ArchNames.ModelNamesIsSortedFilter | train.py:31-32 | Any sorted rearrangement of the filtered names is `model_names`. |
| ArchNames.FilterAppend | train.py:32 | The filter works binding by binding: filtering a concatenation concatenates the filtered parts. |
| ArchNames.FilterOfModelModule | train.py:32 | Of model.py's namespace only the five factories pass the filter. Dunders, `__all__`, imports, classes and modules are all rejected. |
| ArchNames.ModelNamesOfModelModule | train.py:31-32 | `model_names` is `["resnet101", "resnet152", "resnet18", "resnet34", "resnet50"]`. |
| Decimal.IntRoundTrip | train.py:116 | The decimal rendering of an integer reads back to that integer and starts with `-` iff it is negative. |
| Decimal.IntToStringInjective | train.py:116 | Distinct integers have distinct decimal renderings. |
| Epochs.Max | train.py:109 | `max(acc1, best_acc1)` bounds both arguments and equals one of them. |
| Epochs.EpochStep | train.py:107-120 | One loop iteration flags the checkpoint best iff `acc1 > best_acc1`. The new `best_acc1` is `acc1` for a best epoch and unchanged otherwise, and the checkpoint saves it. The checkpoint records epoch `epoch + 1` and file `epoch_{epoch + 1}.pth.tar`, and is flagged last iff `epoch + 1 == epochs`. |
| Epochs.Fold | train.py:98-120 | After the first `k` epochs the loop has saved `k` checkpoints, and `best_acc1` is the maximum of its initial value and the `k` accuracies: at least each of them and equal to one of them. |
| Epochs.BestOfIsMax | train.py:109 | The reference maximum of the initial `best_acc1` and the accuracies bounds each of them and equals one of them. |
| Epochs.FileNameInjective | train.py:116 | Two checkpoint file names `epoch_{n}.pth.tar` are equal only for equal `n`. |
| Epochs.FoldCheckpoint | train.py:98-120 | The `k`-th checkpoint records epoch `start_epoch + k + 1` and the file `epoch_{start_epoch + k + 1}.pth.tar`. Its `best_acc1` is the maximum so far. `is_best` holds iff `acc1` strictly beats every earlier value, and `is_last` iff the epoch is `epochs - 1`. |
| Epochs.EpochsRun | train.py:98-108 | Over `range(start_epoch, epochs)` each checkpoint's epoch lies in the range, and exactly the final checkpoint is flagged last. |
| Epochs.IsBestMeansImproved | train.py:107-109 | A checkpoint is flagged best iff its accuracy beats the previous `best_acc1`. A best epoch sets `best_acc1` to its accuracy; any other epoch, ties included, leaves it unchanged. |
| Epochs.BestNeverDecreases | train.py:109 | The `best_acc1` saved in successive checkpoints never decreases. |
| Epochs.CheckpointFilesDistinct | train.py:110-116 | No two epochs of a run save under the same file name. |
| Epochs.MainLoop | train.py:98-120 | The loop as written saves one checkpoint per epoch, exactly those the fold describes. It ends with `best_acc1` equal to the maximum of the initial value and all accuracies. |
| Batches.BatchesBeforeNone | train.py:224-274 | Counts the batches `next()` returns before the first `None`. Every fetch before that count returns a batch, the fetch at the count returns `None`, and a prefetcher that ends stops within the sequence. |
| Batches.PrintTicksSpec | train.py:268 | The loop prints at exactly the indices below the batch count that the frequency divides, in increasing order. |
| Batches.PrintTicksCount | train.py:268 | With a positive frequency `f` and `n` batches it prints `ceil(n / f)` times. |
| Batches.RunBatches | train.py:220-277 | The shared batch loop runs once per batch before the first `None`. It raises `ZeroDivisionError` at `batch_index` 0 iff the frequency is 0 and there is at least one batch. Otherwise it ends with `batch_index` equal to the batch count, having printed at exactly the ticks. |
| Batches.TrainEpoch | train.py:268-277 | `train` fails exactly as the shared loop does. Otherwise it writes one entry per tick, at step `batch_index + epoch * batches + 1`, and displays line `batch_index + 1`. |
| Batches.TrainStepsInRange | train.py:270 | When the loader yields at most `batches` batches, the steps of epoch `e` lie in `[e * batches + 1, (e + 1) * batches]`. |
| Batches.TrainStepsOrderedAcrossEpochs | train.py:270 | Every step of an earlier epoch is below every step of a later one. |
| Batches.Validate | train.py:298-346 | `validate` raises `ZeroDivisionError` if the loop does. Otherwise it raises `ValueError` for any mode other than `"Valid"` or `"Test"`, but only after the whole loop. A supported mode writes `"{mode}/Acc@1"` at step `epoch + 1` and returns the average. |

## Left out

- Tensors, `forward`, batch normalisation, ReLU, pooling and spatial sizes are not modelled. The model keeps channel widths, strides and convolution hyper-parameters only.
- `_initialize_weights` is not modelled, because it only initialises parameter values.
- Loading the dataset is not modelled, and neither are the CUDA prefetcher internals, SGD, the scheduler, EMA averaging, the gradient scaler, autocast, `load_state_dict`, `save_checkpoint`'s I/O, tensorboard and `print`. These are I/O and numerical code. The prefetcher is the sequence of its `next()` results, and the accuracy `validate` returns is a parameter.
- Blocks.WidthPerGroup: computes the bottleneck width as the exact floor of `out_channels * base_channels / 64`. Floating-point rounding for very large widths is not modelled.
- The whole model uses `nat` for channel counts and `groups`. Negative widths and negative `groups`, which `nn.Conv2d` rejects, are not modelled. Only `groups = 0` is modelled as a failure.
- ResNet.Build: the only argument error it models is `groups = 0` reaching the bottleneck's grouped convolution. Negative `groups` and widths are excluded by the `nat` type, and `_BasicBlock` ignores `groups`.
- `_BasicBlock` accepts `groups` and `base_channels` and ignores them. The model does the same.
- ArchNames.IsLower: models `str.islower()` on ASCII letters only. Unicode cased characters are not modelled.
- ArchNames.ModelModule: lists model.py's namespace as the interpreter, its imports and its definitions leave it. The callability of the `typing` names is irrelevant, because their upper-case letters already fail the filter.
- Epochs.MainLoop: takes the accuracies as given, one per epoch. Exceptions raised by `train` or `validate` inside `main` are not threaded through the epoch loop. They are stated separately in `Batches`.
- Epochs.MainLoop: does not model loading `start_epoch` and `best_acc1` from a checkpoint. They are parameters.
- Accuracies are reals. NaN, which would make every `>` comparison false, is not modelled.
- Batches.RunBatches: requires that the prefetcher eventually returns `None`. A loader that never ends would make the loop diverge, and that is not modelled.
- `len(train_prefetcher)` is a parameter (`batches`). The model does not relate it to the number of batches the prefetcher actually yields, except in `Batches.TrainStepsInRange`, which assumes there are at most that many.
- The timing meters (`AverageMeter`, `ProgressMeter`) are not modelled. Only which lines are displayed is modelled, not their contents.
