# ray-quickstart core, modelled in Dafny

This project models the logic at the heart of ray-quickstart, a helper for
training models on a Ray cluster from a driver machine. It proves properties
of that logic. The parts modelled are:

- **Home-path translation** between macOS, Windows and Linux conventions,
  and the platform tests (`src/ray_quickstart/util/platform.py`), in
  `platform.dfy`.
- **The Ray patches** (`src/ray_quickstart/monkey_patch.py`), in
  `monkey_patch.dfy`. One walks up from a checkpoint path to the directory
  holding the `.is_checkpoint` marker. The other splits a token row into
  input and label windows. POSIX `os.path.dirname`, `os.path.join` and
  `os.path.normpath` are written out.
- **The rsync syncer** (`src/ray_quickstart/rsync_syncer.py`), in
  `rsync_syncer.dfy`. It is a class whose busy flag, timestamps and
  issued-command log the methods update.
- **Dataset splitting** (`src/data/dataset_util.py`), in `dataset_util.dfy`:
  the random split and the stratified split by class.
- **The GPT-2 token dataset** (`src/data/gpt2_dataset.py`), in
  `gpt2_dataset.dfy`: its name, file path, length, items and the rows
  shipped to the workers.
- **The Hugging Face trainer set-up**
  (`src/training/huggingface_trainer_initializer_base.py`), in
  `trainer_initializer.dfy`: the training-argument flags and per-model
  overrides, and the choice of the best checkpoint.
- **The model base class** (`src/models/model_base.py`), in
  `model_base.dfy`: path helpers, and the loading, creating, checkpoint,
  training and update guards.
- **The version bump of the release helper** (`setup.py`), in
  `setup_version.dfy`.

Python's `str.replace`, `str.split` and `str.join` are modelled in
`text.dfy`, together with `int()` and `str()` on decimal integers.
`wrappers.dfy` holds `Option` and `Result`.

## Choices

**Platform and environment.** The process's `sys.platform`, the `USER`
environment variable and the clock are explicit parameters. So is the
success of an rsync run. The syncer imports `expand_user_home_path`, which
no file of the repository defines. The model uses
`normalize_home_path_for_platform` (`Normalize`) in its place.

**What the translation does and does not promise:**

- A home path translated to another recognised platform and back is
  restored. From macOS or Linux this holds when the path does not already
  hold the other platform's home root (`HomeRoundTrip`). From Windows
  (`C:/Users/...`) it holds through macOS when the rest of the path holds
  no `/Users/`, and through Linux when it holds neither `/home/` nor
  `C:/Users/` (`WindowsHomeRoundTrip`).
- When the rest of a Windows home path does hold `/Users/`, the way back
  from macOS rewrites that too, so the path is not restored
  (`WindowsOriginNotRestored`). `C:/Users/` itself contains `/Users/`.
- A platform other than `darwin`, `windows` and `linux` leaves every path
  unchanged (`UnrecognisedPlatformUnchanged`). This includes `win32`, the
  value `is_windows()` tests for.
- Translating twice gives the same as translating once for every path
  that does not start with `~`, every path that starts with `~/`, and
  every `~` path with no `~/` anywhere in it (such as `~bob/x`, which is
  returned unchanged). A `~` path whose second character is not `/` but
  which holds `~/` further on is expanded again on the second pass: on
  macOS `~~/` becomes `~/Users/{user}/` and then `/Users/{user}/Users/{user}/`
  (`NormalizeIdempotent`, `TildeTildeNotIdempotent`).
- No method of the syncer sets `training_has_ended`; only the syncer's
  owner can.

**Behaviour modelled as written:**

- `sync_up` and `sync_down` clear the busy flag on every return, the
  rejection for being busy included. So between calls the flag is always
  clear (`BackToBackDownloads`).
- `load_or_create_model` tests the method object `is_persistent_model`
  rather than calling it, so persistence never gates loading.
  `LoadOrCreateModel` does not consult `persistent`.
- On macOS and Windows, `find_checkpoint_dir` rewrites every `/home`, not
  only a leading `/home/`.

## Model

| member | source | states |
|---|---|---|
| PlatformPaths.PlatformTestsExclusive | src/ray_quickstart/util/platform.py:8-17 | at most one of `is_linux`, `is_mac`, `is_windows` holds; `win32` is not a platform the translation knows |
| PlatformPaths.Normalize | src/ray_quickstart/util/platform.py:23-48 | a platform it does not know leaves the path unchanged; in a `~` path every `~/` becomes the platform's home directory for the user; any other path that starts with one of the platform's two foreign home roots, tested in the source's order, has every occurrence of that root replaced by the platform's own, and is otherwise unchanged |
| PlatformPaths.NormalizeHomePathForPlatform | src/ray_quickstart/util/platform.py:20-25 | an omitted platform defaults to `sys.platform` and an omitted user to `USER`, or to `None` when that is unset, for `~` paths and others alike; a non-`~` path does not depend on the user |
| PlatformPaths.HomeExpansion | src/ray_quickstart/util/platform.py:23-31 | `~/rest` becomes the platform's home directory for the user followed by `rest` |
| PlatformPaths.TildeWithoutSlashUnchanged | src/ray_quickstart/util/platform.py:23-31 | a `~` path with no `~/` in it (such as `~bob/x`) is returned unchanged |
| PlatformPaths.UnrecognisedPlatformUnchanged | src/ray_quickstart/util/platform.py:20-48 | a platform other than darwin, windows and linux leaves every path unchanged |
| PlatformPaths.ForeignRootTranslated | src/ray_quickstart/util/platform.py:32-47 | a path beginning with another platform's home root has every occurrence of that root replaced by this platform's root, with the roots tested in the source's order |
| PlatformPaths.ForeignRootRewritten | src/ray_quickstart/util/platform.py:32-47 | a foreign root at the front that occurs nowhere else is swapped for the platform's own root |
| PlatformPaths.EveryOccurrenceRewritten | src/ray_quickstart/util/platform.py:33-35 | on macOS `/home/x/home/y` becomes `/Users/x/Users/y`: every occurrence is rewritten, not only the first |
| PlatformPaths.HomeRoundTrip | src/ray_quickstart/util/platform.py:32-47 | a macOS or Linux home path translated to another platform and back is restored, provided it did not already hold that platform's root |
| PlatformPaths.WindowsHomeRoundTrip | src/ray_quickstart/util/platform.py:32-47 | a Windows home path `C:/Users/rest` translated to macOS or Linux and back is restored, provided `rest` holds no root the way back would rewrite |
| PlatformPaths.WindowsOriginNotRestored | src/ray_quickstart/util/platform.py:36-40 | `C:/Users/x/Users/y` goes to macOS and back to Windows as `C:/Users/xC:/Users/y`, which differs from the original |
| PlatformPaths.NeutralPathUnchanged | src/ray_quickstart/util/platform.py:32-48 | a path that starts with neither `~` nor a foreign home root is returned unchanged |
| PlatformPaths.NormalizeIdempotent | src/ray_quickstart/util/platform.py:20-48 | translating twice gives the same as translating once, for every path that does not start with `~`, starts with `~/`, or holds no `~/` at all |
| PlatformPaths.TildeTildeNotIdempotent | src/ray_quickstart/util/platform.py:23-27 | on macOS `~~/` becomes `~/Users/{user}/`, and translating that again expands it a second time |
| MonkeyPatch.Dirname | src/ray_quickstart/monkey_patch.py:101-108 | `os.path.dirname` returns a prefix of its argument |
| MonkeyPatch.DirnameFixpoint | src/ray_quickstart/monkey_patch.py:105 | a path is its own dirname exactly when it is all slashes (a root, or empty), which is where the walk stops |
| MonkeyPatch.DirnameShrinks | src/ray_quickstart/monkey_patch.py:105-108 | away from a root each step up makes the path strictly shorter, so the walk ends |
| MonkeyPatch.MarkerPath | src/ray_quickstart/monkey_patch.py:106 | the marker path `os.path.join(d, ".is_checkpoint")` extends the directory path |
| MonkeyPatch.Resolve | src/ray_quickstart/monkey_patch.py:113 | the components `normpath` keeps are non-empty, never `.`, never hold a slash, and in an absolute path are never `..` |
| MonkeyPatch.Normpath | src/ray_quickstart/monkey_patch.py:113 | the normalised path is never empty and is absolute exactly when its argument is |
| MonkeyPatch.HomeRewrittenOnMac | src/ray_quickstart/monkey_patch.py:95-98 | `/home` followed by text without `/home` is looked up under `/Users` on macOS, `C:/Users` on `win32`, and unchanged elsewhere |
| MonkeyPatch.Ancestors | src/ray_quickstart/monkey_patch.py:101-108 | the directories the walk tests start at the start directory, never include a root and are at most as many as the path's length |
| MonkeyPatch.FindCheckpointDir | src/ray_quickstart/monkey_patch.py:89-113 | it fails with path-does-not-exist exactly when the rewritten path is missing; it succeeds exactly when the path exists and some tested directory holds the marker, with the normalised nearest such directory; it fails with checkpoint-not-found exactly when the path exists and none does |
| MonkeyPatch.NearestMarked | src/ray_quickstart/monkey_patch.py:105-107 | the position the walk stops at is within the tested directories, and a directory found there holds the marker |
| MonkeyPatch.NearestMarkedFirst | src/ray_quickstart/monkey_patch.py:105-107 | no tested directory before the one found holds the marker |
| MonkeyPatch.NearestMarkedFound | src/ray_quickstart/monkey_patch.py:105-112 | the walk finds a directory exactly when some tested directory holds the marker |
| MonkeyPatch.WalkUp | src/ray_quickstart/monkey_patch.py:105-110 | the loop stops at the nearest tested directory holding the marker, which is not a root, or at a root when none holds it |
| MonkeyPatch.RewriteForPlatform | src/ray_quickstart/monkey_patch.py:95-98 | only macOS and `win32` rewrite the path, and a path without `/home` is never changed |
| MonkeyPatch.StartDir | src/ray_quickstart/monkey_patch.py:101-104 | the walk starts at the path itself when it is a directory, and always at a prefix of it |
| MonkeyPatch.SplitRow | src/ray_quickstart/monkey_patch.py:75-80 | a row of length n gives the key 0, inputs `row[0..n-1)` and labels `row[1..n)`, both of length n-1 (both empty for an empty row) |
| MonkeyPatch.LabelsAreShiftedInputs | src/ray_quickstart/monkey_patch.py:77-78 | `labels[k] == input_ids[k+1]` |
| MonkeyPatch.IterExamples | src/ray_quickstart/monkey_patch.py:75-80 | one example per row, in row order, each the row's split |
| RsyncSync.StripFileScheme | src/ray_quickstart/rsync_syncer.py:48-49 | a leading `file://` is removed and anything else is kept |
| RsyncSync.StripFileSchemeOnce | src/ray_quickstart/rsync_syncer.py:104-105 | exactly one leading `file://` is removed |
| RsyncSync.DriverDirOfHomeUri | src/ray_quickstart/rsync_syncer.py:48-50 | `file://~/rest` names `rest` under the driver user's home directory |
| RsyncSync.DriverDirIgnoresScheme | src/ray_quickstart/rsync_syncer.py:70-72 | a path names the same driver directory with or without `file://` |
| RsyncSync.DriverDir | src/ray_quickstart/rsync_syncer.py:48-50 | on a driver platform the translation does not know, the directory is the argument without its scheme |
| RsyncSync.RsyncSyncer.UpCommand | src/ray_quickstart/rsync_syncer.py:51 | the upload is a non-mirroring rsync of the worker directory to the driver's user and host, into the translated driver directory, with the driver's ssh port after `-p` |
| RsyncSync.RsyncSyncer.DownCommand | src/ray_quickstart/rsync_syncer.py:73 | the download is a mirroring rsync (`--delete`) of the translated driver directory to the worker's user and host, with the worker's ssh port after `-p` |
| RsyncSync.UpAndDownMeet | src/ray_quickstart/rsync_syncer.py:51-73 | the upload's destination is the download's source and the other way round, so the two copies run between the same directories |
| RsyncSync.RsyncSyncer.constructor | src/ray_quickstart/rsync_syncer.py:15-38 | endpoints and policy are stored, the driver platform is the process's, and training-ended and busy start false |
| RsyncSync.RsyncSyncer.SyncUp | src/ray_quickstart/rsync_syncer.py:40-62 | refused with no transfer while waiting for the end of training or while busy; otherwise one upload to the translated driver directory, `true` and a new upload time exactly when it succeeds; busy is false on every return |
| RsyncSync.RsyncSyncer.SyncDown | src/ray_quickstart/rsync_syncer.py:64-84 | refused with no transfer while busy; otherwise one mirroring download, `true` and a new download time exactly when it succeeds; busy is false on every return |
| RsyncSync.RsyncSyncer.SyncUpIfNeeded | src/ray_quickstart/rsync_syncer.py:86-91 | without a sync period, before training has ended, the answer is `false` and the syncer is unchanged; otherwise the answer is the base class's |
| RsyncSync.RsyncSyncer.SyncDownIfNeeded | src/ray_quickstart/rsync_syncer.py:93-96 | without a sync period the answer is always `false` and the syncer is unchanged; with one the answer is the base class's |
| RsyncSync.RsyncSyncer.Delete | src/ray_quickstart/rsync_syncer.py:98-109 | refused, removing nothing, once training has ended or while busy; otherwise removes the translated worker directory and returns `true` |
| RsyncSync.BackToBackDownloads | src/ray_quickstart/rsync_syncer.py:64-84 | two successful downloads in a row both run, since the busy flag is clear after the first |
| DatasetUtil.SplitIndex | src/data/dataset_util.py:9 | the first part's size is the floor of `n * ratio` and at most n |
| DatasetUtil.FloorOfRatio | src/data/dataset_util.py:9-11 | `floor(n * ratio)` is at most n for a ratio in [0, 1], so the two requested sizes are not negative and sum to n |
| DatasetUtil.RandomSplit | src/data/dataset_util.py:7-12 | the first part has `floor(n * ratio)` examples, the parts' sizes sum to n, and together they are a rearrangement of the input |
| DatasetUtil.ClassSplit | src/data/dataset_util.py:26-38 | one example goes to train; two go first to train and second to eval; three or more split `floor(n * ratio)` to train and the rest to eval; nothing is lost or added |
| DatasetUtil.Classes | src/data/dataset_util.py:17-25 | the classes in first-appearance order are distinct and are exactly the labels that occur |
| DatasetUtil.Members | src/data/dataset_util.py:17-22 | a class's examples in input order, all of that class |
| DatasetUtil.MembersAppend | src/data/dataset_util.py:18-22 | a new example is appended to its own class's list and no other |
| DatasetUtil.GroupByClass | src/data/dataset_util.py:17-22 | the dictionary's keys, in insertion order, are the classes in first-appearance order, and each maps to that class's examples in input order |
| DatasetUtil.AddExample | src/data/dataset_util.py:18-22 | one pass of the grouping loop keeps the dictionary and its key order equal to the grouping of the examples seen so far |
| DatasetUtil.AddClassShare | src/data/dataset_util.py:26-38 | one class's examples are appended to train and eval as its share dictates |
| DatasetUtil.ShareClasses | src/data/dataset_util.py:23-39 | the class loop appends every class's share, class by class in key order |
| DatasetUtil.SplitForClassification | src/data/dataset_util.py:15-39 | train and eval are the classes' shares, class by class in first-appearance order, and together are a rearrangement of the dataset |
| DatasetUtil.StratifyPartition | src/data/dataset_util.py:23-38 | the train and eval outputs of a list of classes together hold exactly those classes' examples |
| DatasetUtil.NoMembersOutsideClasses | src/data/dataset_util.py:17-22 | a label that does not occur has no examples |
| DatasetUtil.GatheredAppendOther | src/data/dataset_util.py:17-22 | an example of another class does not change the gathered examples of the given classes |
| DatasetUtil.GatheredAppendOwn | src/data/dataset_util.py:17-22 | an example of one of the given distinct classes is gathered exactly once |
| DatasetUtil.GatheredClasses | src/data/dataset_util.py:17-25 | gathering every class of the dataset gives a rearrangement of the dataset |
| Gpt2Data.SliceBound | src/data/gpt2_dataset.py:43-44 | a slice bound counts from the end when negative and is clamped to the length |
| Gpt2Data.PySlice | src/data/gpt2_dataset.py:43-44 | a slice with in-range bounds is the subsequence between them, of length `stop - start` |
| Gpt2Data.Gpt2Dataset.DatasetName | src/data/gpt2_dataset.py:21 | the name is `val` exactly for the eval dataset |
| Gpt2Data.Gpt2Dataset.FilePath | src/data/gpt2_dataset.py:32-33 | the token file lies in the model's data directory and is a `.bin` file |
| Gpt2Data.Gpt2Dataset.NumExamples | src/data/gpt2_dataset.py:51-53 | the number of examples is the data length minus the block size |
| Gpt2Data.Gpt2Dataset.Len | src/data/gpt2_dataset.py:35-38 | the configured truncation when set, otherwise the number of examples |
| Gpt2Data.Gpt2Dataset.GetItem | src/data/gpt2_dataset.py:40-45 | a negative length is an error, an index at or past the length is an index error, and an index within the examples gives the block at the index and the block one token later, both of block size |
| Gpt2Data.Gpt2Dataset.RayRow | src/data/gpt2_dataset.py:49 | row i is the `block_size + 1` tokens starting at i |
| Gpt2Data.Gpt2Dataset.RayRows | src/data/gpt2_dataset.py:47-49 | one row per example (none when there are no examples), row i being `data[i..i+block_size]` |
| Gpt2Data.ItemLabelsShifted | src/data/gpt2_dataset.py:43-45 | an item's labels are its inputs shifted by one token |
| Gpt2Data.TrainAndValFilesDiffer | src/data/gpt2_dataset.py:32-33 | the train and val datasets of one model read different files |
| Gpt2Data.RayRowSplitsIntoItem | src/data/gpt2_dataset.py:43-49 | splitting shipped row i with the patched iterator gives exactly item i |
| TrainerInit.Overridden | src/training/huggingface_trainer_initializer_base.py:41-44 | after the overrides the arguments hold the original keys and every parameter's key |
| TrainerInit.OverrideKeepsOthers | src/training/huggingface_trainer_initializer_base.py:41-45 | an argument no parameter names keeps its value, and no key appears that was in neither |
| TrainerInit.OverrideLastWins | src/training/huggingface_trainer_initializer_base.py:41-44 | a parameter's key takes the value of its last occurrence |
| TrainerInit.LoadBestModelAtEnd | src/training/huggingface_trainer_initializer_base.py:23-26 | `load_best_model_at_end` is false exactly on the Ray cluster |
| TrainerInit.UseMpsDevice | src/training/huggingface_trainer_initializer_base.py:38 | `use_mps_device` holds exactly on a Mac, off the cluster, with the `mps` device |
| TrainerInit.DefaultArgs | src/training/huggingface_trainer_initializer_base.py:23-40 | the arguments carry the seed as `seed` and `data_seed`, `load_best_model_at_end` off exactly on the cluster, and `use_mps_device` on a Mac off the cluster with the `mps` device |
| TrainerInit.DefaultArgsKeys | src/training/huggingface_trainer_initializer_base.py:27-40 | exactly the twelve named arguments are set |
| TrainerInit.DefaultArgsDirs | src/training/huggingface_trainer_initializer_base.py:31-32 | the output directory is the model's directory under the runs directory, and the logging directory is `tensorboard` under the logs directory |
| TrainerInit.DefaultArgsStrategies | src/training/huggingface_trainer_initializer_base.py:33-39 | the logging, evaluation and save strategies and the progress-bar switch are the caller's |
| TrainerInit.DefaultArgsFixed | src/training/huggingface_trainer_initializer_base.py:30-37 | unused columns are removed and the optimiser is `adamw_torch` |
| TrainerInit.TrainerArgsInit | src/training/huggingface_trainer_initializer_base.py:17-45 | the result is the default arguments, overridden by every loaded training parameter in file order, or the defaults when no parameters file exists |
| TrainerInit.SetEach | src/training/huggingface_trainer_initializer_base.py:42-44 | the `setattr` loop leaves the arguments overridden by the parameters in order |
| TrainerInit.EvalMetric | src/training/huggingface_trainer_initializer_base.py:109-113 | without parameters, or without a `metric_for_best_model` key, the default metric is used |
| TrainerInit.EvalMetricFromParams | src/training/huggingface_trainer_initializer_base.py:109-111 | a `metric_for_best_model` parameter names the metric |
| TrainerInit.DropScheme | src/training/huggingface_trainer_initializer_base.py:125 | the path is the URI without its first 7 characters, empty for a shorter URI |
| TrainerInit.DropSchemeOfFileUri | src/training/huggingface_trainer_initializer_base.py:125 | a `file://` URI gives the path it names |
| TrainerInit.BestCheckpoint | src/training/huggingface_trainer_initializer_base.py:104-125 | no checkpoints means nothing to load; a checkpoint missing the metric is a key error; otherwise a checkpoint is always chosen, its metric is at least every other's, every earlier one's is strictly smaller, and the path is its URI without the scheme |
| Models.ModelFramework | src/models/model_base.py:56-57 | `pytorch` exactly for the `pt` framework, `tensorflow` otherwise |
| Models.ModelPathIn | src/models/model_base.py:51-54 | a model's path lies in the models directory |
| Models.ModelPathInjective | src/models/model_base.py:46-54 | two models in one directory share a path only if they share a name |
| Models.FolderAndFilePathsDiffer | src/models/model_base.py:51-54 | the folder path and the framework-prefixed file path of a model differ |
| Models.YamlPath | src/models/model_base.py:104-108 | a configuration or parameters file lies in the model's configuration directory, starts with its kind and is a `.yaml` file |
| Models.ConfigFilePath | src/models/model_base.py:104-108 | a model configuration file is a `model` file in the model's configuration directory |
| Models.TrainParamsFilePath | src/models/model_base.py:148-152 | a training parameters file is a `train` file in the model's configuration directory |
| Models.ConfigAndTrainParamsDiffer | src/models/model_base.py:104-152 | a model's configuration file is never its training parameters file |
| Models.YamlPathsDistinct | src/models/model_base.py:104-108 | configuration files of distinct variants differ, and no variant's file is the default `model.yaml`; training-parameter files likewise |
| Models.ModelBase.constructor | src/models/model_base.py:18-27 | no model is in memory, training is off and no directory override is set |
| Models.ModelBase.ModelsDirNow | src/models/model_base.py:47-50 | the override, when set, takes precedence over the storage manager's models directory |
| Models.ModelBase.ModelPath | src/models/model_base.py:43-54 | the model path lies in the current models directory |
| Models.ModelBase.ModelFile | src/models/model_base.py:65 | the file tested for a trained model is the model path itself for a folder model, and a longer name (`.p` added) otherwise |
| Models.ModelBase.SetModelsDir | src/models/model_base.py:35-36 | sets the override and nothing else |
| Models.ModelBase.LoadOrCreateModel | src/models/model_base.py:59-75 | a model in memory is kept; a requested trained model is loaded when its file exists; when the file is missing the request is dropped and a fresh model is created |
| Models.ModelBase.GetModel | src/models/model_base.py:38-41 | returns the model in memory, loading or creating one only when there is none |
| Models.ModelBase.SaveModel | src/models/model_base.py:125-127 | a persistent model is written to its model path, and nothing else changes; a persistent model must be in memory |
| Models.ModelBase.LoadFromCheckpoint | src/models/model_base.py:77-82 | the model is read from the checkpoint directory, the override is cleared afterwards, and it is saved under the regular models directory |
| Models.ModelBase.TrainModel | src/models/model_base.py:162-173 | nothing happens when a trained model is to be used; otherwise the model in memory is kept or a fresh one created, no trained model is requested, training is on and a persistent model is saved |
| Models.ModelBase.UpdateModel | src/models/model_base.py:182-194 | a persistent model that is not a trained one is left alone; otherwise the model in memory is kept, or one is loaded or created by the rule of `load_or_create_model` (the request dropped when its file is missing), training is on and a persistent model is saved |
| VersionBump.IncrementVersion | setup.py:46-48 | a version without exactly three dot-separated parts fails the unpacking, and one whose patch is not an integer fails `int()` |
| VersionBump.IntToStringHasNoDot | setup.py:47 | the new patch text holds no dot |
| VersionBump.IncrementedVersionParses | setup.py:46-48 | the new version splits into three parts, with the same major and minor and a patch exactly one larger |
| VersionBump.LeadingZerosDropped | setup.py:47 | a patch `007` becomes `8` |
| VersionBump.BumpVersion | setup.py:46-50 | the bump fails exactly when the increment fails, and otherwise yields the incremented version |
| VersionBump.VersionLineRewritten | setup.py:50 | in the file content the old version is replaced by the new one, with the text around it kept, provided the old version occurs neither in the text before it, nor across its start, nor in the text after it |

## Left out

- File, process and network I/O. This covers reading and writing the
  YAML configuration and training-parameter files, `torch.load`, saving
  models, rsync and ssh, `shutil.rmtree` and logging. Each appears only
  as its effect on the modelled state, or as a parameter.
- `RsyncSyncer.Delete`: an error raised by `shutil.rmtree`, such as a
  missing directory, propagates in the source. The model always reports
  the removal as done.
- Concurrency. The syncer's busy flag is modelled for one caller at a
  time.
- The base `Syncer` class of Ray is not part of this model. What its
  `sync_up_if_needed`, `sync_down_if_needed` and `sync_up` return is the
  parameter `baseResult`.
- `RsyncSync.RsyncSyncer.SyncUpIfNeeded`: with a sync period the source
  calls the base class's `sync_up_if_needed`, and once training has ended
  it calls `super().sync_up`, the base class's method rather than the
  upload of this class. What these calls do to the syncer's state
  (running rsync, the busy flag, the upload time, the commands issued) is
  not modelled. The contract leaves the state open after such a call, and
  the model's body changes nothing there.
- `RsyncSync.RsyncSyncer.SyncDownIfNeeded`: with a sync period the source
  calls the base class's `sync_down_if_needed`. Its effect on the syncer's
  state is not modelled either. The contract leaves the state open, and
  the model's body changes nothing.
- `RsyncSync.RsyncSyncer.UpCommand` and `DownCommand` record the port the
  command line carries after `-p`. rsync reads `-p` as `--perms`, not as
  an ssh port, so the port becomes one more source operand. The model
  does not interpret rsync's arguments. Whether a transfer succeeds is
  the parameter `transferOk`.
- `expand_user_home_path` is not part of this model; see above.
- The orchestration in `src/ray_quickstart/init.py` is glue over Ray and the
  operating system. It calls the syncer with a different argument list and
  calls a method the syncer does not define.
- `trainer_init` and `trainer_init_per_worker`, and every
  `TrainingArguments` field that `trainer_args_init` does not set, are
  framework glue.
- `get_model_config`, `to(device)` in inference mode and
  `get_device_type` are left out. The hooks a concrete model implements
  (creating, training, updating, predicting) are abstract in the source.
- Reading the version file: the regular expression, `ast.literal_eval`,
  writing the file back and setting the package metadata. The original
  version string is an input.
- `ParseInt` accepts an optional sign and ASCII digits. Python's `int()`
  also accepts surrounding whitespace and `_` between digits.
- `SplitIndex`: `int(len * split_ratio)` is computed exactly on the
  fraction `num / den`. The source uses floating point, which can land one
  lower (for example 0.29 × 100).
- `DatasetUtil.SplitForClassification` requires a ratio in [0, 1]. The
  source does not check this, and what `random_split` does with a negative
  size is outside the model.
- `RandomSplit`: the permutation that `random_split` draws from its seeded
  generator is the oracle `shuffle`. The model requires only that it
  rearranges its argument; it does not fix which permutation is drawn.
- `Gpt2Dataset`: the token file's `uint16` element type is not modelled;
  tokens are integers. The block size is taken to be non-negative.
- `BestCheckpoint`: loading the chosen weights into the model and saving
  the model afterwards are left out. The contract ends at the chosen
  checkpoint and its path.
- `TrainerInit.DefaultArgs`: the arguments are the twelve keyword
  arguments the source passes, as a map from name to value. Every other
  field of `TrainingArguments` keeps a library default, which is not
  modelled. The function's own contract covers the seed and the two
  run-dependent flags. `DefaultArgsKeys`, `DefaultArgsDirs`,
  `DefaultArgsStrategies` and `DefaultArgsFixed` state the key set and
  every other value.
- `MonkeyPatch.FindCheckpointDir`: `dirname`, `join` and `normpath` are
  those of `posixpath`. On `win32`, `os.path` is `ntpath` instead: it
  writes backslashes, and `dirname` stops at a drive root such as `C:/`.
  So for `win32` the model's walk and its returned spelling differ from
  the source's. For example, with the marker in `C:/Users/x`, the source
  returns `C:\Users\x` and the model returns `C:/Users/x`.
- `Gpt2Data.Gpt2Dataset.Len`: `__len__` reads
  `config.truncate_dataset_to_size`, which the `Config` class in
  `src/config/__init__.py` does not define and no file of the repository
  sets. As written, `__len__` (and so `__getitem__`) raises
  `AttributeError`. The model assumes a configuration that has the
  attribute, and takes it as the `Option` parameter `truncate`, with
  `None` standing for the source's `None` value. The `AttributeError` is
  not modelled.
