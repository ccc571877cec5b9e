# kl training loop, modelled in Dafny

This project models the training-loop core of the `kl` Python package:

- the `Trainer` of `kl/deepnet/trainer/trainer.py`, which runs epochs of a
  train pass, a test pass, a checkpoint save and an early-stop check;
- its three managers:
  - the `CheckpointManager` is a directory of `<index>.pth` blobs plus a
    sorted stack of indices, with bounded FIFO eviction;
  - the `EarlyStop` controller is a patience counter over a stream of scores;
  - the `SummaryManager` is a log of records cut down to an allow-list of
    columns, with optional board events and a text rendering;
- the variant controller of `kl/train2/early.py`, whose `update` returns the
  stop flag;
- two helpers: `number2string` (`kl/deepnet/trainer/util.py`) and `sample`
  (`kl/app.py`).

One Dafny module per source file:

| file | module | source |
|---|---|---|
| `python.dfy` | `PyBase` | the Python built-ins the code relies on: `int()`, `str()` of an int, `str.title()`, `' '.join`, exceptions |
| `util.dfy` | `TrainerUtil` | `kl/deepnet/trainer/util.py` |
| `app.dfy` | `App` | `sample` in `kl/app.py` |
| `early_stop.dfy` | `EarlyStopping` | `kl/deepnet/trainer/early_stop.py` |
| `early.dfy` | `Train2Early` | `kl/train2/early.py` |
| `checkpoint_manager.dfy` | `Checkpoints` | `kl/deepnet/trainer/checkpoint_manager.py` |
| `summary_manager.dfy` | `Summary` | `kl/deepnet/trainer/summary_manager.py` |
| `trainer.dfy` | `Training` | `kl/deepnet/trainer/trainer.py` |

All the source classes change their fields in place, so each is a Dafny
`class`. Each class method is proved against a pure specification function
of the old state. The properties that span several calls are lemmas about
those functions. Examples: a run of updates, a run of saves, a whole `fit`.

- **Trainer.** The trainer and its managers are viewed together as one
  value, a `World`. It holds the epoch, the batch counter, a trace of every
  call made on the collaborators, the shared summary log, the board events,
  the last `summary.json`, the checkpoint directory and stack, and the
  early-stop state. `Trainer.Fit` is proved to leave exactly the world that
  `RunFrom` computes, and to raise exactly the exception it computes.
- **Collaborators.** The network, loss, optimizer and metric are modelled
  as capabilities. Each call on one is an entry in the trace. The values
  they return (the last batch's loss and accuracy) come from the functions
  in `Capabilities`. A data loader is the number of batches it yields.
- **Exceptions.** Python exceptions are explicit results: `Option<Error>`
  or `Outcome<T>`. A constructor that can raise is a static `Create` method
  that returns null together with the error.

Behaviours of the code that the model keeps as written, though a reader
might expect otherwise:

- The checkpoint scan does not skip non-numeric `.pth` names: `int()`
  raises ValueError and construction fails (`Checkpoints.ParseStems`,
  `Checkpoints.CheckpointManager.Create`).
- Eviction is decided before the new index is tracked
  (`len(stack) >= max_count`). With `max_count <= 0` and an empty stack,
  `pop(0)` raises IndexError (`Checkpoints.Saved`).
- `SummaryManager.storage` is a class attribute, so every manager shares
  one log. It is modelled as a `SharedLog` object referred to by every
  manager. The early-stop fields `best_score`, `counter` and `status` are
  class attributes too, and a fresh controller reads them from the class
  (`update` reads `best_score` and increments `counter`; the trainer reads
  `status`). They hold immutable numbers and a bool, nothing assigns to the
  class, and the first assignment through `self` shadows the class value.
  So each controller behaves as if it owned a copy starting at the class
  defaults, and they are modelled as per-instance fields.
- `EarlyStop.update` in `kl/deepnet/trainer/early_stop.py` returns nothing
  on either branch. Only the `kl/train2/early.py` variant returns a flag.
- No configuration is validated. A capacity or patience below 1 is
  accepted and behaves as the code dictates.
- `get_text` does not render trainer records: see "## Findings".

## Model

| member | source | states |
|---|---|---|
| PyBase.DecimalRoundTrip | kl/deepnet/trainer/checkpoint_manager.py:42-51 | `int(str(n)) == n`: the stem `save` writes for an index parses back to that index in the directory scan |
| PyBase.DecimalInjective | kl/deepnet/trainer/checkpoint_manager.py:51-63 | two indices have the same file name iff they are equal, so writing the new file never overwrites the oldest one |
| PyBase.TitleIdempotent | kl/deepnet/trainer/summary_manager.py:79 | `str.title()` keeps the length of a column name and is idempotent |
| TrainerUtil.FixedPoint | kl/deepnet/trainer/util.py:14-15 | the `'{:.%df}'` template formats exactly when the precision is non-negative and the value is an int or a float; None raises TypeError whatever the precision, and otherwise a negative precision or a str raises ValueError |
| TrainerUtil.Number2String | kl/deepnet/trainer/util.py:4-15 | an int renders as its plain decimal whatever `dtype` says; with `dtype == 'int'` every value takes the `str()` branch; the fixed-point branch is taken only for `dtype != 'int'` and a non-int value; nothing is returned iff neither condition holds |
| TrainerUtil.IntRenderingRoundTrip | kl/deepnet/trainer/util.py:9-11 | the text an int renders to reads back through `int()` as that int, for every precision and dtype |
| TrainerUtil.DefaultDtypeRendersStr | kl/deepnet/trainer/util.py:4-11 | with the default dtype 'int', every value renders as `str(value)`: a float is never put in fixed point |
| TrainerUtil.NoneFloatFails | kl/deepnet/trainer/util.py:12-15 | `number2string(None, dtype='float')` raises TypeError for every precision, a negative one included |
| TrainerUtil.FloatRendering | kl/deepnet/trainer/util.py:4-15 | a float with a dtype other than 'int' renders with the default precision 4 |
| App.Sample | kl/app.py:27-44 | the result is the prefix of the items taken; `min(n, len)` items for `n >= 1`; exactly the first item for `n <= 0` and a non-empty input; none for an empty input; `min(len, max(n, 1))` items consumed |
| EarlyStopping.AfterReset | kl/deepnet/trainer/early_stop.py:27-34 | after `reset`, the counter is 0 and the status false; the best score is the sentinel iff `reset_score` |
| EarlyStopping.StatusSticky | kl/deepnet/trainer/early_stop.py:36-71 | no run of updates sets `status` back to false |
| EarlyStopping.NonImprovingRun | kl/deepnet/trainer/early_stop.py:51-71 | over non-improving updates, the best score stays, the counter grows by one per update, and the status becomes true exactly when the counter reaches the patience |
| EarlyStopping.FirstStopAtPatience | kl/deepnet/trainer/early_stop.py:52-71 | after an improvement, the status is false after fewer than `patience` non-improving updates and true after `patience` of them |
| EarlyStopping.PatienceTwoScenario | kl/deepnet/trainer/early_stop.py:36-71 | patience 2, gap 0, scores 1.0, 0.5, 0.5: no stop after two updates, a stop after the third |
| EarlyStopping.EarlyStop.constructor | kl/deepnet/trainer/early_stop.py:8-25 | a fresh controller has best score -10e5, counter 0 and status false, and keeps its patience, gap and verbose |
| EarlyStopping.EarlyStop.Reset | kl/deepnet/trainer/early_stop.py:27-34 | the new state is `AfterReset` of the old one |
| EarlyStopping.EarlyStop.Update | kl/deepnet/trainer/early_stop.py:36-60 | a strict improvement (`score > best*(1+gap)`) replaces the best score, zeroes the counter and keeps the status; otherwise the counter grows by one, the best score stays and the status is `old status or counter >= patience`; status never goes back to false |
| EarlyStopping.EarlyStop.Judge | kl/deepnet/trainer/early_stop.py:62-71 | status becomes `old status or counter >= patience` |
| Train2Early.ReturnedAt | kl/train2/early.py:30-45 | the i-th value a run of updates returns is what `update` returns from the state that the first i updates reach |
| Train2Early.UpdatedAllSplit | kl/train2/early.py:30-53 | a run of updates is its prefix followed by the rest |
| Train2Early.StopIsFinal | kl/train2/early.py:30-53 | once `update` has returned True, every later non-improving update of the run returns True |
| Train2Early.EarlyStop.constructor | kl/train2/early.py:4-19 | a fresh controller has best score -10e5, counter 0 and status false |
| Train2Early.EarlyStop.Reset | kl/train2/early.py:21-28 | counter 0, status false, best score reset only when asked |
| Train2Early.EarlyStop.Update | kl/train2/early.py:30-45 | returns False on a strict improvement, which keeps the status even after a stop; otherwise returns the new status, which is true whenever the old one was |
| Train2Early.EarlyStop.Judge | kl/train2/early.py:47-53 | status becomes `old status or counter >= patience` |
| Checkpoints.LastIdx | kl/deepnet/trainer/checkpoint_manager.py:31-37 | the last tracked index, or 0 when none is tracked; on a sorted stack it is the largest |
| Checkpoints.ParseStems | kl/deepnet/trainer/checkpoint_manager.py:42 | every stem parsed in order, or failure iff some stem is not an integer |
| Checkpoints.Insert | kl/deepnet/trainer/checkpoint_manager.py:45 | inserting one integer adds exactly that element to the multiset |
| Checkpoints.InsertSorted | kl/deepnet/trainer/checkpoint_manager.py:45 | inserting into a sorted list keeps it sorted |
| Checkpoints.SortInts | kl/deepnet/trainer/checkpoint_manager.py:45 | `sorted()` yields a sorted permutation of the parsed indices |
| Checkpoints.Snapshot | kl/deepnet/trainer/checkpoint_manager.py:54-57 | the blob maps exactly the registered names to their current states |
| Checkpoints.SaveKeepsOrder | kl/deepnet/trainer/checkpoint_manager.py:47-68 | the new blob is stored under `last+1`, which exceeds every tracked index; the stack stays sorted (strictly increasing if it was) and ends with the new index after a successful save |
| Checkpoints.SaveBounded | kl/deepnet/trainer/checkpoint_manager.py:59-68 | IndexError iff the stack is empty with `max_count <= 0`; FileNotFoundError iff the oldest file is missing; at capacity the oldest index and file go and the length stays; below capacity the stack grows by one; a stack within `max_count` stays within it |
| Checkpoints.EvictingSave | kl/deepnet/trainer/checkpoint_manager.py:59-68 | a save at capacity writes the new blob, drops the oldest index and deletes its file |
| Checkpoints.RestoreAll | kl/deepnet/trainer/checkpoint_manager.py:77-80 | a blob holding every registered name restores each of them and leaves other states alone |
| Checkpoints.SaveLoadRoundTrip | kl/deepnet/trainer/checkpoint_manager.py:47-80 | a successful `save()` then `load()` restores every registered component to its saved state, whatever it became in between |
| Checkpoints.WindowGrows | kl/deepnet/trainer/checkpoint_manager.py:47-68 | below capacity, a save from the window of N saves gives the window of N+1 saves |
| Checkpoints.WindowSlides | kl/deepnet/trainer/checkpoint_manager.py:59-68 | at capacity, a save from the window of N saves gives the window of N+1 saves |
| Checkpoints.SavesFromEmpty | kl/deepnet/trainer/checkpoint_manager.py:47-68 | from an empty directory with `max_count = K >= 1`, N saves never fail and track exactly max(1, N-K+1) .. N; the directory holds exactly their files, index i holding the i-th blob |
| Checkpoints.FiveSavesKeepThree | kl/deepnet/trainer/checkpoint_manager.py:47-68 | `max_count=3` and five saves leave indices 3, 4, 5 |
| Checkpoints.CheckpointManager.constructor | kl/deepnet/trainer/checkpoint_manager.py:11-27 | the fields are set and the stack is empty before the scan |
| Checkpoints.CheckpointManager.Create | kl/deepnet/trainer/checkpoint_manager.py:11-29 | construction succeeds iff every `.pth` stem is an integer; the stack is then the sorted stems, otherwise ValueError |
| Checkpoints.CheckpointManager.CheckExistingPth | kl/deepnet/trainer/checkpoint_manager.py:39-45 | the stack becomes the sorted integer stems, or ValueError with the stack unchanged |
| Checkpoints.CheckpointManager.Save | kl/deepnet/trainer/checkpoint_manager.py:47-68 | the new directory, stack and error are those of `Saved` on a snapshot of the current states; the stack stays sorted |
| Checkpoints.CheckpointManager.Load | kl/deepnet/trainer/checkpoint_manager.py:70-80 | the new states and the error are those of `Loaded`: the newest index when no path is given, FileNotFoundError for a missing file, KeyError for a missing name after restoring the earlier ones; stack and directory unchanged; the class invariant (sorted stack, every registered name has a state) is kept |
| Summary.Put | kl/deepnet/trainer/summary_manager.py:63 | `d[key] = v`: the key reads back as v, other keys are unchanged, and a new key goes last |
| Summary.FilteredGet | kl/deepnet/trainer/summary_manager.py:54-65 | a stored record answers a lookup as the input does for a column, and None for anything else |
| Summary.FilteredKeys | kl/deepnet/trainer/summary_manager.py:54-65 | a key is stored iff it is a column and the input holds a non-None value for it |
| Summary.PutNew | kl/deepnet/trainer/summary_manager.py:63 | setting an absent key appends the pair at the end |
| Summary.FilteredSnoc | kl/deepnet/trainer/summary_manager.py:56-63 | a new column adds its pair at the end of the record when the input has a value for it |
| Summary.FilteredOrder | kl/deepnet/trainer/summary_manager.py:54-65 | for a column list without repeats (as the default and the trainer's columns are), the stored keys are the present columns in column order |
| Summary.BoardEventsSpec | kl/deepnet/trainer/summary_manager.py:67-84 | one event per board column with a value, in order, tagged `mode/Title` and stepped by `epoch`; KeyError with no event iff such a column exists and 'mode' or 'epoch' is missing |
| Summary.BoardErrorStays | kl/deepnet/trainer/summary_manager.py:71-84 | once the board loop raises, the result is that raise with the events written so far |
| Summary.Index | kl/deepnet/trainer/summary_manager.py:96 | `storage[idx]` with Python's negative indexing, IndexError out of range |
| Summary.IntendedText | kl/deepnet/trainer/summary_manager.py:89-113 | the corrected `get_text` fails only on an index out of range |
| Summary.NumericScan | kl/deepnet/trainer/summary_manager.py:97-113 | when every present value is a number, the loop produces exactly the intended segments |
| Summary.RenderedInt | kl/deepnet/trainer/summary_manager.py:103-107 | an int renders as its plain decimal |
| Summary.IntSegment | kl/deepnet/trainer/summary_manager.py:103-107 | an int column renders as `Title:<decimal>`, and the decimal parses back to the int |
| Summary.StrFirstFails | kl/deepnet/trainer/summary_manager.py:97-112 | a str value in the first present column raises UnboundLocalError |
| Summary.StrRepeats | kl/deepnet/trainer/summary_manager.py:97-112 | a later str value appends the previous segment again |
| Summary.ModeColumnFails | kl/deepnet/trainer/summary_manager.py:89-113 | with the default columns, `get_text` of any record with a str 'mode' raises UnboundLocalError |
| Summary.DuplicatedSegment | kl/deepnet/trainer/summary_manager.py:97-112 | an int column followed by a str column yields the int's segment twice |
| Summary.IntendedAgrees | kl/deepnet/trainer/summary_manager.py:89-113 | on records whose present values are numbers, the code as written returns the intended text |
| Summary.SharedLog.constructor | kl/deepnet/trainer/summary_manager.py:11 | the shared log starts empty |
| Summary.SummaryManager.constructor | kl/deepnet/trainer/summary_manager.py:13-43 | the columns, board flag and board columns are kept; no event and no saved file yet |
| Summary.SummaryManager.Append | kl/deepnet/trainer/summary_manager.py:45-52 | the shared log gains exactly the filtered record, earlier records untouched, and `__len__` grows by 1; with the board on, the events and error are those of `BoardEvents`, otherwise no event and no error |
| Summary.SummaryManager.StorageAdd | kl/deepnet/trainer/summary_manager.py:54-65 | one more record, the input filtered to the columns |
| Summary.SummaryManager.BoardAdd | kl/deepnet/trainer/summary_manager.py:67-84 | the events written and the exception are those of `BoardEvents` |
| Summary.SummaryManager.GetText | kl/deepnet/trainer/summary_manager.py:89-113 | the result of the code as written; IndexError out of range; equal to the intended text when every present value is a number |
| Summary.SummaryManager.Save | kl/deepnet/trainer/summary_manager.py:115-122 | `summary.json` then holds the whole shared log as it stands, every manager's records included; the log itself is untouched |
| Training.PredictedBatch | kl/deepnet/trainer/trainer.py:140-164 | a batch makes exactly one `predict` call, for that batch |
| Training.BatchesCallsShape | kl/deepnet/trainer/trainer.py:140-180 | the batches of a pass make no metric reset; a test pass's batches make no optimizer, loss or backward call; the predicted batches are 1 .. n in order |
| Training.MonitoredFacts | kl/deepnet/trainer/trainer.py:196-198 | the early-stop step adds at most one `update` call and touches only the controller |
| Training.RecordedFacts | kl/deepnet/trainer/trainer.py:184-198 | recording a pass appends its one stored record and a summary call, plus at most one `update` call; only a test pass changes the controller |
| Training.PassFacts | kl/deepnet/trainer/trainer.py:125-198 | a pass changes only the batch counter, trace, log, events and controller; it appends one record if it has batches and raises UnboundLocalError with no record otherwise |
| Training.PassTail | kl/deepnet/trainer/trainer.py:181-198 | after the batches, a pass only prints, appends and updates the controller |
| Training.PassTrace | kl/deepnet/trainer/trainer.py:125-198 | a pass sets the mode and resets the metric exactly once, before its batches; a test pass makes no training call; it predicts batches 1 .. n in order |
| Training.EmptyLoaderFails | kl/deepnet/trainer/trainer.py:140-190 | a loader with no batch makes the pass raise UnboundLocalError, with no record stored |
| Training.StoredRecordFiltered | kl/deepnet/trainer/trainer.py:185-194 | the summary stores `epoch_info` as mode, epoch, the loss of a train pass, and accuracy |
| Training.RecordBoardEvents | kl/deepnet/trainer/trainer.py:185-194 | the board never raises for a trainer record: two events for a train pass and one for a test pass, each stepped by the epoch |
| Training.RecordOf | kl/deepnet/trainer/trainer.py:185-194 | the stored record has its epoch and mode, no batch or time, and a test record has no loss key |
| Training.PassRecord | kl/deepnet/trainer/trainer.py:125-198 | a pass with batches appends exactly one record with its epoch and mode, leaving earlier records as they were |
| Training.TrainPassKeepsController | kl/deepnet/trainer/trainer.py:196-198 | a train pass never updates the early-stop controller |
| Training.SaveStepFacts | kl/deepnet/trainer/trainer.py:210-216 | `save()` touches only the trace, `summary.json` and the checkpoint store; with checkpointing off it does nothing; with it on, the store and the exception are those of saving every component's snapshot, and without an exception `summary.json` holds the whole log |
| Training.PassLog | kl/deepnet/trainer/trainer.py:185-194 | a pass appends its record, or nothing when it has no batch |
| Training.EpochLog | kl/deepnet/trainer/trainer.py:220-239 | an epoch only appends to the log: a train then a test record of that epoch when it raises nothing |
| Training.RunRecords | kl/deepnet/trainer/trainer.py:218-250 | `fit` stores a train and a test record for each completed epoch, in ascending order after the existing log; it completes at most `num_epoch - epoch + 1` epochs, and fewer without an exception only when early stopping is on and `status` is set |
| Training.RunsAllEpochs | kl/deepnet/trainer/trainer.py:218-250 | without early stopping, a run that raises nothing completes every epoch |
| Training.StopAfterSave | kl/deepnet/trainer/trainer.py:237-250 | the loop breaks after an epoch iff that epoch raised nothing, early stopping is on and `status` is set; with checkpointing on, the break comes after that epoch's save, so `summary.json` holds the whole log; such an epoch is the last `fit` runs, completing it without an exception |
| Training.EpochKeepsFiles | kl/deepnet/trainer/trainer.py:210-216 | with checkpointing off, an epoch writes no checkpoint and no `summary.json` |
| Training.NoCheckpointNoFiles | kl/deepnet/trainer/trainer.py:210-250 | with checkpointing off, `fit` writes no checkpoint and no `summary.json` |
| Training.DefaultMonitorFails | kl/deepnet/trainer/trainer.py:110-198 | with early stopping on and the default monitor 'loss', the first test pass hands `update` None: TypeError in the first epoch, after its two records |
| Training.IntendedMonitorEpoch | kl/deepnet/trainer/trainer.py:110-198 | with the monitor defaulting to 'accuracy' instead, the first epoch raises nothing, stores its two records and feeds `update` the test accuracy |
| Training.QuietEpoch | kl/deepnet/trainer/trainer.py:220-247 | with early stopping and checkpointing off and non-empty loaders, an epoch neither raises nor breaks |
| Training.QuietRun | kl/deepnet/trainer/trainer.py:218-250 | in that setting, `fit` completes every epoch with two records each and writes no file |
| Training.TwoEpochScenario | kl/deepnet/trainer/trainer.py:218-250 | two epochs with checkpointing and early stopping off store four records (train of epoch 1 first, test of epoch 2 last) and no file |
| Training.Trainer.Create | kl/deepnet/trainer/trainer.py:19-110 | ValueError from the checkpoint scan, TypeError for an `earlyStop_config` with its own 'verbose', otherwise a trainer at epoch 1 with an empty trace; managers exist iff their flags are set; the early stop has the configured patience and gap, defaults 3 and 0, and monitors `object`, default 'loss' |
| Training.Trainer.Print | kl/deepnet/trainer/trainer.py:200-208 | a line is output iff `verbose >= level`; nothing else changes |
| Training.Trainer.RunBatch | kl/deepnet/trainer/trainer.py:140-180 | one batch: its calls in order (zero_grad, predict, loss, backward, step for training; predict only for testing; then metric update and compute), its loss for training and its accuracy |
| Training.Trainer.RunBatches | kl/deepnet/trainer/trainer.py:137-182 | the mode, one metric reset, the calls of batches 1 .. n and the line end; `self.batch` ends at n; the last batch's loss and accuracy, none without a batch |
| Training.Trainer.FitBatch | kl/deepnet/trainer/trainer.py:125-198 | the new world and error are those of `Pass` |
| Training.Trainer.Record | kl/deepnet/trainer/trainer.py:184-198 | the new world and error are those of `Recorded` |
| Training.Trainer.Summarize | kl/deepnet/trainer/trainer.py:192-194 | appending `epoch_info` stores `StoredRecord` and, with the board on, the `BoardOf` events; it raises nothing |
| Training.Trainer.Monitor | kl/deepnet/trainer/trainer.py:196-198 | the new world and error are those of `Monitored`: KeyError for a missing field, TypeError for None or a str |
| Training.Trainer.Save | kl/deepnet/trainer/trainer.py:210-216 | the new world and error are those of `SaveStep` |
| Training.Trainer.FitEpoch | kl/deepnet/trainer/trainer.py:220-247 | the new world, error and break flag are those of `Epoch` |
| Training.Trainer.FitStep | kl/deepnet/trainer/trainer.py:220-247 | one iteration seen from the whole run: either the loop ends there (an exception, or the early-stop break followed by the closing line) with exactly the outcome of `fit` from that epoch, or the rest of the run from the next epoch has the same outcome as the run from this one |
| Training.Trainer.FitEnd | kl/deepnet/trainer/trainer.py:249-250 | once the epochs are exhausted, only the closing line is added, and `fit` returns without an exception |
| Training.Trainer.Fit | kl/deepnet/trainer/trainer.py:218-250 | the final world and error are those of `RunFrom` from the current epoch, so `RunRecords`, `StopAfterSave`, `NoCheckpointNoFiles` and `QuietRun` hold of every call |

## Left out

- Floating point. Scores, losses and accuracies are `real`, and
  `'{:.4f}'.format` and `str(float)` are parameters (`FloatFormat`). The
  rounding and the digits they produce are not modelled.
- Files and torch serialisation. `mkdir`, `glob`, `tc.save`/`tc.load`,
  `os.remove`, and `json.dump` with its indentation and encoding are not
  modelled:
  - the checkpoint directory is a map from file stem to blob, and
    `listing` is what `glob('*.pth')` yields;
  - a path given to `load` is a stem of that directory;
  - `summary.json` is the last log written.
- `int()` also accepts surrounding whitespace and `_` between digits.
  `ParseInt` accepts only an optional sign followed by ASCII digits, so such
  stems raise ValueError in the model.
- PyBase.ParseInt: rejects non-ASCII decimal digits (such as the fullwidth
  '３'), which Python's `int()` accepts; a stem made of them raises
  ValueError in the model but not in the code.
- PyBase.Title: covers ASCII letters only. `str.title()` applies Unicode
  case mapping and treats every cased character as a letter, so a column
  name with non-ASCII letters may be title-cased differently.
- App.Sample: takes a finite sequence. `sample` iterates any iterable,
  including an unbounded generator, which it leaves only through the
  `idx >= n` break; the model does not cover infinite or lazy iterables.
- Time. `time.time()`, the batch durations in the progress line and the
  date-named output folder are not modelled. A printed line is a `Message`
  without its float fields.
- Console output from the early-stop controller's `verbose` prints is not
  modelled: it has no effect on state.
- The device and `predict`. `.to(device)`, `tc.no_grad` and the tensors are
  not modelled. A `predict` call is a trace entry.
- Training.Trainer.Fit: the component states that checkpoints snapshot
  are the states given at construction. Their change through training is
  not modelled, because the optimizer and network are opaque.
- Exceptions raised inside the network, loss, optimizer, metric or loader
  are not modelled. The model raises only the exceptions the trainer's own
  code raises.
- A loader yields exactly `len(loader)` batches.
- The TensorBoard `SummaryWriter` is the list of events it receives. Its
  flushing, closing and file format are not modelled.
- Python's `bool` is an `int` subclass. Values are ints, floats, strs or
  None, so the `isinstance(value, int)` case of a bool is not modelled.
- The corrected `get_text` (`Summary.IntendedText`) is not called anywhere
  else: no other modelled code renders text.
  `Summary.SummaryManager.GetText` keeps the code as written.
- Training.WithIntendedMonitor: the corrected default monitor is stated
  beside the trainer, not built into it. `Trainer.Create` and `Aim` keep
  the default 'loss' as written.

## Findings

| source | as written | input that shows it | evidently intended | confidence | as-written member | corrected member |
|---|---|---|---|---|---|---|
| kl/deepnet/trainer/summary_manager.py:103-112 | a present value that is neither int nor float assigns no `text`: as the first present column it raises UnboundLocalError, later it re-appends the previous segment | any record the trainer stores, read with the default columns: 'mode' holds the str 'train' or 'test' and is the first column; the record `{'epoch': 1, 'mode': 'x'}` with columns `['epoch', 'mode']` gives `Epoch:1 Epoch:1` | one `Title:value` segment per present column, a str shown as itself | high; not executed | Summary.ModeColumnFails, Summary.DuplicatedSegment | Summary.IntendedText, Summary.IntendedAgrees |
| kl/deepnet/trainer/trainer.py:110 | with early stopping on, the monitored field defaults to 'loss'; a test record's loss is None (line 188), and `update` compares it with a float (`kl/deepnet/trainer/early_stop.py:37`), raising TypeError | `earlyStop_config={}` (a dict without 'object') with non-empty loaders: `fit` raises TypeError in epoch 1, after storing its two records | by default, monitor a field every test record holds, such as 'accuracy', which `score > best_score` treats as better when higher | medium; not executed | Training.DefaultMonitorFails | Training.WithIntendedMonitor, Training.IntendedMonitorEpoch |
