# nncore core, modelled in Dafny

This project models the sequential core of **nncore**, a small PyTorch
training framework, and proves properties of that model. It has four parts:

- **The metric buffer** (`nncore/engine/buffer.py`, module `MetricBuffer`).
  It is a FIFO of `(value, iteration)` pairs capped at `max_length`. It also
  keeps a running mean over every value ever pushed, evicted ones included.
  The class `MetricBuffer.Buffer` has the source's fields (`data`, `count`,
  `globalAvg`) and one ghost field, `history`, holding every pushed pair.
  Its invariant `Valid()` ties each field to `history`: `data` is the
  retained suffix and `globalAvg` is the exact mean of all pushed values.
  Values are exact `real`s.
- **The engine** (`nncore/engine/engine.py`, modules `Schedule`, `Hooks`
  and `Engine`). The class `Engine.Engine` holds the counters `stage`,
  `epoch` and `iter`, the ordered hook registry and the optimizer. The
  collaborators are abstracted away:
  - the training loader is a batch count;
  - the validation loader is an optional batch count;
  - the model is a fixed function from (mode, epoch, batch) to an ordered
    output dict of `real`s;
  - every hook callback appends `(hook name, event, counters)` to a ghost
    trace, and every buffer write is appended to a log.

  `run_stage` and `launch` are methods with `while` loops. They are proved
  against reference functions: `LoopEnd`, `StageCalls` and `LaunchRun`
  give the exact epoch at which a stage loop exits and the exact hook trace
  and log a run produces. `epoch_in_stage` and `iter_in_stage` are pure
  functions (`Schedule.EpochInStage`, `Engine.Engine.IterInStage`);
  `iter_in_epoch` is `Engine.Engine.IterInEpoch`.
- **The optimizer hooks** (`nncore/engine/hooks/optimizer.py`, module
  `OptimizerHooks`). `after_train_iter` of `OptimizerHook` and of
  `DistOptimizerHook` is modelled as the ordered list of opaque calls it
  makes: zero_grad, backward, the all-reduces, the clip and step. Type
  bucketing in `_allreduce_coalesced` is a stable group-by on the tensor
  type, proved to be an order-preserving partition.
- **The list and dict utilities** (`nncore/utils/misc.py`, module `Misc`):
  - `is_seq_of`, `is_list_of` and `is_tuple_of`, over a tagged Python value
    type;
  - `slice_list` with Python's slicing, and `concat_list`;
  - `to_dict_of_list` and `to_list_of_dict`, over maps.

The model follows the code where the code and its description differ:

- The buffer is one series, as in `buffer.py`, not one series per metric
  key. There is no `pop`.
- `latest()` on an empty buffer fails with the `IndexError` that
  `self._data[-1]` raises.
- `run_stage` validates after a training epoch exactly when
  `val_interval > 0` and `epoch_in_stage % val_interval == 0`. A stage that
  asks to validate without a validation loader fails, as the
  `data_loaders['val']` lookup does (`MissingValLoader`).

Behaviour of the code that the model keeps and proves:

- `epoch_in_stage` is computed from the global epoch alone. It can
  therefore run a stage longer than its epoch count:
  - `Schedule.TwoThreeSchedule`: with stages of 2 and 3 epochs, stage 0
    trains 4 epochs;
  - `Schedule.ThreeOneScheduleDiverges` and
    `Engine.ThreeOneLaunchDiverges`: with stages of 3 and 1 epochs, the
    loop of stage 0 never ends.
- `register_hook` with an unknown `before` still registers the hook at the
  end, and has already called `on_register`, before it raises.
- `slice_list` does not reject negative lengths: pieces then overlap
  (`Misc.NegativeLengthsOverlap`).
- `to_list_of_dict` loops over the number of keys, not over list
  positions. With two or more keys, indexing `dict.values()` raises
  `TypeError`.

Three pieces model intent rather than the code:

- `register_hook` reorders by calling `move_to_end()` on each hook value
  (`engine.py:106-107`). The model applies `OrderedDict.move_to_end(key)`
  to each key of `keys[idx:-1]` instead, as the docstring at
  `engine.py:83-86` describes. Then the new hook lands immediately before
  `before`.
- `Engine.__init__` builds `Buffer(max_size=buffer_size)` (`engine.py:37`),
  but `Buffer.__init__` takes `max_length` (`buffer.py:12`). In the source
  the constructor therefore raises `TypeError`, after the hooks are
  registered. The model constructs the engine.
- `train_iter` and `val_iter` call `self.buffer.update(key, output[key])`
  (`engine.py:134`, `engine.py:146`), which passes the key as `value`. The
  running mean `value - self._global_avg` (`buffer.py:37`) then raises
  `TypeError` on the first output entry. The model records the writes in an
  append log and fires the `after_*_iter` hooks.

## Model

| member | source | states |
|---|---|---|
| MetricBuffer.Buffer.constructor | nncore/engine/buffer.py:12-22 | An empty buffer with the given `max_length`: no pairs, count 0, global mean 0, and the invariant holds. |
| MetricBuffer.Buffer.Update | nncore/engine/buffer.py:24-37 | Fails exactly when `max_length == 0`, and then changes nothing. Otherwise: count rises by 1; the pair `(value, iteration, or the number of earlier updates)` is pushed; when the buffer is full the oldest pair is dropped and the new one appended last; the invariant (retained suffix, exact global mean) is kept. |
| MetricBuffer.RetainedStep | nncore/engine/buffer.py:32-34 | Pushing one pair onto the history drops the oldest retained pair exactly when `max_length` pairs were retained, and appends the new pair. |
| MetricBuffer.RunningMeanStep | nncore/engine/buffer.py:36-37 | The incremental update `avg += (v - avg) / count` yields the exact mean of the extended history. |
| MetricBuffer.IncrementalMean | nncore/engine/buffer.py:37 | The algebra behind the running-mean step: the previous mean plus the scaled difference is the new total over the new count. |
| MetricBuffer.SumAppend | nncore/engine/buffer.py:36-37 | The sum of a list extended by one value is the old sum plus that value. |
| MetricBuffer.ValuesOfAppend | nncore/engine/buffer.py:34 | The values of the extended pair list are the old values plus the new value. |
| MetricBuffer.ValuesOf | nncore/engine/buffer.py:49 | `[x[0] for x in pairs]`: same length, and element i is the value of pair i. |
| MetricBuffer.LastN | nncore/engine/buffer.py:32-34 | The last `min(len, n)` elements. |
| MetricBuffer.PySuffix | nncore/engine/buffer.py:49 | Python's `s[-w:]`: the last `w` elements for `w >= 1`, the whole list for `w == 0`, and `s[-w:]` from the front for `w < 0`. |
| MetricBuffer.Buffer.Latest | nncore/engine/buffer.py:39-43 | Succeeds exactly when some update happened, and then returns the value of the most recent update. |
| MetricBuffer.Buffer.Window | nncore/engine/buffer.py:49-55 | For `w >= 1`, the values of the last `min(w, len)` retained pairs in order; for `w == 0`, all retained values; for `w < 0`, the values after the first `-w` retained pairs, in order, or none. |
| MetricBuffer.Buffer.Avg | nncore/engine/buffer.py:51-55 | Defined exactly when the window is non-empty, and then its value times the window length equals the window's sum. |
| MetricBuffer.Mean | nncore/engine/buffer.py:55 | The mean of a non-empty list: the result times the length is the sum. |
| MetricBuffer.Buffer.MedianOf | nncore/engine/buffer.py:45-49 | Defined exactly when the window is non-empty, and then lies between two values of that window. |
| MetricBuffer.Median | nncore/engine/buffer.py:49 | The median of a non-empty list lies between its sorted minimum and maximum, and between two of its elements. |
| MetricBuffer.SortReals | nncore/engine/buffer.py:49 | The result is sorted and a permutation of the input. |
| MetricBuffer.InsertSorted | nncore/engine/buffer.py:49 | Inserting into a sorted list adds exactly one element. |
| MetricBuffer.InsertSortedSpec | nncore/engine/buffer.py:49 | Inserting into a sorted list keeps it sorted, and its multiset gains exactly the new value. |
| MetricBuffer.InsertSortedSorted | nncore/engine/buffer.py:49 | Insertion keeps the list sorted, and the new head is either the inserted value or the old head. |
| MetricBuffer.InsertSortedPerm | nncore/engine/buffer.py:49 | Insertion adds exactly the inserted value to the multiset. |
| MetricBuffer.FrontSorted | nncore/engine/buffer.py:49 | Putting a value no larger than the head in front of a sorted list keeps it sorted. |
| MetricBuffer.Buffer.GlobalAvg | nncore/engine/buffer.py:57-62 | After at least one update, the sum of every value ever pushed (evicted ones included) divided by the count; 0 before any update. |
| MetricBuffer.Buffer.Values | nncore/engine/buffer.py:64-69 | For `max_length >= 1`, exactly the last `min(count, max_length)` pushed pairs in push order, so never more than `max_length`. For `max_length < 0`, every pushed pair. |
| Schedule.TimesIsMul | nncore/engine/engine.py:68 | The repeated-addition product used for the counters equals `n * k`. |
| Schedule.TimesAdd | nncore/engine/engine.py:54-59 | The repeated-addition product distributes over a sum of epoch counts. |
| Schedule.CumEpochsMonotone | nncore/engine/engine.py:47-51 | The cumulative epoch count of the first i stages never exceeds that of the first j stages when i <= j. |
| Schedule.ScanWithinStage | nncore/engine/engine.py:47-51 | The cumsum scan, started at any stage up to stage t, returns `epoch - cumsum(t)` when the epoch falls inside stage t. |
| Schedule.ScanPastEnd | nncore/engine/engine.py:47-52 | The scan returns the last stage's epoch count when the epoch is at or past the total. |
| Schedule.EpochInStage | nncore/engine/engine.py:45-52 | `epoch_in_stage`: scanning the cumulative epoch counts, `epoch` minus the epochs of the stages before the first stage whose cumulative end exceeds `epoch`, or `stages[-1].epochs` when there is none. Its properties are stated by the three lemmas below. |
| Schedule.EpochInStageWithin | nncore/engine/engine.py:45-52 | For an epoch inside stage t, `epoch_in_stage` is `epoch` minus the epochs of the stages before t, and lies below stage t's epoch count. |
| Schedule.EpochInStagePast | nncore/engine/engine.py:52 | At or past the total epoch count, `epoch_in_stage` is `stages[-1].epochs`. |
| Schedule.EpochInStageConstantPast | nncore/engine/engine.py:52 | Past the total epoch count, `epoch_in_stage` no longer changes. |
| Schedule.StageOfEpochBelow | nncore/engine/engine.py:47-51 | An epoch below the cumulative count of the first k stages falls inside one of those stages. |
| Schedule.StageOfEpoch | nncore/engine/engine.py:47-51 | Every epoch below the total falls inside some stage. |
| Schedule.StageOfEpochUnique | nncore/engine/engine.py:47-51 | That stage is unique. |
| Schedule.LoopEnd | nncore/engine/engine.py:183-186 | When the loop of stage s, entered at a given epoch, ends, it ends at a later or equal epoch whose `epoch_in_stage` reaches the stage's epoch count. |
| Schedule.LoopEndSpec | nncore/engine/engine.py:183 | Every epoch before that exit keeps the loop going; when there is no exit, every epoch from the entry on keeps it going, so the source loop never ends. |
| Schedule.LoopEndStep | nncore/engine/engine.py:183-184 | One more loop pass from an epoch that keeps the loop going leads to the same exit. |
| Schedule.KeptGoingLoopEnd | nncore/engine/engine.py:183-184 | Any number of passes over epochs that keep the loop going lead to the same exit. |
| Schedule.ExitPastStage | nncore/engine/engine.py:46-52 | A loop that exits at or after the start of stage s exits at or after the end of stage s. |
| Schedule.SingleStageLoopEnd | nncore/engine/engine.py:183-186 | In a single-stage schedule, the loop entered at epoch e <= E exits at exactly E. |
| Schedule.StageIterOffsetIsCum | nncore/engine/engine.py:54-59 | The cumsum loop of `iter_in_stage` subtracts `N` times the epochs of the earlier stages. |
| Schedule.TwoThreeSchedule | nncore/engine/engine.py:45-52 | With stages of 2 and 3 epochs, stage 0 runs to epoch 4 and stage 1 then to epoch 5. |
| Schedule.ThreeOneScheduleDiverges | nncore/engine/engine.py:45-52 | With stages of 3 and 1 epochs, the loop of stage 0 has no exit. |
| Hooks.UniqueAt | nncore/engine/engine.py:94-98 | Distinct positions of the registry hold distinct names, since an OrderedDict has unique keys. |
| Hooks.UniqueTail | nncore/engine/engine.py:94-98 | Dropping the first hook keeps the names unique. |
| Hooks.IndexOf | nncore/engine/engine.py:105 | `keys.index(before)`: a position holding the name, with no earlier position holding it. |
| Hooks.IndexOfAt | nncore/engine/engine.py:105 | The first position holding a name is the index that `keys.index` returns. |
| Hooks.MoveToEnd | nncore/engine/engine.py:107 | `move_to_end(key)` keeps the length and puts that key last. |
| Hooks.WithoutAbsent | nncore/engine/engine.py:94-98 | Removing a name that no hook has changes nothing. |
| Hooks.MoveToEndStep | nncore/engine/engine.py:104-107 | One pass of the move-to-end loop, applied to a partly rotated registry, rotates it one key further. |
| Hooks.MovedIs | nncore/engine/engine.py:104-107 | After moving `keys[idx..i-1]` to the end in order, the registry is `keys[..idx] + keys[i..] + keys[idx..i]`. |
| Hooks.MovedNext | nncore/engine/engine.py:106-107 | Moving the next key to the end advances the rotation by one key. |
| Hooks.MovedEnd | nncore/engine/engine.py:104-107 | After the whole loop, the last key (the new hook) stands at index `idx` and the keys from `idx` on follow it in their old order. |
| Hooks.AppendUnique | nncore/engine/engine.py:94-98 | Appending a hook whose name is not registered keeps the names unique. |
| Hooks.InsertBeforeSpec | nncore/engine/engine.py:98-107 | Inserting before `before` puts the new hook immediately before it. Removing the new hook gives back the old registry, so every other hook keeps its relative order, and names stay unique. |
| Hooks.WithoutInsert | nncore/engine/engine.py:98-107 | Removing the inserted hook from the registry gives back the registry before the insertion. |
| Hooks.InsertAtUnique | nncore/engine/engine.py:98-107 | Inserting an unregistered hook keeps the names unique. |
| Hooks.Dispatch | nncore/engine/engine.py:74-76 | One call per registered hook. |
| Hooks.DispatchAt | nncore/engine/engine.py:74-76 | Call i goes to hook i of the registry, with the event and the counters at dispatch time. |
| Hooks.ReceivedConcat | nncore/engine/engine.py:74-76 | The number of calls a hook receives from two traces in sequence is the sum of the two. |
| Hooks.DispatchMissing | nncore/engine/engine.py:74-76 | A hook not in the registry, or an event other than the dispatched one, receives no call. |
| Hooks.DispatchOnce | nncore/engine/engine.py:74-76 | With unique names, each registered hook receives the dispatched event exactly once and no other event. |
| Engine.Engine.constructor | nncore/engine/engine.py:16-39 | Following the evident intent where the source raises at `engine.py:37`: an engine with no hooks, an empty trace and log, no optimizer and all counters 0, satisfying the invariant. |
| Engine.Engine.FlushStates | nncore/engine/engine.py:65-72 | `max_stages = len(stages)`, `max_epochs` the total epoch count, `max_iters = N * max_epochs`, and `start_iter`, `stage`, `epoch` and `iter` all 0. |
| Engine.Engine.IterInStage | nncore/engine/engine.py:54-59 | `iter - N * (epochs of the stages before the current one)`, never negative while the counters are on schedule. |
| Engine.Engine.IterInEpoch | nncore/engine/engine.py:62-63 | `iter - N * epoch` lies in `0 .. N` while the counters are on schedule, and is 0 at an epoch boundary of the schedule. |
| Engine.Engine.CallHook | nncore/engine/engine.py:74-76 | The trace grows by one call per registered hook, in registry order, for the event. |
| Engine.DispatchSnoc | nncore/engine/engine.py:74-76 | Dispatching to a registry with one more hook at the end adds exactly that hook's call at the end. |
| Engine.HooksOf | nncore/engine/engine.py:88-92 | The hook built from each argument, in order. |
| Engine.Register | nncore/engine/engine.py:78-107 | `register_hook` on values: the new registry, the `on_register` calls and the error. No call is made only when an error is raised, and then the registry is unchanged; at most one `on_register` call is made. The full case split is stated by `Engine.RegisterSpec`. |
| Engine.RegisterSpec | nncore/engine/engine.py:78-107 | A non-hook raises TypeError and a taken name raises ValueError, both changing nothing. Otherwise `on_register` fires once and the hook is added, names staying unique. Without `before` it is appended. With an unknown `before`, ValueError is raised after the hook is appended. With a known one, the hook lands immediately before it. |
| Engine.RegisterPlain | nncore/engine/engine.py:94-98 | A registration without `before` that succeeds appends the hook and makes a single `on_register` call. |
| Engine.AppendedNotFound | nncore/engine/engine.py:100-102 | A `before` missing after the append was also missing before it, and is not the new hook's name. |
| Engine.PlacedBefore | nncore/engine/engine.py:98-107 | The result of the move-to-end loop is the old registry with the new hook inserted at the index of `before`. |
| Engine.Engine.RegisterHook | nncore/engine/engine.py:78-107 | The registry, trace and error are exactly those of the registration specification, and the invariant is kept. |
| Engine.Engine.MoveKeysToEnd | nncore/engine/engine.py:104-107 | After moving every key of `keys[idx:-1]` to the end, the last key stands at `idx` and the others keep their order. |
| Engine.RegisterAllSpec | nncore/engine/engine.py:32-35 | Registering a list of hooks succeeds iff all are hooks with names unique together with the registry, and then appends them in order. On failure, the registry holds the hooks before the first failing one. |
| Engine.RegisterAllUnique | nncore/engine/engine.py:32-35 | Registering a list of hooks keeps the names unique. |
| Engine.RegisterAllSuccess | nncore/engine/engine.py:32-35 | The success condition and the result of registering a list. |
| Engine.RegisterAllFailure | nncore/engine/engine.py:32-35 | On failure there is a first failing argument: everything before it was registered, in order, and the error is that argument's. |
| Engine.RegisterAllStep | nncore/engine/engine.py:33-35 | The loop over the hooks stops at the first failing registration and otherwise continues from the updated registry. |
| Engine.DuplicateName | nncore/engine/engine.py:94-95 | A list containing an already registered name is not unique together with the registry. |
| Engine.Engine.RegisterHooks | nncore/engine/engine.py:32-35 | The registry, trace and error are exactly those of registering the list in order, and the invariant is kept. |
| Engine.ResolveOptimizer | nncore/engine/engine.py:109-123 | A dict config builds an optimizer. An object is used iff it has both `zero_grad` and `step`. Anything else raises TypeError. |
| Engine.Engine.BuildOptimizer | nncore/engine/engine.py:109-123 | Installs the resolved optimizer, or raises TypeError and keeps the old one. |
| Engine.LossEntriesGet | nncore/engine/engine.py:130 | The loss dict holds exactly the output keys containing "loss", with their output values. |
| Engine.LossEntriesDistinct | nncore/engine/engine.py:130 | Its keys are distinct and all come from the output. |
| Engine.GetNone | nncore/engine/engine.py:130-131 | A key absent from every entry is not found. |
| Engine.GetIndex | nncore/engine/engine.py:130-131 | A key that is found is the key of some entry, and its value is that entry's. |
| Engine.GetHas | nncore/engine/engine.py:130-131 | Every entry's key is found. |
| Engine.GetInRest | nncore/engine/engine.py:130-131 | With distinct keys, a key found after the first entry is not the first entry's key. |
| Engine.UpsertGet | nncore/engine/engine.py:131 | After `d[k] = v`, k maps to v and every other key is unchanged. |
| Engine.UpsertDistinct | nncore/engine/engine.py:131 | Assigning a key keeps the keys distinct and adds at most that key. |
| Engine.Losses | nncore/engine/engine.py:130-131 | The output entries whose keys contain "loss", with "loss" set to their sum. |
| Engine.LossesSpec | nncore/engine/engine.py:130-131 | `losses["loss"]` is the sum of the output values whose keys contain "loss". Every other key is present iff it contains "loss", with its output value. Keys stay distinct. |
| Engine.LossKeyIsSummed | nncore/engine/engine.py:130-131 | An output with `loss`, `cls_loss` and `acc` gives losses of `loss = 1 + 2` and `cls_loss`, with `acc` dropped. |
| Engine.Engine.TrainIter | nncore/engine/engine.py:125-137 | Following the evident intent where the source's buffer write raises: the `before_train_iter` hooks fire, then `after_train_iter`, both at the entry counters. The losses are those of the batch's output, every output entry is logged, and `iter` rises by exactly 1. |
| Engine.Engine.ValIter | nncore/engine/engine.py:139-148 | Following the evident intent where the source's buffer write raises: the `before_val_iter` then `after_val_iter` hooks fire and the output is logged. The counters do not change. |
| Engine.TrainIterCallsCount | nncore/engine/engine.py:125-137 | Over N training iterations, each hook receives `before_train_iter` and `after_train_iter` N times each and no other event. |
| Engine.TrainEpochCallsCount | nncore/engine/engine.py:150-160 | Over a training epoch, each hook receives `before_train_epoch` and `after_train_epoch` once, the iteration events N times, and nothing else. |
| Engine.TrainIterClock | nncore/engine/engine.py:125-137 | Every call of an epoch's iterations sees the stage and epoch of that epoch and an `iter` inside the epoch's N iterations. |
| Engine.Engine.TrainEpoch | nncore/engine/engine.py:150-160 | `before_train_epoch`, then N iteration pairs, then `after_train_epoch`. `epoch` rises by 1 and `iter` by N. The losses are those of the last batch. |
| Engine.Engine.TrainBatches | nncore/engine/engine.py:156-157 | The loop over the N batches: N iteration pairs at increasing `iter`, each batch's output logged in order, and `iter` raised by N. |
| Engine.Engine.ValEpoch | nncore/engine/engine.py:162-175 | Fails, changing nothing, exactly when there is no validation loader. Otherwise `before_val_epoch`, then M iteration pairs, then `after_val_epoch`, all at unchanged counters. |
| Engine.ValIterNoStageEvents | nncore/engine/engine.py:139-148 | Validation iterations never fire `before_stage`. |
| Engine.TrainIterNoStageEvents | nncore/engine/engine.py:125-137 | Training iterations never fire `before_stage`. |
| Engine.TrainEpochNoStageEvents | nncore/engine/engine.py:150-160 | A training epoch never fires `before_stage`. |
| Engine.ValEpochNoStageEvents | nncore/engine/engine.py:162-175 | A validation epoch never fires `before_stage`. |
| Engine.EpochNoStageEvents | nncore/engine/engine.py:184-186 | One pass of the stage loop never fires `before_stage`. |
| Engine.StageLoopNoStageEvents | nncore/engine/engine.py:183-186 | No number of passes of the stage loop fires `before_stage`. |
| Engine.Engine.StageEpoch | nncore/engine/engine.py:184-186 | One loop pass: a training epoch, then a validation epoch exactly when `val_interval > 0` and the new `epoch_in_stage` is a multiple of it. It fails exactly when validation is due and there is no validation loader, and then the training epoch's hooks, writes, `epoch + 1` and `iter + N` stand. |
| Engine.EpochWithValidation | nncore/engine/engine.py:184-186 | A training epoch followed by a validation epoch, when validation is due, is one loop pass. |
| Engine.EpochWithoutValidation | nncore/engine/engine.py:184-185 | A training epoch alone, when validation is not due, is one loop pass. |
| Engine.StageLoopStep | nncore/engine/engine.py:183-186 | The trace and log of k passes followed by one more pass are those of k + 1 passes. |
| Engine.Engine.LoopPass | nncore/engine/engine.py:183-186 | A pass inside the loop keeps the loop's trace and log invariant, and `iter` advances by N per epoch. A pass that raises leaves the earlier passes and its own training epoch in the trace and log. |
| Engine.Engine.RaisingPass | nncore/engine/engine.py:184-186 | A pass whose validation is due without a loader raises KeyError after its training epoch, leaving the state the loop-raised description gives. |
| Engine.RaisedLoopStep | nncore/engine/engine.py:183-186 | Passes that kept the loop going, followed by a training epoch whose validation is due without a loader, are the raised loop's trace, log and counters. |
| Engine.Engine.StageLoop | nncore/engine/engine.py:183-186 | Every pass taken kept the loop going. A finished loop has `epoch_in_stage` at or past the stage's epoch count. The trace and log are those of the passes taken; on a KeyError they also hold the failing pass's training epoch, with `epoch` and `iter` past it. |
| Engine.Engine.StageLoopExit | nncore/engine/engine.py:183-186 | A finished loop ends exactly at `LoopEnd`. It finishes whenever that exit is within the fuel and no validation is due without a loader. A KeyError leaves the raised-loop state. Counters aligned with the schedule on entry stay aligned. |
| Engine.Engine.RunStage | nncore/engine/engine.py:177-189 | A stage past the end raises IndexError at the first `cur_stage` lookup, which comes after `before_stage` when the optimizer is not rebuilt. The optimizer is rebuilt iff `epoch_in_stage == 0` on entry, and a TypeError from it changes nothing else. A finished stage ends exactly at `LoopEnd`, with `stage` raised by exactly 1, the trace `before_stage`, loop passes, `after_stage`, and every output logged. A KeyError from a validation epoch leaves `before_stage`, the earlier passes and the failing pass's training epoch. Aligned counters stay aligned. |
| Engine.Engine.StageBody | nncore/engine/engine.py:180-189 | The part of `run_stage` after the optimizer decision, with the same outcome cases, the KeyError state included. |
| Engine.Engine.StageRest | nncore/engine/engine.py:182-189 | The loop and `after_stage` for a valid stage, after `before_stage`; a KeyError leaves the raised-loop state. |
| Engine.Engine.EndStage | nncore/engine/engine.py:188-189 | `after_stage` fires at the exit counters and `stage` rises by 1, completing the stage trace. Counters aligned on entry to the stage are aligned with the next stage. |
| Engine.StageSplit | nncore/engine/engine.py:180-188 | `before_stage`, the loop passes and `after_stage` together are the stage's trace. |
| Engine.Engine.StageStep | nncore/engine/engine.py:177-189 | The stage outcome a `launch` iteration relies on: a finished stage matches the reference, a stage that can complete does and leaves the rest able to complete, and a stage that stops leaves one of the stopped states (out of fuel, TypeError with nothing done, KeyError after a training epoch). |
| Engine.Engine.StagesStep | nncore/engine/engine.py:196-197 | One pass of the launch loop: a finished stage extends the stages entered so far by one, and a stopped one leaves the stopped state of the stage reached. |
| Engine.Engine.RunStages | nncore/engine/engine.py:196-197 | A finished launch loop ends with `stage == max_stages`, in the reference run's final state. A loop that stops does so in a stage reached by running every stage before it to its end, in that stage's stopped state. |
| Engine.Engine.Launch | nncore/engine/engine.py:191-199 | `before_launch` fires first and `after_launch` last, with the stage runs of the reference in between. A launch that returns has `stage == max_stages`. A launch that raises does so in a stage reached by running the stages before it to their end, in that stage's raised state, with no `after_launch`. From fresh counters `iter_in_stage >= 0` and `iter_in_epoch == 0` at the end, and every hook call of a launch from counters on the schedule sees counters on the schedule. A single stage of E epochs ends with `epoch == E` and `iter` raised by `N * E`. |
| Engine.Engine.RunLaunch | nncore/engine/engine.py:193-199 | The hooks and the stage loop of `launch`, with the same outcomes, and with every call on the schedule from aligned counters. |
| Engine.EntersStageUnique | nncore/engine/engine.py:196-197 | The launch loop's state on entering a stage is determined by the starting state. |
| Engine.EntersStageNext | nncore/engine/engine.py:196-197 | When the stage entered exits at `LoopEnd`, the state on entering the next stage is that stage's run added to it. |
| Engine.EntersStageFrom | nncore/engine/engine.py:196-197 | The accumulating reference run from the start equals the one from any stage the loop enters. |
| Engine.OnScheduleCounters | nncore/engine/engine.py:55-63 | Counters on the schedule have `N * (epochs before the stage) <= N * epoch <= iter <= N * epoch + N`, so `iter_in_stage >= 0` and `0 <= iter_in_epoch <= N`. |
| Engine.AlignedAdvance | nncore/engine/engine.py:156-160 | Counters aligned at an epoch boundary stay aligned after any number of training epochs of the same stage. |
| Engine.AlignedNextStage | nncore/engine/engine.py:183-189 | A stage that leaves its loop hands aligned counters to the next stage. |
| Engine.OnScheduleAppend | nncore/engine/engine.py:74-76 | Appending calls that are all on the schedule keeps a trace on the schedule from any position. |
| Engine.DispatchOnSchedule | nncore/engine/engine.py:74-76 | A dispatch at counters on the schedule adds calls on the schedule only. |
| Engine.TrainIterOnSchedule | nncore/engine/engine.py:156-157 | The iteration calls of an epoch entered with aligned counters are on the schedule. |
| Engine.TrainEpochOnSchedule | nncore/engine/engine.py:150-160 | Every call of a training epoch entered with aligned counters is on the schedule. |
| Engine.ValEpochOnSchedule | nncore/engine/engine.py:162-175 | Every call of a validation epoch at counters on the schedule is on the schedule. |
| Engine.EpochOnSchedule | nncore/engine/engine.py:184-186 | Every call of one loop pass entered with aligned counters is on the schedule. |
| Engine.StageLoopOnSchedule | nncore/engine/engine.py:183-186 | Every call of the passes of a stage loop entered with aligned counters is on the schedule. |
| Engine.StageLoopOnScheduleStep | nncore/engine/engine.py:183-186 | One more pass, entered with aligned counters, keeps the loop's calls on the schedule. |
| Engine.StageOnSchedule | nncore/engine/engine.py:180-188 | Every call of a stage run entered with aligned counters is on the schedule. |
| Engine.LaunchRunOnSchedule | nncore/engine/engine.py:196-197 | Every call of the reference run from aligned counters is on the schedule. |
| Engine.LaunchRunOnScheduleStep | nncore/engine/engine.py:196-197 | A stage run from aligned counters followed by a rest on the schedule gives a run on the schedule. |
| Engine.EntersStageOnSchedule | nncore/engine/engine.py:196-197 | The stages the launch loop ran from aligned counters added calls on the schedule only, and left the counters aligned. |
| Engine.StoppedLaunchOnSchedule | nncore/engine/engine.py:191-197 | A launch loop that stopped, run from aligned counters, added calls on the schedule only. |
| Engine.StoppedOnSchedule | nncore/engine/engine.py:177-189 | A stage that stopped from aligned counters (out of fuel, TypeError, KeyError) added calls on the schedule only. |
| Engine.LaunchRun | nncore/engine/engine.py:191-199 | The `launch` loop when nothing raises: each remaining stage's hook calls and buffer writes up to the exit of its loop, then those of the stages after it; None when some stage's loop never exits. Its properties are stated by the `LaunchRun*` lemmas. |
| Engine.LaunchRunStep | nncore/engine/engine.py:196-197 | The reference run from stage s is that stage's trace and log, followed by the run from stage s + 1 at the exit counters. |
| Engine.LaunchRunSplit | nncore/engine/engine.py:196-197 | A run that ends splits into the first stage, which ends at `LoopEnd`, and a rest that ends too. |
| Engine.LaunchFromStep | nncore/engine/engine.py:196-197 | When stage s exits at e1, the run from stage s is the run from stage s + 1 at e1, with the stage's calls and writes added to the accumulated trace and log. |
| Engine.LaunchFromRun | nncore/engine/engine.py:196-197 | The accumulating reference is the prefix followed by the reference run. |
| Engine.PrependAssoc | nncore/engine/engine.py:196-197 | Prefixing two stage traces in turn is prefixing their concatenation. |
| Engine.LaunchStagesOnce | nncore/engine/engine.py:177-199 | In a run that ends, each registered hook receives `before_stage` exactly once per remaining stage. |
| Engine.StageCallsOnce | nncore/engine/engine.py:180-188 | Each stage fires `before_stage` to each registered hook exactly once. |
| Engine.ReceivedSum | nncore/engine/engine.py:74-76 | Call counts add over concatenated traces. |
| Engine.LaunchRunEnd | nncore/engine/engine.py:183-197 | The reference run ends iff its counters-only reference ends, with the same final epoch and iteration. |
| Engine.LaunchEndCounters | nncore/engine/engine.py:137-197 | The counters-only reference never lowers the epoch, and advances the iteration by N per epoch. |
| Engine.LaunchRunCounters | nncore/engine/engine.py:137-197 | A run that ends never lowers the epoch, and raises `iter` by exactly N per epoch trained. |
| Engine.CompletesHead | nncore/engine/engine.py:178-186 | A schedule that can complete has a first stage whose exit is within the fuel and whose optimizer resolves when needed, and its rest can complete. |
| Engine.SingleStageCompletes | nncore/engine/engine.py:177-199 | A single stage with enough fuel, a valid optimizer and no unmet validation completes. |
| Engine.SingleStageRun | nncore/engine/engine.py:177-199 | A single stage of E epochs runs to `epoch == E` and raises `iter` by `N * E`. |
| Engine.TwoThreeLaunch | nncore/engine/engine.py:177-199 | Stages of 2 and 3 epochs launch to epoch 5 and `5 * N` iterations. |
| Engine.ThreeOneLaunchDiverges | nncore/engine/engine.py:183-197 | Stages of 3 and 1 epochs give a launch that never returns. |
| OptimizerHooks.RequiringGrad | nncore/engine/hooks/optimizer.py:51-53 | The parameters passed to clipping are exactly those that require grad. |
| OptimizerHooks.AfterTrainIter | nncore/engine/hooks/optimizer.py:55-62 | A missing loss key fails after `zero_grad`. Otherwise the calls are `zero_grad`, `backward` on the stage's loss, an optional clip, then `step`. |
| OptimizerHooks.PlainCallsOrder | nncore/engine/hooks/optimizer.py:55-62 | `zero_grad` first, `backward` on the selected loss second and `step` last, each exactly once. The clip is present iff `grad_clip` is set, and then third, between backward and step, on the parameters that require grad. |
| OptimizerHooks.CountConcat | nncore/engine/hooks/optimizer.py:55-62 | Call counts add over concatenated call lists. |
| OptimizerHooks.NonReduceConcat | nncore/engine/hooks/optimizer.py:73-82 | Dropping the all-reduce calls distributes over concatenation. |
| OptimizerHooks.NonReduceKeeps | nncore/engine/hooks/optimizer.py:73-82 | A list with no all-reduce call is unchanged. |
| OptimizerHooks.NonReduceDrops | nncore/engine/hooks/optimizer.py:73-82 | A list of all-reduce calls vanishes. |
| OptimizerHooks.DistCallsOrder | nncore/engine/hooks/optimizer.py:73-82 | Without its all-reduces, the distributed hook makes exactly the plain hook's calls. The all-reduces come right after `backward`, and the clip and `step` follow them. |
| OptimizerHooks.DistCallsLayout | nncore/engine/hooks/optimizer.py:73-82 | The distributed call list is `zero_grad`, `backward`, the reduction calls, the optional clip, then `step`. |
| OptimizerHooks.DistCallsNonReduce | nncore/engine/hooks/optimizer.py:73-82 | Removing the all-reduces gives the plain hook's calls. |
| OptimizerHooks.GradsToReduce | nncore/engine/hooks/optimizer.py:36-39 | At most one gradient per parameter. |
| OptimizerHooks.GradsToReduceSpec | nncore/engine/hooks/optimizer.py:36-39 | A tensor is reduced iff it is the grad of a parameter that requires grad and has one. |
| OptimizerHooks.GradsToReduceInOrder | nncore/engine/hooks/optimizer.py:36-39 | When every parameter qualifies, every grad is reduced, in parameter order. |
| OptimizerHooks.GradsToReduceConcat | nncore/engine/hooks/optimizer.py:36-39 | The grads of two parameter lists in sequence are the grads of the first followed by those of the second, so parameter order is kept. |
| OptimizerHooks.GroupByType | nncore/engine/hooks/optimizer.py:17-24 | One bucket per distinct tensor type. |
| OptimizerHooks.BucketByType | nncore/engine/hooks/optimizer.py:17-24 | The bucketing loop builds exactly the stable group-by of the tensors on their type. |
| OptimizerHooks.OfTypeAbsent | nncore/engine/hooks/optimizer.py:21-23 | A type no tensor has gets an empty bucket. |
| OptimizerHooks.TypesOfSpec | nncore/engine/hooks/optimizer.py:19-23 | The bucket keys are exactly the tensor types, each once. |
| OptimizerHooks.FirstOf | nncore/engine/hooks/optimizer.py:19-22 | The first position of a tensor of a given type. |
| OptimizerHooks.TypesOfFirstOrder | nncore/engine/hooks/optimizer.py:18-24 | Buckets are ordered by the first appearance of their type. |
| OptimizerHooks.FirstOfAt | nncore/engine/hooks/optimizer.py:19-22 | A position with no earlier tensor of that type is the first one. |
| OptimizerHooks.FirstOfPrefix | nncore/engine/hooks/optimizer.py:19-22 | The first appearance of a type in a prefix is its first appearance in the whole list. |
| OptimizerHooks.GroupByTypePartition | nncore/engine/hooks/optimizer.py:17-24 | Every tensor lands in the bucket of its own type and in no bucket of another type. |
| OptimizerHooks.OfTypeHas | nncore/engine/hooks/optimizer.py:21-23 | Every tensor is in the bucket of its type. |
| OptimizerHooks.OfTypeOnly | nncore/engine/hooks/optimizer.py:21-23 | A bucket holds only tensors of its type, each from the input. |
| OptimizerHooks.AllreduceCoalesced | nncore/engine/hooks/optimizer.py:13-32 | One flattened all-reduce per bucket, in bucket order. The buckets come from size-based bucketing when `bucket_size_mb > 0`, and otherwise from grouping by type. |
| OptimizerHooks.AllreduceGrads | nncore/engine/hooks/optimizer.py:35-45 | The reduction calls are exactly those of the reduction specification. |
| OptimizerHooks.ReduceCallsSpec | nncore/engine/hooks/optimizer.py:35-45 | Every call is an all-reduce. Without `coalesce`, there is one per qualifying gradient, in order. With `coalesce` and `bucket_size_mb <= 0`, there is one per type bucket. |
| OptimizerHooks.DistOptimizerHook.constructor | nncore/engine/hooks/optimizer.py:68-71 | Stores `coalesce` and `bucket_size_mb`. |
| OptimizerHooks.DistOptimizerHook.AfterTrainIter | nncore/engine/hooks/optimizer.py:73-82 | A missing loss key fails after `zero_grad`. Otherwise the calls are `zero_grad`, `backward`, the reductions that `_allreduce_grads` makes, the optional clip, then `step`. |
| Misc.Items | nncore/utils/misc.py:72 | Iteration is defined exactly for strings, lists, tuples and dicts. |
| Misc.IsSeqOf | nncore/utils/misc.py:53-75 | True iff the value has the container type (`Sequence` by default) and every item has the expected type. A container that cannot be iterated raises TypeError. |
| Misc.IsListOf | nncore/utils/misc.py:78-84 | True iff the value is a list whose items all have the type; the empty list gives true. |
| Misc.IsTupleOf | nncore/utils/misc.py:87-93 | True iff the value is a tuple whose items all have the type; the empty tuple gives true. |
| Misc.PySlice | nncore/utils/misc.py:119 | Python's `s[i:j]`, which is the plain slice for in-range bounds. |
| Misc.Repeat | nncore/utils/misc.py:109 | `[n] * k`: k copies of n, empty when k <= 0. |
| Misc.SliceList | nncore/utils/misc.py:96-121 | An int 0 raises ZeroDivisionError, and an int that does not divide the length raises AssertionError. Anything but an int or a list raises TypeError. Lengths whose sum differs from the list length raise ValueError. Otherwise the result is the consecutive pieces. |
| Misc.CutPieces | nncore/utils/misc.py:116-121 | The output loop cuts exactly the consecutive pieces. |
| Misc.PiecesFromStep | nncore/utils/misc.py:118-120 | One loop iteration appends the next piece and advances `idx` by its length. |
| Misc.PieceLength | nncore/utils/misc.py:116-121 | With non-negative lengths that fit, there is one piece per length, and piece q has length `lens[q]`. |
| Misc.PiecesCount | nncore/utils/misc.py:118-120 | There is one piece per length. |
| Misc.SumNonNeg | nncore/utils/misc.py:112 | Non-negative lengths have a non-negative sum. |
| Misc.ConcatPiecesFrom | nncore/utils/misc.py:116-134 | Concatenating the pieces cut from `idx` gives `s[idx:idx + sum(lens)]`. |
| Misc.ConcatPieces | nncore/utils/misc.py:96-134 | When the non-negative lengths add up to the list length, `concat_list(slice_list(l, lens)) == l`. |
| Misc.SliceByInt | nncore/utils/misc.py:107-109 | An int n dividing the length gives `len / n` lengths of n, adding up to the length. |
| Misc.RepeatSum | nncore/utils/misc.py:109-112 | k copies of n add up to `n * k`. |
| Misc.NegativeLengthsOverlap | nncore/utils/misc.py:112-121 | Lengths `[2, -1, 2]` pass the sum check for a 3-element list and yield overlapping pieces, whose concatenation is not the list. |
| Misc.ConcatList | nncore/utils/misc.py:124-134 | `list(chain(*in_list))`: the sublists joined in order; the first sublist is a prefix of the result. |
| Misc.ConcatListLength | nncore/utils/misc.py:124-134 | The length of the concatenation is the sum of the sublist lengths. |
| Misc.ConcatListAppend | nncore/utils/misc.py:124-134 | Concatenation preserves order: concatenating two lists of lists is concatenating their concatenations. |
| Misc.Column | nncore/utils/misc.py:153 | `[item[key] for item in in_list]`: one entry per dict, entry i being dict i's value. |
| Misc.SameKeys | nncore/utils/misc.py:147-149 | When consecutive dicts agree on their keys, every dict has the first dict's keys. |
| Misc.ToDictOfList | nncore/utils/misc.py:137-155 | ValueError iff two consecutive dicts differ in their keys, and IndexError iff the list is empty. Otherwise the keys are the first dict's, each list has one entry per dict, and `out[k][i] == in_list[i][k]`. |
| Misc.Row | nncore/utils/misc.py:175 | `{k: v[i] for k, v in in_dict.items()}`: the same keys, each mapped to its list's entry i. |
| Misc.ToListOfDict | nncore/utils/misc.py:158-177 | TypeError iff there are two or more keys. Otherwise it succeeds iff every list has at least as many entries as there are keys, and then yields one row per key, row i mapping each key to entry i of its list. |
| Misc.ToListOfDictOneKey | nncore/utils/misc.py:168-177 | A one-key dict of a 3-element list yields a single row holding the first element. |

## Left out

- Torch, numpy and the filesystem. Tensors, `torch.no_grad`, `model.train()`/`eval()`, `ProgressBar`, `logger.info`, `get_host_info` and the `mkdir` in `__init__` are foreign calls with no effect on the modelled state.
- The model, the data loaders and the hooks' own behaviour. These are parameters: a fixed output function, batch counts, and hooks that only record each call in a ghost trace.
- The engine's buffer writes. In the source they raise: `engine.py:37` passes `max_size=`, which `buffer.py:12` does not accept, and `engine.py:134` and `engine.py:146` call `update(key, value)` against `buffer.py:24`'s `update(value, iteration)`, so `buffer.py:37` subtracts a number from a string key. The engine therefore keeps an append log of its writes and is not wired to `MetricBuffer.Buffer`.
- Engine.Engine.constructor: the source raises `TypeError` at `engine.py:37`, after registering the hooks, because `Buffer` takes `max_length` and not `max_size`. The model follows the evident intent and constructs the engine.
- Engine.Engine.constructor: the source registers the hooks (`engine.py:32-35`) before `flush_states` (`engine.py:39`), so an `on_register` call sees unset counters and getters that return None. The model flushes first and records every registration at the counters (0, 0, 0).
- Engine.Engine.TrainIter: the source raises `TypeError` at `buffer.py:37` on the first output entry, after `before_train_iter` and after setting `losses`, because `engine.py:134` passes the key as the value. The model follows the evident intent: it logs every entry, fires `after_train_iter` and advances `iter`.
- Engine.Engine.ValIter: the source raises `TypeError` at `buffer.py:37` on the first output entry, after `before_val_iter`, because `engine.py:146` passes the key as the value. The model follows the evident intent: it logs every entry and fires `after_val_iter`.
- The `mode` and `data_loader` attributes (`engine.py:151-153`, `engine.py:165-167`) are not modelled. No modelled hook reads them. A `val_epoch` that raises `KeyError` for a missing loader has already set `mode = 'val'` in the source.
- `build_object` and `torch.optim`. Building an optimizer from a config is an opaque `BuiltOptimizer(config)`. Only the dict / duck-typed / TypeError decision is modelled, and `optimizer` being unset before the first stage is not.
- Engine.Engine.RunStage: takes a `fuel` bound on the number of loop passes, reported as `OutOfFuel` when used up. A non-terminating loop cannot be written otherwise. Separately, `Schedule.LoopEnd` states exactly when the source loop ends and that it never ends otherwise.
- Engine.Engine.RunStage: stores the optimizer that `Engine.ResolveOptimizer` gives instead of calling `Engine.Engine.BuildOptimizer`. `build_optimizer` makes the same decision and leaves the same state.
- Engine.Engine.Launch: takes the same `fuel` bound for each stage. Exact per-stage epoch counts are not claimed, since `epoch_in_stage` can run a stage past its own epoch count.
- Engine.Engine.TrainEpoch: states the losses of the last batch only, since earlier ones are overwritten.
- Calls into hooks from inside hooks, and hooks that change the engine. Calls are only recorded.
- The `validation=dict(interval=1)` key of the example config. The engine reads `val_interval` only (`engine.py:182`), so that key has no effect.
- OptimizerHooks.AllreduceCoalesced: torch's `_take_tensors` size-based bucketing is a function parameter. Flattening, `dist.all_reduce`, `div_`, `copy_` and `clip_grad_norm_` are opaque call events, and the world size is a parameter.
- OptimizerHooks.DistOptimizerHook.constructor: the defaults `coalesce=True, bucket_size_mb=-1` are not modelled. The arguments are always given.
- MetricBuffer.Buffer.Avg: `np.mean` of an empty window gives nan; the model gives None instead.
- MetricBuffer.Buffer.MedianOf: `np.median` of an empty window gives nan; the model gives None instead.
- MetricBuffer.Buffer.constructor: the default `max_length=19990125` (`buffer.py:12`) is not modelled. The capacity is always given.
- MetricBuffer.Buffer.MedianOf: states only that the median lies between two values of the window, not numpy's exact median. Float rounding in the running mean is absent, since values are exact reals.
- MetricBuffer.Median: the same weaker statement, although its body computes the middle element, or the mean of the two middle elements.
- Misc: dict key order is not modelled, since dicts are maps. A dict passed to the type checks is seen only through its keys.
- Misc.SliceList: the float rounding of `int(len(in_list) / lens)` is not modelled, since the int is exact. Lists of non-int lengths and `bool` lengths are not modelled, and assertions are taken as enabled.
- Misc.IsSeqOf: the `assert isinstance(seq_type, type)` is not modelled, since every modelled container is a type.
- `bind_getter`, `iter_cast`, `list_cast` and `tuple_cast`: reflection and arbitrary type constructors. The engine's getters are plain fields.
