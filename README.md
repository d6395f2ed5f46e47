# A verified model of the training harness in `ext/training.py`

`ext/training.py` wraps a model and a statistics tracker (the "history") in a
trainer. `train` repeats epochs. Each epoch does these things in order:

1. It puts the model in training mode.
2. It runs one optimisation step per training batch. After each step the
   history records the step and, every tenth of an epoch, a progress line is
   printed.
3. It evaluates the model on one tuning loader or a list of them, with the
   model in evaluation mode. The history then gets each loader's mean accuracy.
4. It closes the epoch in the history, which says whether the epoch is the best
   so far. It writes the "latest" checkpoint file, and the "best" one when the
   epoch is the best. Then it saves the history.

When the history shows earlier progress (global step above 1), a new trainer
restores its parameters from the "latest" file.

This project models that bookkeeping in Dafny and proves its properties.

- `Outcomes`: the three errors modelled, none of which the harness catches.
  They are a zero reporting interval, an empty tuning loader and a missing
  checkpoint file.
- `TimeFormat`: the rule `pretty_time` uses to pick a unit (secs, mins, hrs or
  days) and scale the value.
- `Progress`: the integer arithmetic behind a progress line. This covers
  `progress_percent`, `steps_remaining`, `report_every` and the condition
  that decides whether a step is reported.
- `Checkpoints`: the checkpoint files modelled as a map from path to
  parameters. It covers `os.path.join`, `ckpt_path`, `_checkpoint`,
  `_load_last` and the resume rule of `__init__`.
- `TrainingSpec`: pure reference semantics. It says what starting an epoch, the
  batch loop, the tuning pass, the end of an epoch, one epoch and a bounded run
  each do to the trainer's state. It also holds the lemmas about the trace of
  calls these produce.
- `Training`: the trainer as a class whose methods update its fields in place.
  The fields are the parameters, the mode, the history's counters, the
  checkpoint files and the call trace. The loops of `_tune`, `_tuning` and
  `train` are `while`/`for` loops. `Tuning`, `EndEpoch`, `RunBatches`,
  `TrainEpoch` and `Train` are proved equal to their reference functions in
  `TrainingSpec`. `LoadLast` and `Checkpoint` are specified by `LoadLatest`
  and `SaveCheckpoint` in `Checkpoints`, `Step` by the `step` input, and
  `StartEpoch`, `EndStep` and `Tune` directly by their contracts.

The model and the history are collaborators whose internals are not shown.

- The model is a parameter value of an abstract type `P`, plus two functions:
  - `step` performs one optimisation update on a batch and gives the new
    parameters, the loss and the accuracy;
  - `forward` gives the accuracy of an evaluation pass on a batch.
- The history is modelled by three things:
  - its step counter, which `end_step` increments;
  - its epoch counter, which `end_epoch` increments;
  - its `is_best` verdict for each epoch, given as a function `bestAt`.
- An event trace records every call to the history, every mode switch, every
  checkpoint and every printed progress line, in the order they happen.

## Model

| member | source | states |
|---|---|---|
| TimeFormat.PrettyTime | ext/training.py:11-25 | the chosen unit is the largest whose size does not exceed the duration (secs below one minute), the value times the unit size is the duration, and below days the duration is short of the next unit |
| TimeFormat.PrettyTimeMonotone | ext/training.py:18-25 | a longer duration is never shown in a smaller unit |
| TimeFormat.PrettyTimeBoundaries | ext/training.py:18-25 | at 60, 3600 and 86400 seconds the higher unit is chosen, with value 1 |
| TimeFormat.PrettyTimeExamples | ext/training.py:18-25 | 30 s, 90 s, 7200 s and 172800 s are shown as 30 secs, 1.5 mins, 2 hrs and 2 days |
| Progress.ProgressPercent | ext/training.py:93-99 | the percentage is a multiple of 10 in [0, 100] and the least multiple of 10 not below 100 * position / batches per epoch; it is 0 exactly when the step counter is a multiple of the batches per epoch |
| Progress.StepsRemaining | ext/training.py:147-150 | between 1 and the batches per epoch, and adding the position within the epoch gives the batches per epoch |
| Progress.StepsRemainingReachesEpochEnd | ext/training.py:147-150 | counting the remaining steps forward lands on the next epoch boundary, with no boundary in between |
| Progress.ReportEvery | ext/training.py:110-112 | the interval is one tenth of the batches per epoch rounded down, and it is 0 exactly when there are fewer than 10 batches |
| Progress.ReportsStep | ext/training.py:114-115 | it fails with a zero reporting interval exactly when there are fewer than 10 batches; otherwise a step is reported exactly when the step counter is a multiple of the interval |
| Progress.ReportedAmongCount | ext/training.py:114-115 | the number of reported steps among n consecutive steps is the number of multiples of the interval they pass |
| Progress.ReportsPerEpoch | ext/training.py:110-115 | an epoch that starts on a multiple of the interval reports batches / interval steps |
| Progress.ReportsPerEpochAnyStart | ext/training.py:110-115 | when the interval divides the batches per epoch, an epoch reports batches / interval steps wherever it starts, which is ten for 100 batches |
| Checkpoints.Join | ext/training.py:70-72 | a path join ends with the file name; an absolute name replaces the directory; otherwise the directory comes first, then a `/` unless the directory is empty or already ends in `/`, then the name |
| Checkpoints.CkptPath | ext/training.py:69-72 | the slot file is the directory joined with `<name>_best` or `<name>_latest` |
| Checkpoints.CkptPathsDistinct | ext/training.py:69-72 | the "best" and "latest" files of a model are different paths |
| Checkpoints.CheckpointSlots | ext/training.py:208-213 | after a checkpoint "latest" holds the current parameters; "best" holds them too, equal to "latest", exactly when the epoch is best, and is untouched otherwise; the set of files grows by those slots only and no other file changes |
| Checkpoints.LoadLatest | ext/training.py:215-217 | loading succeeds exactly when the "latest" file exists, gives its contents, and otherwise fails naming the missing path |
| Checkpoints.ResumeParams | ext/training.py:62-64 | with a step counter of at most 1 the model's own parameters are kept; above 1 the "latest" file is loaded, with its failure |
| Checkpoints.ResumeAfterCheckpoint | ext/training.py:208-217 | resuming from the files just written by a checkpoint gives back the saved parameters, best or not |
| TrainingSpec.StepEventsCounts | ext/training.py:83-88 | one `_end_step` records the step exactly once and prints one progress line exactly when the step is reported |
| TrainingSpec.StepTraceNumbers | ext/training.py:160-163 | the batch loop calls `end_step` once per batch, and the step counter goes through g + 1, ..., g + the number of batches in order |
| TrainingSpec.StepTraceReports | ext/training.py:160-163 | the batch loop prints a progress line for exactly the reported steps |
| TrainingSpec.SumAccBounds | ext/training.py:167-171 | summing per-batch accuracies in [0, 1] gives a value between 0 and the number of batches |
| TrainingSpec.TuningAccBounds | ext/training.py:167-172 | a loader's tuning accuracy is in [0, 1] when each batch accuracy is |
| TrainingSpec.FirstEmpty | ext/training.py:179-186 | the tuning pass stops at the first empty loader; every loader before it is nonempty |
| TrainingSpec.TuneTraceOrder | ext/training.py:179-186 | a tuning pass calls `end_tuning` once per loader, in list order, each with that loader's mean accuracy |
| TrainingSpec.RunStep | ext/training.py:158-165 | one loop iteration of a run either ends the run with the epoch's failure or continues with one epoch fewer from the epoch's result |
| TrainingSpec.EpochOutcome | ext/training.py:156-186 | an epoch completes exactly when it has 0 or at least 10 training batches and no tuning loader is empty; 1 to 9 batches fail with a zero reporting interval, and otherwise an empty loader fails with an empty tuning loader |
| TrainingSpec.EpochCompleted | ext/training.py:156-165 | a completed epoch's trace is: training mode, the batch loop's calls, evaluation mode, one `end_tuning` per loader, training mode, `end_epoch`, the checkpoint, `save`; the parameters are those after every batch, the counters advance by the batches and by one epoch, and the checkpoint files are the epoch's save |
| TrainingSpec.EpochTrace | ext/training.py:156-165 | the trace of a completed epoch, in which the tuning part prints nothing and records no step |
| TrainingSpec.EpochStepNumbers | ext/training.py:159-163 | over a completed epoch the step counter goes through every step of the epoch, once and in order |
| TrainingSpec.EpochReports | ext/training.py:159-163 | over a completed epoch one progress line is printed for each reported step |
| TrainingSpec.HundredBatchEpoch | ext/training.py:110-115 | every completed 100-batch epoch prints ten progress lines, wherever the step counter starts |
| TrainingSpec.EpochCheckpoint | ext/training.py:74-81 | after a completed epoch "latest" holds the epoch's parameters, "best" equals "latest" exactly when the history calls the epoch best and is untouched otherwise, and a trainer resumed from these files gets back the epoch's parameters |
| TrainingSpec.EpochCounters | ext/training.py:156-165 | a completed epoch advances the epoch counter by one and the step counter by the number of batches, ends in training mode, and leaves "latest" loadable with the epoch's parameters |
| TrainingSpec.RunCompleted | ext/training.py:156-165 | a run of k completed epochs advances the epoch counter by k and the step counter by k times the batches per epoch, ends in training mode, and leaves the final parameters in "latest" |
| Training.Trainer.constructor | ext/training.py:55-60 | the fields are set from the arguments, the batches per epoch is the training loader's length, the model is in training mode and the trace is empty |
| Training.Trainer.LoadLast | ext/training.py:215-217 | the parameters become the contents of "latest" when it exists; otherwise the call fails naming the path and the parameters are unchanged |
| Training.Trainer.Checkpoint | ext/training.py:208-213 | the files become the checkpoint's save of the current parameters, and the trace records the checkpoint |
| Training.Trainer.StartEpoch | ext/training.py:131-134 | the model goes into training mode, and the trace records it |
| Training.Trainer.Step | ext/training.py:219-223 | the parameters, loss and accuracy are those of one optimisation update on the batch |
| Training.Trainer.EndStep | ext/training.py:83-88 | the step counter goes up by one; with fewer than 10 batches the step is recorded and the call then fails with a zero reporting interval; otherwise the trace gets the step and, when it is reported, its progress line |
| Training.Trainer.Tune | ext/training.py:167-177 | a nonempty loader hands its mean accuracy to `end_tuning`; an empty one fails with an empty tuning loader and records nothing |
| Training.Trainer.Tuning | ext/training.py:179-186 | the state and outcome are those of the reference tuning pass: evaluation mode, one `end_tuning` per loader up to the first empty one, then training mode again |
| Training.Trainer.EndEpoch | ext/training.py:74-81 | the state is the reference end of epoch: `end_epoch` with the history's verdict, the checkpoint, `save` |
| Training.Trainer.RunBatches | ext/training.py:160-163 | the state and outcome are those of the reference batch loop: the parameters after every batch, the counter advanced by the batches, and the step trace |
| Training.Trainer.TrainEpoch | ext/training.py:158-165 | the state and outcome are those of the reference epoch |
| Training.Trainer.Train | ext/training.py:156-165 | the state and outcome are those of the reference run of at most the given number of epochs |
| Training.NewTrainer | ext/training.py:46-64 | construction succeeds exactly when the resume rule does and fails with its error; a new trainer holds the resumed parameters, the given counters and files, training mode and an empty trace |

## Left out

- Console output is not modelled: every `print`, the format strings, `_print_dividing_lines`, `_print_epoch_start` and `_report_epoch`. Only whether a progress line is printed, and its percentage and remaining count, are in the trace.
- `_end_epoch` passes `(avg_time, avg_loss, change_loss)` to `_report_epoch`, whose parameters are named `(avg_time, change_loss, change_acc)`. This affects only printed text, so it is not modelled.
- Wall-clock time is not modelled: `time.time()`, `_start_step`, and the step and epoch durations handed to the history. `PrettyTime` takes a duration as an input.
- Torch and hardware calls are foreign: `torch.save`, `torch.load`, `state_dict`, `load_state_dict`, `model.cuda()`, `zero_grad`, `optimize` and the tensor conversion in `step`. Parameters are an abstract value moved in and out of the file map. `step` and `forward` are function inputs.
- The history's internals are not modelled, including its averages, its `is_best` rule and what `save` writes. Its counters are assumed to go up by one at each `end_step` and `end_epoch`. Its verdict is the input `bestAt`. Its `global_step` at construction is an input.
- Floating point is not modelled. Accuracies are `real`. `Trainer.Tune`'s sum and mean are exact. `pretty_time`'s divisions are exact.
- ProgressPercent: uses exact ceiling division where the source computes `pos / bpe * 100 / 10.0` in floats and applies `np.ceil`. The two agree at every practical epoch size, but the model does not prove that about IEEE doubles. Python 3 true division is assumed.
- Trainer.Train: runs at most a given number of epochs. The source's `_stopping_condition_met` always returns `False`, so its loop never ends.
- The base-class stubs that raise `NotImplementedError` are not modelled. The model is the `PyTorchTrainer` behaviour for `_checkpoint`, `_load_last` and `step`.
- Only a Python `list` of tuning loaders counts as several loaders, as `isinstance(..., list)` decides. Any other value, a tuple included, is one loader (`TuneSource.Single`).
- The source does not put a new model in training mode. The model assumes a new trainer's model starts in training mode.
- `Join` models POSIX `os.path.join` only; the Windows `ntpath.join` rules (drive letters, `\\` separators) are not modelled.
- Iterating a data loader is modelled as a fixed sequence of batches. `len(train_loader)` is the length of that sequence.
