/** The trainer object (`TrainerBase` with the `PyTorchTrainer` backend): its
    methods update the model's parameters and mode, the tracker's counters, the
    checkpoint files and the call trace in place, and each is proved to do what
    the reference semantics in TrainingSpec says. */
module Training {
  import opened Outcomes
  import opened Progress
  import opened Checkpoints
  import opened TrainingSpec

  class Trainer<P, B> {
    const modelName: string
    const ckptDir: string
    const trainLoader: seq<B>
    const tuneSource: TuneSource<B>
    const batchesPerEpoch: nat
    const step: (P, B) -> StepOut<P>     // the backend's optimisation step
    const forward: (P, B) -> real        // the accuracy of an evaluation pass
    const bestAt: nat -> bool            // the tracker's is_best verdict per epoch

    var params: P
    var mode: Mode
    var globalStep: nat
    var globalEpoch: nat
    var store: map<string, P>
    var trace: seq<Event>

    ghost predicate Valid()
    {
      batchesPerEpoch == |trainLoader|
    }

    function Cfg(): Config<P, B>
    {
      Config(modelName, ckptDir, trainLoader, tuneSource, step, forward, bestAt)
    }

    function Snap(): State<P>
      reads this
    {
      State(params, mode, globalStep, globalEpoch, store, trace)
    }

    /** The field assignments of `__init__`; the number of batches per epoch is
        taken from the training loader. A fresh model is in training mode. */
    constructor (modelName: string, ckptDir: string, trainLoader: seq<B>, tuneSource: TuneSource<B>,
                 step: (P, B) -> StepOut<P>, forward: (P, B) -> real, bestAt: nat -> bool,
                 params: P, globalStep: nat, globalEpoch: nat, store: map<string, P>)
      ensures Valid()
      ensures Cfg() == Config(modelName, ckptDir, trainLoader, tuneSource, step, forward, bestAt)
      ensures Snap() == State(params, Training, globalStep, globalEpoch, store, [])
    {
      this.modelName := modelName;
      this.ckptDir := ckptDir;
      this.trainLoader := trainLoader;
      this.tuneSource := tuneSource;
      this.batchesPerEpoch := |trainLoader|;
      this.step := step;
      this.forward := forward;
      this.bestAt := bestAt;
      this.params := params;
      this.mode := Training;
      this.globalStep := globalStep;
      this.globalEpoch := globalEpoch;
      this.store := store;
      this.trace := [];
    }

    /** `_load_last`: restore the parameters from the "latest" file. */
    method LoadLast() returns (o: Outcome)
      modifies this`params
      ensures o.Pass? <==> CkptPath(ckptDir, modelName, false) in store
      ensures LoadLatest(store, ckptDir, modelName) == if o.Pass? then Ok(params) else Err(o.error)
      ensures o.Fail? ==> params == old(params)
    {
      var path := CkptPath(ckptDir, modelName, false);
      if path in store {
        params := store[path];
        o := Pass;
      } else {
        o := Fail(MissingCheckpoint(path));
      }
    }

    /** `_checkpoint`: write "latest", and "best" when `isBest`. */
    method Checkpoint(isBest: bool)
      modifies this`store, this`trace
      ensures store == SaveCheckpoint(old(store), ckptDir, modelName, params, isBest)
      ensures trace == old(trace) + [Event.Checkpoint(isBest)]
    {
      store := store[CkptPath(ckptDir, modelName, false) := params];
      if isBest {
        store := store[CkptPath(ckptDir, modelName, true) := params];
      }
      trace := trace + [Event.Checkpoint(isBest)];
    }

    /** `_start_epoch`: the model goes into training mode. */
    method StartEpoch()
      modifies this`mode, this`trace
      ensures mode == Training && trace == old(trace) + [SetMode(Training)]
    {
      mode := Training;
      trace := trace + [SetMode(Training)];
    }

    /** `step`: one optimisation update on a batch. */
    method Step(batch: B) returns (loss: real, acc: real)
      modifies this`params
      ensures params == step(old(params), batch).params
      ensures loss == step(old(params), batch).loss && acc == step(old(params), batch).acc
    {
      var out := step(params, batch);
      params, loss, acc := out.params, out.loss, out.acc;
    }

    /** `_end_step`: the tracker records the step, then `_report_step` prints a
        progress line when the new counter is a multiple of the reporting
        interval, or raises when that interval is 0. */
    method EndStep(loss: real, acc: real) returns (o: Outcome)
      requires Valid()
      modifies this`globalStep, this`trace
      ensures globalStep == old(globalStep) + 1
      ensures o.Pass? <==> batchesPerEpoch >= 10
      ensures o.Fail? ==> o == Fail(ZeroReportInterval) && trace == old(trace) + [Event.EndStep(globalStep, loss, acc)]
      ensures o.Pass? ==> trace == old(trace) + StepEvents(batchesPerEpoch, globalStep, loss, acc)
    {
      globalStep := globalStep + 1;
      trace := trace + [Event.EndStep(globalStep, loss, acc)];
      var reports := ReportsStep(globalStep, batchesPerEpoch);
      if reports.Err? {
        return Fail(reports.error);
      }
      if reports.value {
        trace := trace + [Report(ProgressPercent(globalStep, batchesPerEpoch),
                                 StepsRemaining(globalStep, batchesPerEpoch))];
      }
      o := Pass;
    }

    /** `_tune`: accumulate the accuracy of an evaluation pass over each batch,
        and hand the mean to the tracker; an empty loader divides by zero. */
    method Tune(loader: seq<B>) returns (o: Outcome)
      modifies this`trace
      ensures o.Pass? <==> loader != []
      ensures o.Fail? ==> o == Fail(EmptyTuneLoader) && trace == old(trace)
      ensures o.Pass? ==> trace == old(trace) + [EndTuning(TuningAcc(forward, params, loader))]
    {
      var cumAcc := 0.0;
      for i := 0 to |loader|
        invariant cumAcc == SumAcc(forward, params, loader[..i])
      {
        assert loader[..i + 1][..i] == loader[..i];
        cumAcc := cumAcc + forward(params, loader[i]);
      }
      assert loader[..|loader|] == loader;
      if |loader| == 0 {
        return Fail(EmptyTuneLoader);
      }
      var tuningAcc := cumAcc / (|loader| as real);
      trace := trace + [EndTuning(tuningAcc)];
      o := Pass;
    }

    /** `_tuning`: evaluation mode, `_tune` on each tuning loader (a single
        loader is treated as a list of one), then training mode again. */
    method Tuning() returns (o: Outcome)
      modifies this`mode, this`trace
      ensures (Snap(), o) == TuningSpec(Cfg(), old(Snap()))
    {
      mode := Evaluating;
      trace := trace + [SetMode(Evaluating)];
      var loaders := TuneLoaders(tuneSource);
      ghost var t0 := trace;
      var i := 0;
      while i < |loaders|
        invariant 0 <= i <= FirstEmpty(loaders)
        invariant mode == Evaluating
        invariant trace == t0 + TuneTrace(forward, params, loaders[..i])
      {
        o := Tune(loaders[i]);
        if o.Fail? {
          return;
        }
        assert loaders[..i + 1][..i] == loaders[..i];
        i := i + 1;
      }
      assert loaders[..i] == loaders;
      mode := Training;
      trace := trace + [SetMode(Training)];
      o := Pass;
    }

    /** `_end_epoch`: the tracker closes the epoch and says whether it is the
        best so far, the checkpoint is written, and the tracker is saved. */
    method EndEpoch()
      modifies this`globalEpoch, this`store, this`trace
      ensures Snap() == EndEpochSpec(Cfg(), old(Snap()))
    {
      var epoch := globalEpoch;
      var isBest := bestAt(epoch);
      globalEpoch := globalEpoch + 1;
      trace := trace + [Event.EndEpoch(epoch, isBest)];
      Checkpoint(isBest);
      trace := trace + [SaveHistory];
    }

    /** The batch loop of `train`: one step and `_end_step` per training batch. */
    method RunBatches() returns (o: Outcome)
      requires Valid()
      modifies this`params, this`globalStep, this`trace
      ensures (Snap(), o) == StepsSpec(Cfg(), old(Snap()))
    {
      o := Pass;
      var i := 0;
      while i < |trainLoader|
        invariant 0 <= i <= |trainLoader| && o == Pass
        invariant i > 0 ==> batchesPerEpoch >= 10
        invariant params == Trained(step, old(params), trainLoader[..i])
        invariant globalStep == old(globalStep) + i
        invariant trace == old(trace) + StepTrace(step, batchesPerEpoch, old(params), old(globalStep), trainLoader[..i])
      {
        assert trainLoader[..i + 1][..i] == trainLoader[..i];
        var loss, acc := Step(trainLoader[i]);
        o := EndStep(loss, acc);
        if o.Fail? {
          assert i == 0;
          return;
        }
        i := i + 1;
      }
      assert trainLoader[..i] == trainLoader;
    }

    /** One pass of the loop in `train`: start the epoch, the batch loop, the
        tuning pass, the end of the epoch. */
    method TrainEpoch() returns (o: Outcome)
      requires Valid()
      modifies this
      ensures (Snap(), o) == EpochSpec(Cfg(), old(Snap()))
    {
      StartEpoch();
      o := RunBatches();
      if o.Fail? {
        return;
      }
      o := Tuning();
      if o.Fail? {
        return;
      }
      EndEpoch();
    }

    /** `train`, run for at most `maxEpochs` epochs (the source's own stopping
        condition never holds); the first failure ends the run. */
    method Train(maxEpochs: nat) returns (o: Outcome)
      requires Valid()
      modifies this
      ensures (Snap(), o) == RunSpec(Cfg(), old(Snap()), maxEpochs)
    {
      ghost var s0 := Snap();
      var epochs := 0;
      o := Pass;
      while epochs < maxEpochs
        invariant epochs <= maxEpochs && o == Pass
        invariant RunSpec(Cfg(), s0, maxEpochs) == RunSpec(Cfg(), Snap(), maxEpochs - epochs)
      {
        ghost var before := Snap();
        o := TrainEpoch();
        RunStep(Cfg(), s0, maxEpochs, before, maxEpochs - epochs, Snap(), o);
        if o.Fail? {
          return;
        }
        epochs := epochs + 1;
      }
    }
  }

  /** `__init__`: build the trainer and, when the tracker shows prior progress
      (global step above 1), restore the parameters from the "latest" file;
      construction fails when that file is missing. */
  method NewTrainer<P, B>(modelName: string, ckptDir: string, trainLoader: seq<B>,
                            tuneSource: TuneSource<B>, step: (P, B) -> StepOut<P>,
                            forward: (P, B) -> real, bestAt: nat -> bool,
                            params: P, globalStep: nat, globalEpoch: nat, store: map<string, P>)
    returns (r: Result<Trainer<P, B>>)
    ensures r.Ok? <==> ResumeParams(store, ckptDir, modelName, globalStep, params).Ok?
    ensures r.Err? ==> r.error == ResumeParams(store, ckptDir, modelName, globalStep, params).error
    ensures r.Ok? ==> fresh(r.value) && r.value.Valid()
                      && r.value.Cfg() == Config(modelName, ckptDir, trainLoader, tuneSource, step, forward, bestAt)
                      && r.value.Snap() == State(ResumeParams(store, ckptDir, modelName, globalStep, params).value,
                                                 Training, globalStep, globalEpoch, store, [])
  {
    var t := new Trainer(modelName, ckptDir, trainLoader, tuneSource, step, forward, bestAt,
                         params, globalStep, globalEpoch, store);
    if t.globalStep > 1 {
      var o := t.LoadLast();
      if o.Fail? {
        return Err(o.error);
      }
    }
    r := Ok(t);
  }
}
