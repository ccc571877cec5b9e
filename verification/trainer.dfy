/**
 * `Trainer` of kl/deepnet/trainer/trainer.py: the epoch loop of `fit`
 * (train pass, test pass, `save()`, early-stop check) over a network, a
 * loss, an optimizer, a metric and two data loaders.
 *
 * The collaborators are capabilities: each call the trainer makes on them
 * is written to `trace`, the values they return (a batch's loss, the
 * metric's accuracy) come from the functions of `Capabilities`, and a
 * loader is the number of batches it yields. The summary manager, the
 * checkpoint manager and the early-stop controller are the modelled
 * classes. What the trainer does is stated once, on values, by `RunFrom`
 * and the functions it is built from; the class's methods are proved to
 * do exactly that.
 */
module Training {
  import opened PyBase
  import opened Summary
  import opened Checkpoints
  import opened EarlyStopping

  datatype Mode = Train | Test

  /** The text a `_print` call would show, without its float fields. */
  datatype Message =
    | EpochBegin(epoch: int, total: int)   // 'Train Epoch:{e}/{n} Begin'
    | TestBegin(epoch: int)                // 'Test Epoch:{e} Begin'
    | BatchProgress(mode: Mode, epoch: int, batch: int, total: int)
    | LineEnd                              // the newline after a pass
    | EarlyStopBanner
    | Finish

  /** One call the trainer makes on a collaborator, or one line it prints. */
  datatype Call =
    | SetMode(mode: Mode)                  // net.train() / net.eval()
    | MetricReset
    | ZeroGrad
    | Predict(mode: Mode, batch: int)
    | LossFn
    | Backward
    | OptimizerStep
    | MetricUpdate
    | MetricCompute
    | Output(msg: Message)
    | SummaryAppend(mode: Mode)
    | CheckpointSave
    | SummarySave
    | EarlyStopUpdate

  /** The calls that change or use the model's training state. */
  predicate TrainingCall(c: Call)
  {
    c.ZeroGrad? || c.LossFn? || c.Backward? || c.OptimizerStep?
  }

  /** The values the collaborators return: `loss.item()` and `acc.item()` after a batch. */
  datatype Capabilities = Capabilities(loss: (int, int) -> real, accuracy: (Mode, int, int) -> real)

  /**
   * The dictionary `earlyStop_config`: its `patience`, `gap` and `object`
   * entries, and whether it has a `verbose` entry (which clashes with the
   * `verbose=` the trainer passes itself).
   */
  datatype EarlyStopConfig = EarlyStopConfig(patience: Option<int>, gap: Option<real>, aim: Option<string>,
                                             hasVerbose: bool)

  /**
   * The constructor arguments that matter: `num_epoch`, `verbose`, the
   * lengths of the two loaders, `enable_checkpointManager`,
   * `checkpoint_limit`, `enable_tensorboard`, and `earlyStop_config` (None
   * when it is not a dict).
   */
  datatype Config = Config(numEpoch: int, verbose: int, numTrain: nat, numTest: nat,
                           checkpointing: bool, checkpointLimit: int, board: bool,
                           earlyStop: Option<EarlyStopConfig>)

  datatype Setup = Setup(cfg: Config, caps: Capabilities, fmt: FloatFormat)

  /** The keys of `modObj`. */
  const Names: seq<string> := ["net", "loss_fn", "optimizer"]

  function Patience(cfg: Config): int
  {
    if cfg.earlyStop.Some? && cfg.earlyStop.value.patience.Some? then cfg.earlyStop.value.patience.value else 3
  }

  function Gap(cfg: Config): real
  {
    if cfg.earlyStop.Some? && cfg.earlyStop.value.gap.Some? then cfg.earlyStop.value.gap.value else 0.0
  }

  /** `earlyStop_config.get('object', 'loss')`. */
  function Aim(cfg: Config): string
  {
    if cfg.earlyStop.Some? && cfg.earlyStop.value.aim.Some? then cfg.earlyStop.value.aim.value else "loss"
  }

  /**
   * Everything the trainer and its managers hold: the trainer's `epoch`,
   * `batch` and call trace, the shared summary log, the board events, the
   * last `summary.json`, the checkpoint directory and stack, the component
   * states, and the early-stop controller.
   */
  datatype World<S> = World(epoch: int, batch: int, trace: seq<Call>, log: seq<Record>, events: seq<Event>,
                            json: Option<seq<Record>>, store: Store<S>, states: map<string, S>,
                            es: Controller)

  // ---------------------------------------------------------------------
  // _print and one pass

  /** `_print(text, verbose=level)`: shown iff `self.verbose >= level`. */
  function Printed(cfg: Config, msg: Message, level: int): seq<Call>
  {
    if cfg.verbose >= level then [Output(msg)] else []
  }

  function NumBatches(cfg: Config, mode: Mode): nat
  {
    if mode == Train then cfg.numTrain else cfg.numTest
  }

  /** The calls of batch `b` of a pass. */
  function BatchCalls(cfg: Config, mode: Mode, epoch: int, b: int): seq<Call>
  {
    (if mode == Train then [ZeroGrad, Predict(Train, b), LossFn, Backward, OptimizerStep]
     else [Predict(Test, b)])
    + [MetricUpdate, MetricCompute]
    + Printed(cfg, BatchProgress(mode, epoch, b, NumBatches(cfg, mode)), 2)
  }

  /** The calls of batches 1 .. n. */
  function BatchesCalls(cfg: Config, mode: Mode, epoch: int, n: nat): seq<Call>
  {
    if n == 0 then [] else BatchesCalls(cfg, mode, epoch, n - 1) + BatchCalls(cfg, mode, epoch, n)
  }

  /**
   * The `loss` and `acc` locals after batches 1 .. n: the last batch's
   * values, the loss only in a train pass; both unbound (None) when no
   * batch ran.
   */
  function LastValues(caps: Capabilities, mode: Mode, epoch: int, n: int): (Option<real>, Option<real>)
  {
    if n <= 0 then (None, None)
    else (if mode == Train then Some(caps.loss(epoch, n)) else None, Some(caps.accuracy(mode, epoch, n)))
  }

  /** The calls of one more batch extend the calls of the batches before it. */
  lemma BatchesStep(pre: seq<Call>, cfg: Config, mode: Mode, epoch: int, b: nat)
    ensures pre + BatchesCalls(cfg, mode, epoch, b) + BatchCalls(cfg, mode, epoch, b + 1)
            == pre + BatchesCalls(cfg, mode, epoch, b + 1)
  {
  }

  /** `epoch_info` after a pass of `n >= 1` batches: the last batch's loss and accuracy. */
  function EpochInfo(caps: Capabilities, mode: Mode, epoch: int, n: int): Input
  {
    map["epoch" := IntV(epoch),
        "mode" := StrV(if mode == Train then "train" else "test"),
        "loss" := if mode == Train then FloatV(caps.loss(epoch, n)) else NoneV,
        "accuracy" := FloatV(caps.accuracy(mode, epoch, n))]
  }

  /**
   * The record the summary stores for a pass: `epoch_info` keeps, in the
   * order of the default columns, 'mode', 'epoch', the loss of a train
   * pass and 'accuracy' (`StoredRecordFiltered` shows this is the summary
   * manager's filtering).
   */
  function StoredRecord(caps: Capabilities, mode: Mode, epoch: int, n: int): Record
  {
    [("mode", StrV(if mode == Train then "train" else "test")), ("epoch", IntV(epoch))]
    + (if mode == Train then [("loss", FloatV(caps.loss(epoch, n)))] else [])
    + [("accuracy", FloatV(caps.accuracy(mode, epoch, n)))]
  }

  /** `_storage_add(epoch_info)` with the default columns stores exactly `StoredRecord`. */
  lemma StoredRecordFiltered(caps: Capabilities, mode: Mode, epoch: int, n: int)
    ensures Filtered(EpochInfo(caps, mode, epoch, n), DefaultColumns) == StoredRecord(caps, mode, epoch, n)
  {
    var info := EpochInfo(caps, mode, epoch, n);
    var m := ("mode", StrV(if mode == Train then "train" else "test"));
    var ep := ("epoch", IntV(epoch));
    var l: Record := if mode == Train then [("loss", FloatV(caps.loss(epoch, n)))] else [];
    var acc := ("accuracy", FloatV(caps.accuracy(mode, epoch, n)));
    var head := ["mode", "epoch", "batch"];
    FilteredThree(info, "mode", "epoch", "batch");
    FilteredSnocs(info, head, "loss", "accuracy", "time");
    assert DefaultColumns == head + ["loss"] + ["accuracy"] + ["time"];
    assert [m, ep] + l + [acc] == [m] + [ep] + l + [acc];
  }

  /** Three distinct columns of which the input has the first two. */
  lemma FilteredThree(info: Input, a: string, b: string, c: string)
    requires a != b && c != a && c != b
    requires a in info && b in info && c !in info && info[a] != NoneV && info[b] != NoneV
    ensures Filtered(info, [a, b, c]) == [(a, info[a]), (b, info[b])]
  {
    FilteredSnoc(info, [], a);
    assert [] + [a] == [a];
    FilteredSnoc(info, [a], b);
    assert [a] + [b] == [a, b];
    FilteredSnoc(info, [a, b], c);
    assert [a, b] + [c] == [a, b, c];
  }

  /** Three new columns after `head`: the first when not None, the second, never the third. */
  lemma FilteredSnocs(info: Input, head: seq<string>, d: string, e: string, f: string)
    requires d !in head && e !in head && f !in head && e != d && f != d && f != e
    requires d in info && e in info && f !in info && info[e] != NoneV
    ensures Filtered(info, head + [d] + [e] + [f])
            == Filtered(info, head) + (if info[d] == NoneV then [] else [(d, info[d])]) + [(e, info[e])]
  {
    FilteredSnoc(info, head, d);
    assert e !in head + [d];
    FilteredSnoc(info, head + [d], e);
    assert f !in head + [d] + [e];
    FilteredSnoc(info, head + [d] + [e], f);
  }

  /** The number `update(score)` compares, or None when the comparison raises TypeError. */
  function Score(v: Value): Option<real>
  {
    match v
    case IntV(i) => Some(i as real)
    case FloatV(x) => Some(x)
    case _ => None
  }

  /** The batch counter and the calls once the `for batch` loop has run and the line is ended. */
  function AfterBatches<S>(cfg: Config, w: World<S>, mode: Mode): World<S>
  {
    var n := NumBatches(cfg, mode);
    w.(batch := if n > 0 then n else w.batch,
       trace := w.trace + [SetMode(mode), MetricReset] + BatchesCalls(cfg, mode, w.epoch, n)
                + Printed(cfg, LineEnd, 2))
  }

  /**
   * `self.earlyStop.update(epoch_info[self.earlyStop_aim])`: KeyError for
   * a field the record does not have; TypeError when the field is None or
   * a str, which `update` cannot compare with a number.
   */
  function Monitored<S>(cfg: Config, w: World<S>, info: Input): (World<S>, Option<Error>)
  {
    if Aim(cfg) !in info then (w, Some(KeyError))
    else
      var w1 := w.(trace := w.trace + [EarlyStopUpdate]);
      match Score(info[Aim(cfg)])
      case None => (w1, Some(TypeError))
      case Some(x) => (w1.(es := Updated(w.es, x, Patience(cfg), Gap(cfg))), None)
  }

  /**
   * The board events `_board_add(epoch_info)` writes for a pass: the loss
   * of a train pass, then the accuracy, tagged by mode and stepped by the
   * epoch (`RecordBoardEvents` shows this is what the summary manager
   * writes, and that it raises nothing).
   */
  function BoardOf(caps: Capabilities, mode: Mode, epoch: int, n: int, fmt: FloatFormat): seq<Event>
  {
    var info := EpochInfo(caps, mode, epoch, n);
    (if mode == Train then [Tagged(info, "loss", fmt)] else []) + [Tagged(info, "accuracy", fmt)]
  }

  /**
   * The end of a pass of `n >= 1` batches: append `epoch_info` to the
   * summary (its record, and its board events when the board is on), then,
   * after a test pass with early stopping on, update the controller.
   */
  function Recorded<S>(s: Setup, w: World<S>, mode: Mode): (World<S>, Option<Error>)
  {
    var w1 := Appended(s, w, mode);
    if s.cfg.earlyStop.None? || mode == Train then (w1, None)
    else Monitored(s.cfg, w1, EpochInfo(s.caps, mode, w.epoch, NumBatches(s.cfg, mode)))
  }

  /**
   * `self.summary.append(epoch_info)` after a pass of `n >= 1` batches: its
   * record, and its board events when the board is on.
   */
  function Appended<S>(s: Setup, w: World<S>, mode: Mode): World<S>
  {
    var n := NumBatches(s.cfg, mode);
    w.(trace := w.trace + [SummaryAppend(mode)],
       log := w.log + [StoredRecord(s.caps, mode, w.epoch, n)],
       events := if s.cfg.board then w.events + BoardOf(s.caps, mode, w.epoch, n, s.fmt) else w.events)
  }

  /**
   * `_fit_batch(is_training)`: set the mode, reset the metric, run the
   * batches, end the line, then record the epoch. With no batch,
   * `loss`/`acc` are never bound and building the record raises
   * UnboundLocalError.
   */
  function Pass<S>(s: Setup, w: World<S>, mode: Mode): (World<S>, Option<Error>)
  {
    var w1 := AfterBatches(s.cfg, w, mode);
    if NumBatches(s.cfg, mode) == 0 then (w1, Some(UnboundLocalError))
    else Recorded(s, w1, mode)
  }

  /** `save()`: with checkpointing on, save a checkpoint and then the summary. */
  function SaveStep<S>(s: Setup, w: World<S>): (World<S>, Option<Error>)
  {
    if !s.cfg.checkpointing then (w, None)
    else
      var r := Saved(w.store, Snapshot(Names, w.states), s.cfg.checkpointLimit);
      var w1 := w.(trace := w.trace + [CheckpointSave], store := r.store);
      if r.error.Some? then (w1, r.error)
      else (w1.(trace := w1.trace + [SummarySave], json := Some(w1.log)), None)
  }

  /** One epoch's outcome: the new world, the exception, and whether the loop breaks. */
  datatype EpochResult<S> = EpochResult(world: World<S>, error: Option<Error>, stop: bool)

  /** One iteration of the loop of `fit`. */
  function Epoch<S>(s: Setup, w: World<S>, e: int): EpochResult<S>
  {
    var cfg := s.cfg;
    var w0 := w.(epoch := e, trace := w.trace + Printed(cfg, EpochBegin(e, cfg.numEpoch), 1));
    var (w1, err1) := Pass(s, w0, Train);
    if err1.Some? then EpochResult(w1, err1, false)
    else
      var (w2, err2) := Pass(s, w1.(trace := w1.trace + Printed(cfg, TestBegin(e), 1)), Test);
      if err2.Some? then EpochResult(w2, err2, false)
      else
        var (w3, err3) := SaveStep(s, w2);
        if err3.Some? then EpochResult(w3, err3, false)
        else if cfg.earlyStop.Some? && w3.es.status then
          EpochResult(w3.(trace := w3.trace + Printed(cfg, EarlyStopBanner, 1)), None, true)
        else EpochResult(w3, None, false)
  }

  /** The outcome of `fit`: the world, the exception, and how many epochs ran to the end. */
  datatype RunResult<S> = RunResult(world: World<S>, error: Option<Error>, completed: nat)

  /** `fit()` with the loop at epoch `e`. */
  function RunFrom<S>(s: Setup, w: World<S>, e: int): RunResult<S>
    decreases s.cfg.numEpoch + 1 - e
  {
    if e > s.cfg.numEpoch then RunResult(w.(trace := w.trace + Printed(s.cfg, Finish, 1)), None, 0)
    else
      var r := Epoch(s, w, e);
      if r.error.Some? then RunResult(r.world, r.error, 0)
      else if r.stop then RunResult(r.world.(trace := r.world.trace + Printed(s.cfg, Finish, 1)), None, 1)
      else
        var rest := RunFrom(s, r.world, e + 1);
        rest.(completed := rest.completed + 1)
  }

  // ---------------------------------------------------------------------
  // properties of a pass

  /** The batch numbers of the `predict` calls in `calls`, in order. */
  function Predicted(calls: seq<Call>): seq<int>
  {
    if calls == [] then []
    else (if calls[0].Predict? then [calls[0].batch] else []) + Predicted(calls[1..])
  }

  lemma {:induction false} PredictedAppend(a: seq<Call>, b: seq<Call>)
    ensures Predicted(a + b) == Predicted(a) + Predicted(b)
  {
    if a != [] {
      assert (a + b)[1..] == a[1..] + b;
      PredictedAppend(a[1..], b);
    } else {
      assert a + b == b;
    }
  }

  lemma {:induction false} NoPredict(calls: seq<Call>)
    requires forall i :: 0 <= i < |calls| ==> !calls[i].Predict?
    ensures Predicted(calls) == []
  {
    if calls != [] {
      NoPredict(calls[1..]);
    }
  }

  /** A batch makes exactly one `predict` call, for that batch. */
  lemma PredictedBatch(cfg: Config, mode: Mode, epoch: int, b: int)
    ensures Predicted(BatchCalls(cfg, mode, epoch, b)) == [b]
  {
    var head := if mode == Train then [ZeroGrad, Predict(Train, b), LossFn, Backward, OptimizerStep]
                else [Predict(Test, b)];
    var tail := [MetricUpdate, MetricCompute] + Printed(cfg, BatchProgress(mode, epoch, b, NumBatches(cfg, mode)), 2);
    assert BatchCalls(cfg, mode, epoch, b) == head + tail;
    PredictedAppend(head, tail);
    NoPredict(tail);
    if mode == Train {
      NoPredict(head[2..]);
      assert head[1..][1..] == head[2..];
    } else {
      assert head[1..] == [];
    }
  }

  /**
   * The calls of batches 1 .. n: no metric reset, no training call in a
   * test pass, and one `predict` per batch, for batches 1 .. n in order.
   */
  lemma BatchesCallsShape(cfg: Config, mode: Mode, epoch: int, n: nat)
    ensures MetricReset !in BatchesCalls(cfg, mode, epoch, n)
    ensures mode == Test ==> forall c :: c in BatchesCalls(cfg, mode, epoch, n) ==> !TrainingCall(c)
    ensures Predicted(BatchesCalls(cfg, mode, epoch, n)) == Interval(1, n)
  {
    BatchesNoReset(cfg, mode, epoch, n);
    if mode == Test {
      TestBatchesNoTraining(cfg, epoch, n);
    }
    BatchesPredicted(cfg, mode, epoch, n);
  }

  lemma {:induction false} BatchesNoReset(cfg: Config, mode: Mode, epoch: int, n: nat)
    ensures MetricReset !in BatchesCalls(cfg, mode, epoch, n)
  {
    if n > 0 {
      BatchesNoReset(cfg, mode, epoch, n - 1);
    }
  }

  lemma {:induction false} TestBatchesNoTraining(cfg: Config, epoch: int, n: nat)
    ensures forall c :: c in BatchesCalls(cfg, Test, epoch, n) ==> !TrainingCall(c)
  {
    if n > 0 {
      TestBatchesNoTraining(cfg, epoch, n - 1);
    }
  }

  lemma {:induction false} BatchesPredicted(cfg: Config, mode: Mode, epoch: int, n: nat)
    ensures Predicted(BatchesCalls(cfg, mode, epoch, n)) == Interval(1, n)
  {
    if n > 0 {
      BatchesPredicted(cfg, mode, epoch, n - 1);
      PredictedAppend(BatchesCalls(cfg, mode, epoch, n - 1), BatchCalls(cfg, mode, epoch, n));
      PredictedBatch(cfg, mode, epoch, n);
    }
  }

  /** The early-stop step touches only the trace (one `update` call at most) and the controller. */
  lemma MonitoredFacts<S>(cfg: Config, w: World<S>, info: Input)
    ensures var w' := Monitored(cfg, w, info).0;
            && w' == w.(trace := w'.trace, es := w'.es)
            && (w'.trace == w.trace || w'.trace == w.trace + [EarlyStopUpdate])
  {
  }

  /**
   * Recording a pass appends its filtered record to the log, one
   * `SummaryAppend` call and at most one `update` call to the trace, and
   * changes neither the checkpoints nor `summary.json`.
   */
  lemma RecordedFacts<S>(s: Setup, w: World<S>, mode: Mode)
    ensures var w' := Recorded(s, w, mode).0;
            var info := EpochInfo(s.caps, mode, w.epoch, NumBatches(s.cfg, mode));
            && w' == w.(trace := w'.trace, log := w'.log, events := w'.events, es := w'.es)
            && w'.log == w.log + [StoredRecord(s.caps, mode, w.epoch, NumBatches(s.cfg, mode))]
            && (w'.trace == w.trace + [SummaryAppend(mode)]
                || w'.trace == w.trace + [SummaryAppend(mode), EarlyStopUpdate])
            && (mode == Train ==> w'.es == w.es)
  {
    var n := NumBatches(s.cfg, mode);
    var info := EpochInfo(s.caps, mode, w.epoch, n);
    MonitoredFacts(s.cfg, Appended(s, w, mode), info);
    var t := w.trace + [SummaryAppend(mode)];
    assert t + [EarlyStopUpdate] == w.trace + [SummaryAppend(mode), EarlyStopUpdate];
  }

  /** A pass changes only the batch counter, the trace, the log, the board events and the controller. */
  lemma PassFacts<S>(s: Setup, w: World<S>, mode: Mode)
    ensures var w' := Pass(s, w, mode).0;
            var pre := w.trace + [SetMode(mode), MetricReset]
                       + BatchesCalls(s.cfg, mode, w.epoch, NumBatches(s.cfg, mode));
            && w' == w.(batch := w'.batch, trace := w'.trace, log := w'.log, events := w'.events, es := w'.es)
            && (w'.trace == pre + Printed(s.cfg, LineEnd, 2)
                || w'.trace == pre + Printed(s.cfg, LineEnd, 2) + [SummaryAppend(mode)]
                || w'.trace == pre + Printed(s.cfg, LineEnd, 2) + [SummaryAppend(mode), EarlyStopUpdate])
            && (NumBatches(s.cfg, mode) > 0 ==>
                  w'.log == w.log + [StoredRecord(s.caps, mode, w.epoch, NumBatches(s.cfg, mode))])
            && (NumBatches(s.cfg, mode) == 0 ==> w'.log == w.log && Pass(s, w, mode).1 == Some(UnboundLocalError))
            && (mode == Train ==> w'.es == w.es)
  {
    var w1 := AfterBatches(s.cfg, w, mode);
    if NumBatches(s.cfg, mode) > 0 {
      RecordedFacts(s, w1, mode);
    }
  }

  /** After the batches, a pass only prints, appends its record and updates the controller. */
  lemma PassTail<S>(s: Setup, w: World<S>, mode: Mode)
    ensures var w' := Pass(s, w, mode).0;
            var pre := w.trace + [SetMode(mode), MetricReset]
                       + BatchesCalls(s.cfg, mode, w.epoch, NumBatches(s.cfg, mode));
            && |pre| <= |w'.trace| && w'.trace[..|pre|] == pre
            && forall i :: |pre| <= i < |w'.trace| ==>
                 w'.trace[i].Output? || w'.trace[i].SummaryAppend? || w'.trace[i].EarlyStopUpdate?
  {
    PassFacts(s, w, mode);
    var w' := Pass(s, w, mode).0;
    var pre := w.trace + [SetMode(mode), MetricReset]
               + BatchesCalls(s.cfg, mode, w.epoch, NumBatches(s.cfg, mode));
    var tail := w'.trace[|pre|..];
    assert w'.trace == pre + tail;
    assert forall i :: 0 <= i < |tail| ==> tail[i].Output? || tail[i].SummaryAppend? || tail[i].EarlyStopUpdate?;
  }

  /**
   * A pass calls `metric.reset()` exactly once, before its batches; a test
   * pass makes no optimizer, loss or backward call; and it predicts
   * batches 1 .. n in order, n being what the loader yields.
   */
  lemma PassTrace<S>(s: Setup, w: World<S>, mode: Mode)
    ensures var w' := Pass(s, w, mode).0;
            var n := NumBatches(s.cfg, mode);
            && |w.trace| + 2 <= |w'.trace|
            && w'.trace[..|w.trace| + 2] == w.trace + [SetMode(mode), MetricReset]
            && MetricReset !in w'.trace[|w.trace| + 2..]
            && (mode == Test ==> forall c :: c in w'.trace[|w.trace|..] ==> !TrainingCall(c))
            && Predicted(w'.trace[|w.trace| + 2..]) == Interval(1, n)
  {
    var n := NumBatches(s.cfg, mode);
    PassTail(s, w, mode);
    TraceShape(w.trace, Pass(s, w, mode).0.trace, s.cfg, mode, w.epoch, n);
  }

  /** The sequence reasoning of `PassTrace`, on any trace of that shape. */
  lemma TraceShape(t0: seq<Call>, t: seq<Call>, cfg: Config, mode: Mode, epoch: int, n: nat)
    requires var pre := t0 + [SetMode(mode), MetricReset] + BatchesCalls(cfg, mode, epoch, n);
             && |pre| <= |t| && t[..|pre|] == pre
             && forall i :: |pre| <= i < |t| ==> t[i].Output? || t[i].SummaryAppend? || t[i].EarlyStopUpdate?
    ensures && |t0| + 2 <= |t|
            && t[..|t0| + 2] == t0 + [SetMode(mode), MetricReset]
            && MetricReset !in t[|t0| + 2..]
            && (mode == Test ==> forall c :: c in t[|t0|..] ==> !TrainingCall(c))
            && Predicted(t[|t0| + 2..]) == Interval(1, n)
  {
    var batches := BatchesCalls(cfg, mode, epoch, n);
    var pre := t0 + [SetMode(mode), MetricReset] + batches;
    var tail := t[|pre|..];
    assert t == pre + tail;
    assert t[..|t0| + 2] == t0 + [SetMode(mode), MetricReset];
    assert t[|t0| + 2..] == batches + tail;
    assert t[|t0|..] == [SetMode(mode), MetricReset] + batches + tail;
    assert forall i :: 0 <= i < |tail| ==> tail[i].Output? || tail[i].SummaryAppend? || tail[i].EarlyStopUpdate? by {
      forall i | 0 <= i < |tail| ensures tail[i].Output? || tail[i].SummaryAppend? || tail[i].EarlyStopUpdate? {
        assert tail[i] == t[|pre| + i];
      }
    }
    BatchesAndTail(cfg, mode, epoch, n, tail);
  }

  /** The batches of a pass followed by calls that only print, record or update the controller. */
  lemma BatchesAndTail(cfg: Config, mode: Mode, epoch: int, n: nat, tail: seq<Call>)
    requires forall i :: 0 <= i < |tail| ==> tail[i].Output? || tail[i].SummaryAppend? || tail[i].EarlyStopUpdate?
    ensures var batches := BatchesCalls(cfg, mode, epoch, n);
            && MetricReset !in batches + tail
            && (mode == Test ==> forall c :: c in [SetMode(mode), MetricReset] + batches + tail ==> !TrainingCall(c))
            && Predicted(batches + tail) == Interval(1, n)
  {
    var batches := BatchesCalls(cfg, mode, epoch, n);
    BatchesCallsShape(cfg, mode, epoch, n);
    assert forall i :: 0 <= i < |tail| ==> tail[i] != MetricReset;
    if mode == Test {
      NoTrainingCall(batches, tail, mode);
    }
    PredictedAppend(batches, tail);
    NoPredict(tail);
    assert Predicted(batches) + [] == Predicted(batches);
  }

  lemma NoTrainingCall(batches: seq<Call>, tail: seq<Call>, mode: Mode)
    requires forall c :: c in batches ==> !TrainingCall(c)
    requires forall i :: 0 <= i < |tail| ==> tail[i].Output? || tail[i].SummaryAppend? || tail[i].EarlyStopUpdate?
    ensures forall c :: c in [SetMode(mode), MetricReset] + batches + tail ==> !TrainingCall(c)
  {
    forall c | c in [SetMode(mode), MetricReset] + batches + tail ensures !TrainingCall(c) {
      if c in tail {
        var i :| 0 <= i < |tail| && tail[i] == c;
      }
    }
  }

  /** A loader that yields no batch makes the pass raise UnboundLocalError. */
  lemma EmptyLoaderFails<S>(s: Setup, w: World<S>, mode: Mode)
    requires NumBatches(s.cfg, mode) == 0
    ensures Pass(s, w, mode).1 == Some(UnboundLocalError)
    ensures Pass(s, w, mode).0.log == w.log
  {
  }

  /**
   * A trainer record always has 'mode' and 'epoch', so the board never
   * raises: a train record gives the loss and accuracy events, a test
   * record (loss None) the accuracy event only, both stepped by the epoch.
   */
  lemma RecordBoardEvents(caps: Capabilities, mode: Mode, epoch: int, n: int, fmt: FloatFormat)
    ensures BoardEvents(EpochInfo(caps, mode, epoch, n), DefaultBoardColumns, fmt)
            == BoardResult(BoardOf(caps, mode, epoch, n, fmt), None)
    ensures var ev := BoardOf(caps, mode, epoch, n, fmt);
            && |ev| == (if mode == Train then 2 else 1)
            && forall k :: 0 <= k < |ev| ==> ev[k].step == IntV(epoch)
  {
    var info := EpochInfo(caps, mode, epoch, n);
    BoardTwo(info, "loss", "accuracy", fmt);
  }

  /** Two board columns of an input that has 'mode', 'epoch' and a value for the second. */
  lemma BoardTwo(info: Input, a: string, b: string, fmt: FloatFormat)
    requires "mode" in info && "epoch" in info && Lookup(info, b) != NoneV
    ensures BoardEvents(info, [a, b], fmt)
            == BoardResult((if Lookup(info, a) == NoneV then [] else [Tagged(info, a, fmt)]) + [Tagged(info, b, fmt)], None)
  {
    assert [a, b][..1] == [a];
    assert [a][..0] == [];
    var first := if Lookup(info, a) == NoneV then [] else [Tagged(info, a, fmt)];
    assert BoardEvents(info, [a], fmt) == BoardResult([] + first, None);
  }

  /** The stored record of a pass: its epoch and mode, a test record without loss, no batch or time. */
  lemma RecordOf(caps: Capabilities, mode: Mode, epoch: int, n: int)
    ensures var rec := StoredRecord(caps, mode, epoch, n);
            && Get(rec, "epoch") == IntV(epoch)
            && Get(rec, "mode") == StrV(if mode == Train then "train" else "test")
            && (mode == Test ==> Get(rec, "loss") == NoneV && "loss" !in Keys(rec))
            && Get(rec, "batch") == NoneV && Get(rec, "time") == NoneV
  {
    var info := EpochInfo(caps, mode, epoch, n);
    StoredRecordFiltered(caps, mode, epoch, n);
    FilteredGet(info, DefaultColumns, "epoch");
    FilteredGet(info, DefaultColumns, "mode");
    FilteredGet(info, DefaultColumns, "loss");
    FilteredGet(info, DefaultColumns, "batch");
    FilteredGet(info, DefaultColumns, "time");
    FilteredKeys(info, DefaultColumns, "loss");
  }

  /** The record a pass stores: its epoch and mode, a test record without loss. */
  lemma PassRecord<S>(s: Setup, w: World<S>, mode: Mode)
    requires NumBatches(s.cfg, mode) > 0
    ensures var w' := Pass(s, w, mode).0;
            var rec := w'.log[|w.log|];
            && |w'.log| == |w.log| + 1 && w'.log[..|w.log|] == w.log
            && Get(rec, "epoch") == IntV(w.epoch)
            && Get(rec, "mode") == StrV(if mode == Train then "train" else "test")
            && (mode == Test ==> Get(rec, "loss") == NoneV && "loss" !in Keys(rec))
            && Get(rec, "batch") == NoneV && Get(rec, "time") == NoneV
  {
    PassFacts(s, w, mode);
    RecordOf(s.caps, mode, w.epoch, NumBatches(s.cfg, mode));
  }

  /** Only a test pass updates the early-stop controller. */
  lemma TrainPassKeepsController<S>(s: Setup, w: World<S>)
    ensures Pass(s, w, Train).0.es == w.es
  {
  }

  // ---------------------------------------------------------------------
  // properties of fit

  /** The records of `k` epochs from `e0`, stored from position `base`: train then test, epoch by epoch. */
  ghost predicate EpochRecords(log: seq<Record>, base: nat, e0: int, k: nat)
  {
    base + 2 * k <= |log| &&
    forall i :: 0 <= i < k ==>
      Get(log[base + 2 * i], "epoch") == IntV(e0 + i) && Get(log[base + 2 * i], "mode") == StrV("train") &&
      Get(log[base + 2 * i + 1], "epoch") == IntV(e0 + i) && Get(log[base + 2 * i + 1], "mode") == StrV("test")
  }

  /**
   * `save()` leaves the log, the epoch, the component states and the
   * controller alone. With checkpointing off it does nothing; with it on,
   * the directory becomes that of saving the snapshot of every component,
   * the step raises exactly what that save raises, and without an
   * exception `summary.json` then holds the whole log.
   */
  lemma SaveStepFacts<S>(s: Setup, w: World<S>)
    ensures var w' := SaveStep(s, w).0;
            w' == w.(trace := w'.trace, json := w'.json, store := w'.store)
    ensures !s.cfg.checkpointing ==> SaveStep(s, w) == (w, None)
    ensures s.cfg.checkpointing ==>
              var r := Saved(w.store, Snapshot(Names, w.states), s.cfg.checkpointLimit);
              && SaveStep(s, w).0.store == r.store
              && SaveStep(s, w).1 == r.error
              && (r.error.None? ==> SaveStep(s, w).0.json == Some(w.log))
  {
  }

  /** A pass appends its one record to the log, or nothing when it has no batch. */
  lemma PassLog<S>(s: Setup, w: World<S>, mode: Mode)
    ensures var n := NumBatches(s.cfg, mode);
            Pass(s, w, mode).0.log
              == if n > 0 then w.log + [StoredRecord(s.caps, mode, w.epoch, n)] else w.log
  {
    if NumBatches(s.cfg, mode) > 0 {
      RecordedFacts(s, AfterBatches(s.cfg, w, mode), mode);
    }
  }

  /** A train record then a test record of epoch `e`, appended to `log`. */
  lemma TwoRecords(log: seq<Record>, r1: Record, r2: Record, e: int)
    requires Get(r1, "epoch") == IntV(e) && Get(r1, "mode") == StrV("train")
    requires Get(r2, "epoch") == IntV(e) && Get(r2, "mode") == StrV("test")
    ensures EpochRecords(log + [r1] + [r2], |log|, e, 1)
    ensures (log + [r1] + [r2])[..|log|] == log
  {
    var l := log + [r1] + [r2];
    assert l[|log| + 2 * 0] == r1 && l[|log| + 2 * 0 + 1] == r2;
  }

  /** An epoch only appends to the log: two records when it ends normally. */
  lemma EpochLog<S>(s: Setup, w: World<S>, e: int)
    ensures var r := Epoch(s, w, e);
            && |r.world.log| >= |w.log| && r.world.log[..|w.log|] == w.log
            && (r.error.None? ==>
                  |r.world.log| == |w.log| + 2 && EpochRecords(r.world.log, |w.log|, e, 1))
  {
    var cfg := s.cfg;
    var w0 := w.(epoch := e, trace := w.trace + Printed(cfg, EpochBegin(e, cfg.numEpoch), 1));
    var p1 := Pass(s, w0, Train);
    PassLog(s, w0, Train);
    if p1.1.None? {
      var w1' := p1.0.(trace := p1.0.trace + Printed(cfg, TestBegin(e), 1));
      var p2 := Pass(s, w1', Test);
      PassLog(s, w1', Test);
      if p2.1.None? {
        assert cfg.numTrain > 0 && cfg.numTest > 0;
        var r1 := StoredRecord(s.caps, Train, e, cfg.numTrain);
        var r2 := StoredRecord(s.caps, Test, e, cfg.numTest);
        assert p2.0.log == w.log + [r1] + [r2];
        RecordOf(s.caps, Train, e, cfg.numTrain);
        RecordOf(s.caps, Test, e, cfg.numTest);
        SaveStepFacts(s, p2.0);
        TwoRecords(w.log, r1, r2, e);
      } else {
        assert p2.0.log[..|w.log|] == w.log;
      }
    }
  }

  /** Records from later epochs, shifted past two earlier ones, keep their shape. */
  lemma EpochRecordsShift(log: seq<Record>, base: nat, e0: int, k: nat)
    requires EpochRecords(log, base, e0, 1) && EpochRecords(log, base + 2, e0 + 1, k)
    ensures EpochRecords(log, base, e0, k + 1)
  {
    forall i | 0 <= i < k + 1
      ensures Get(log[base + 2 * i], "epoch") == IntV(e0 + i) && Get(log[base + 2 * i], "mode") == StrV("train") &&
              Get(log[base + 2 * i + 1], "epoch") == IntV(e0 + i) && Get(log[base + 2 * i + 1], "mode") == StrV("test")
    {
      if i > 0 {
        assert base + 2 * i == (base + 2) + 2 * (i - 1);
      }
    }
  }

  /** Records in a prefix of the log stay where they are when the log grows. */
  lemma EpochRecordsExtend(log: seq<Record>, log': seq<Record>, base: nat, e0: int, k: nat)
    requires EpochRecords(log, base, e0, k) && |log| <= |log'| && log'[..|log|] == log
    ensures EpochRecords(log', base, e0, k)
  {
    forall i | 0 <= i < k
      ensures log'[base + 2 * i] == log[base + 2 * i] && log'[base + 2 * i + 1] == log[base + 2 * i + 1]
    {
      assert log'[..|log|][base + 2 * i] == log'[base + 2 * i];
      assert log'[..|log|][base + 2 * i + 1] == log'[base + 2 * i + 1];
    }
  }

  /** One epoch's two records, then `k` more epochs' records after them: `k + 1` epochs from `e`. */
  lemma RecordsCompose(log0: seq<Record>, log1: seq<Record>, log2: seq<Record>, e: int, k: nat)
    requires |log1| == |log0| + 2 && log1[..|log0|] == log0 && EpochRecords(log1, |log0|, e, 1)
    requires |log2| >= |log1| && log2[..|log1|] == log1 && EpochRecords(log2, |log1|, e + 1, k)
    ensures log2[..|log0|] == log0 && EpochRecords(log2, |log0|, e, k + 1)
  {
    EpochRecordsExtend(log1, log2, |log0|, e, 1);
    EpochRecordsShift(log2, |log0|, e, k);
    assert log2[..|log0|] == log1[..|log0|];
  }

  /**
   * `fit` from epoch `e` stores, for each epoch it completes, a train
   * record then a test record of that epoch, in ascending epoch order,
   * after the records already in the log; it completes at most the epochs
   * e .. num_epoch, all of them unless it raises or early stopping
   * (enabled, with `status` set) breaks the loop. Without an exception it
   * stores nothing else.
   */
  lemma {:induction false} RunRecords<S>(s: Setup, w: World<S>, e: int)
    ensures var r := RunFrom(s, w, e);
            && |r.world.log| >= |w.log| && r.world.log[..|w.log|] == w.log
            && EpochRecords(r.world.log, |w.log|, e, r.completed)
            && (r.error.None? ==> |r.world.log| == |w.log| + 2 * r.completed)
            && r.completed <= (if e <= s.cfg.numEpoch then s.cfg.numEpoch + 1 - e else 0)
            && (r.error.None? && r.completed < (if e <= s.cfg.numEpoch then s.cfg.numEpoch + 1 - e else 0) ==>
                  s.cfg.earlyStop.Some? && r.world.es.status)
    decreases s.cfg.numEpoch + 1 - e
  {
    if e <= s.cfg.numEpoch {
      var ep := Epoch(s, w, e);
      EpochLog(s, w, e);
      if ep.error.None? && !ep.stop {
        var rest := RunFrom(s, ep.world, e + 1);
        RunRecords(s, ep.world, e + 1);
        RecordsCompose(w.log, ep.world.log, rest.world.log, e, rest.completed);
      }
    }
  }

  /** Without early stopping, a run that raises nothing completes every epoch e .. num_epoch. */
  lemma RunsAllEpochs<S>(s: Setup, w: World<S>, e: int)
    requires s.cfg.earlyStop.None?
    ensures var r := RunFrom(s, w, e);
            r.error.None? ==> r.completed == (if e <= s.cfg.numEpoch then s.cfg.numEpoch + 1 - e else 0)
  {
    RunRecords(s, w, e);
  }

  /**
   * The loop breaks after an epoch exactly when that epoch raised nothing,
   * early stopping is on and the controller's `status` is set; the check
   * comes after the epoch's save, so with checkpointing on a breaking
   * epoch has written its summary. Such an epoch is then the last one
   * `fit` runs: it completes that one epoch and returns without an
   * exception.
   */
  lemma StopAfterSave<S>(s: Setup, w: World<S>, e: int)
    ensures var r := Epoch(s, w, e);
            r.stop <==> r.error.None? && s.cfg.earlyStop.Some? && r.world.es.status
    ensures var r := Epoch(s, w, e);
            r.stop ==> s.cfg.checkpointing ==> r.world.json == Some(r.world.log)
    ensures var r := Epoch(s, w, e);
            e <= s.cfg.numEpoch && r.error.None? && s.cfg.earlyStop.Some? && r.world.es.status ==>
              RunFrom(s, w, e).completed == 1 && RunFrom(s, w, e).error.None?
  {
  }

  /** With checkpointing off, an epoch leaves the checkpoint directory and `summary.json` alone. */
  lemma EpochKeepsFiles<S>(s: Setup, w: World<S>, e: int)
    requires !s.cfg.checkpointing
    ensures Epoch(s, w, e).world.store == w.store && Epoch(s, w, e).world.json == w.json
  {
    var cfg := s.cfg;
    var w0 := w.(epoch := e, trace := w.trace + Printed(cfg, EpochBegin(e, cfg.numEpoch), 1));
    var p1 := Pass(s, w0, Train);
    PassFacts(s, w0, Train);
    var w1' := p1.0.(trace := p1.0.trace + Printed(cfg, TestBegin(e), 1));
    PassFacts(s, w1', Test);
  }

  /** With checkpointing off, `fit` leaves the checkpoint directory and `summary.json` alone. */
  lemma {:induction false} NoCheckpointNoFiles<S>(s: Setup, w: World<S>, e: int)
    requires !s.cfg.checkpointing
    ensures RunFrom(s, w, e).world.store == w.store && RunFrom(s, w, e).world.json == w.json
    decreases s.cfg.numEpoch + 1 - e
  {
    if e <= s.cfg.numEpoch {
      var ep := Epoch(s, w, e);
      EpochKeepsFiles(s, w, e);
      if ep.error.None? && !ep.stop {
        NoCheckpointNoFiles(s, ep.world, e + 1);
      }
    }
  }

  /**
   * With early stopping on and the default monitor 'loss', the first test
   * pass hands `update` the test record's None loss, and the comparison
   * raises TypeError: the run ends in the first epoch, after its two
   * records.
   */
  lemma DefaultMonitorFails<S>(s: Setup, w: World<S>, e: int)
    requires s.cfg.earlyStop.Some? && s.cfg.earlyStop.value.aim.None?
    requires s.cfg.numTrain > 0 && s.cfg.numTest > 0 && e <= s.cfg.numEpoch
    ensures var r := RunFrom(s, w, e);
            r.error == Some(TypeError) && r.completed == 0 && |r.world.log| == |w.log| + 2
  {
    var cfg := s.cfg;
    var w0 := w.(epoch := e, trace := w.trace + Printed(cfg, EpochBegin(e, cfg.numEpoch), 1));
    PassFacts(s, w0, Train);
    var p1 := Pass(s, w0, Train);
    assert p1.1 == None;
    var w1' := p1.0.(trace := p1.0.trace + Printed(cfg, TestBegin(e), 1));
    PassFacts(s, w1', Test);
    var p2 := Pass(s, w1', Test);
    assert p2.1 == Some(TypeError) by {
      var info := EpochInfo(s.caps, Test, e, cfg.numTest);
      assert Aim(cfg) == "loss" && info["loss"] == NoneV;
    }
    assert Epoch(s, w, e) == EpochResult(p2.0, p2.1, false);
  }

  /**
   * The early-stop configuration with the monitor evidently intended by
   * default: 'accuracy', the one score every test record holds, and one
   * that `score > best_score` rightly treats as better when higher.
   */
  function WithIntendedMonitor(cfg: Config): Config
  {
    if cfg.earlyStop.Some? && cfg.earlyStop.value.aim.None? then
      cfg.(earlyStop := Some(cfg.earlyStop.value.(aim := Some("accuracy"))))
    else cfg
  }

  /**
   * With the intended default monitor, the first test pass hands `update`
   * the test accuracy: the epoch raises nothing, stores its two records,
   * and the controller has taken exactly that score.
   */
  lemma IntendedMonitorEpoch<S>(s: Setup, w: World<S>, e: int)
    requires s.cfg.earlyStop.Some? && s.cfg.earlyStop.value.aim.None? && !s.cfg.checkpointing
    requires s.cfg.numTrain > 0 && s.cfg.numTest > 0
    ensures var r := Epoch(s.(cfg := WithIntendedMonitor(s.cfg)), w, e);
            && r.error.None? && |r.world.log| == |w.log| + 2
            && r.world.es == Updated(w.es, s.caps.accuracy(Test, e, s.cfg.numTest), Patience(s.cfg), Gap(s.cfg))
  {
    var s' := s.(cfg := WithIntendedMonitor(s.cfg));
    var cfg := s'.cfg;
    assert Aim(cfg) == "accuracy" && Patience(cfg) == Patience(s.cfg) && Gap(cfg) == Gap(s.cfg);
    var w0 := w.(epoch := e, trace := w.trace + Printed(cfg, EpochBegin(e, cfg.numEpoch), 1));
    PassFacts(s', w0, Train);
    var p1 := Pass(s', w0, Train);
    assert p1.1 == None;
    var w1' := p1.0.(trace := p1.0.trace + Printed(cfg, TestBegin(e), 1));
    PassFacts(s', w1', Test);
    var p2 := Pass(s', w1', Test);
    assert p2.1 == None && p2.0.es == Updated(w.es, s.caps.accuracy(Test, e, cfg.numTest), Patience(cfg), Gap(cfg)) by {
      var info := EpochInfo(s.caps, Test, e, cfg.numTest);
      assert info["accuracy"] == FloatV(s.caps.accuracy(Test, e, cfg.numTest));
    }
    assert Epoch(s', w, e).world.log == p2.0.log;
  }

  /** With early stopping and checkpointing off and both loaders non-empty, an epoch raises nothing and never breaks. */
  lemma QuietEpoch<S>(s: Setup, w: World<S>, e: int)
    requires s.cfg.earlyStop.None? && !s.cfg.checkpointing && s.cfg.numTrain > 0 && s.cfg.numTest > 0
    ensures Epoch(s, w, e).error.None? && !Epoch(s, w, e).stop
  {
  }

  /**
   * With early stopping and checkpointing off and both loaders non-empty,
   * `fit` raises nothing, completes every epoch e .. num_epoch with two
   * records each, and writes no checkpoint and no `summary.json`.
   */
  lemma {:induction false} QuietRun<S>(s: Setup, w: World<S>, e: int)
    requires s.cfg.earlyStop.None? && !s.cfg.checkpointing && s.cfg.numTrain > 0 && s.cfg.numTest > 0
    ensures var r := RunFrom(s, w, e);
            var k := if e <= s.cfg.numEpoch then s.cfg.numEpoch + 1 - e else 0;
            && r.error.None? && r.completed == k
            && |r.world.log| == |w.log| + 2 * k && EpochRecords(r.world.log, |w.log|, e, k)
            && r.world.store == w.store && r.world.json == w.json
    decreases s.cfg.numEpoch + 1 - e
  {
    if e <= s.cfg.numEpoch {
      QuietEpoch(s, w, e);
      QuietRun(s, Epoch(s, w, e).world, e + 1);
    }
    RunRecords(s, w, e);
    NoCheckpointNoFiles(s, w, e);
  }

  /** Two epochs with checkpointing and early stopping off: four records, train and test of epochs 1 and 2, no file. */
  lemma TwoEpochScenario<S>(s: Setup, w: World<S>)
    requires s.cfg.numEpoch == 2 && s.cfg.earlyStop.None? && !s.cfg.checkpointing
    requires s.cfg.numTrain > 0 && s.cfg.numTest > 0
    ensures var r := RunFrom(s, w, 1);
            && r.error.None? && |r.world.log| == |w.log| + 4
            && Get(r.world.log[|w.log|], "mode") == StrV("train") && Get(r.world.log[|w.log| + 3], "epoch") == IntV(2)
            && r.world.store == w.store && r.world.json == w.json
  {
    QuietRun(s, w, 1);
    var log := RunFrom(s, w, 1).world.log;
    assert EpochRecords(log, |w.log|, 1, 2);
    assert Get(log[|w.log| + 2 * 0], "mode") == StrV("train");
    assert Get(log[|w.log| + 2 * 1 + 1], "epoch") == IntV(1 + 1);
  }

  /** The loop of `fit` once the epochs are exhausted: only the closing line. */
  lemma RunFromEnd<S>(s: Setup, w: World<S>, e: int)
    requires e > s.cfg.numEpoch
    ensures RunFrom(s, w, e).world == w.(trace := w.trace + Printed(s.cfg, Finish, 1))
    ensures RunFrom(s, w, e).error == None
  {
  }

  /** An epoch that raises ends the loop with its exception. */
  lemma RunFromRaise<S>(s: Setup, w: World<S>, e: int)
    requires e <= s.cfg.numEpoch && Epoch(s, w, e).error.Some?
    ensures RunFrom(s, w, e).world == Epoch(s, w, e).world
    ensures RunFrom(s, w, e).error == Epoch(s, w, e).error
  {
  }

  /** An epoch that stops early ends the loop, then the closing line is printed. */
  lemma RunFromStop<S>(s: Setup, w: World<S>, e: int)
    requires e <= s.cfg.numEpoch && Epoch(s, w, e).error.None? && Epoch(s, w, e).stop
    ensures var w' := Epoch(s, w, e).world;
            RunFrom(s, w, e).world == w'.(trace := w'.trace + Printed(s.cfg, Finish, 1))
    ensures RunFrom(s, w, e).error == None
  {
  }

  /** Any other epoch goes on with the next one. */
  lemma RunFromNext<S>(s: Setup, w: World<S>, e: int)
    requires e <= s.cfg.numEpoch && Epoch(s, w, e).error.None? && !Epoch(s, w, e).stop
    ensures RunFrom(s, w, e).world == RunFrom(s, Epoch(s, w, e).world, e + 1).world
    ensures RunFrom(s, w, e).error == RunFrom(s, Epoch(s, w, e).world, e + 1).error
  {
  }

  // ---------------------------------------------------------------------
  // the trainer object

  class Trainer<S> {
    const cfg: Config
    const caps: Capabilities
    const fmt: FloatFormat
    const summary: SummaryManager
    /** `self.checkpointManager`, null when checkpointing is off (the attribute is never set). */
    const checkpoints: CheckpointManager?<S>
    /** `self.earlyStop`, null when early stopping is off. */
    const earlyStop: EarlyStop?
    /** `self.earlyStop_aim`. */
    const aim: string
    var epoch: int
    /** `self.batch`; 0 until the first batch runs. */
    var batch: int
    var trace: seq<Call>

    ghost predicate Valid()
      reads this, checkpoints
    {
      && summary.columns == DefaultColumns && summary.boardColumns == DefaultBoardColumns
      && summary.boardEnabled == cfg.board && summary.fmt == fmt
      && (checkpoints != null <==> cfg.checkpointing)
      && (checkpoints != null ==>
            checkpoints.Valid() && checkpoints.names == Names && checkpoints.maxCount == cfg.checkpointLimit)
      && (earlyStop != null <==> cfg.earlyStop.Some?)
      && (earlyStop != null ==> earlyStop.patience == Patience(cfg) && earlyStop.gap == Gap(cfg))
      && aim == Aim(cfg)
    }

    function Env(): Setup
    {
      Setup(cfg, caps, fmt)
    }

    /** The trainer and its managers, as a value. */
    function W(): World<S>
      reads this, summary, summary.storage, checkpoints, earlyStop
    {
      World(epoch, batch, trace, summary.storage.records, summary.events, summary.savedJson,
            if checkpoints != null then checkpoints.Current() else Store([], map[]),
            if checkpoints != null then checkpoints.states else map[],
            if earlyStop != null then earlyStop.State() else Fresh)
    }

    constructor (cfg: Config, caps: Capabilities, fmt: FloatFormat, summary: SummaryManager,
                 checkpoints: CheckpointManager?<S>, earlyStop: EarlyStop?)
      ensures this.cfg == cfg && this.caps == caps && this.fmt == fmt && this.summary == summary
      ensures this.checkpoints == checkpoints && this.earlyStop == earlyStop && aim == Aim(cfg)
      ensures epoch == 1 && batch == 0 && trace == []
    {
      this.cfg := cfg;
      this.caps := caps;
      this.fmt := fmt;
      this.summary := summary;
      this.checkpoints := checkpoints;
      this.earlyStop := earlyStop;
      aim := Aim(cfg);
      epoch := 1;
      batch := 0;
      trace := [];
    }

    /**
     * `Trainer(...)`: a summary manager with the default columns over the
     * shared log, a checkpoint manager over `dir` (whose `*.pth` names are
     * `listing`) when checkpointing is on, and an early-stop controller
     * when `earlyStop_config` is a dict. The checkpoint scan raises
     * ValueError on a non-integer file name; a config with its own
     * 'verbose' raises TypeError.
     */
    static method Create(cfg: Config, caps: Capabilities, fmt: FloatFormat, states: map<string, S>,
                         storage: SharedLog, dir: map<string, Blob<S>>, listing: seq<string>)
      returns (t: Trainer?<S>, err: Option<Error>)
      requires Registered(Names, states)
      requires forall f :: f in listing <==> f in dir
      ensures err == (if cfg.checkpointing && ParseStems(listing).None? then Some(ValueError)
                      else if cfg.earlyStop.Some? && cfg.earlyStop.value.hasVerbose then Some(TypeError)
                      else None)
      ensures err.Some? ==> t == null
      ensures err.None? ==>
                t != null && fresh(t) && fresh(t.summary) && t.Valid() && t.summary.storage == storage &&
                t.cfg == cfg && t.caps == caps && t.fmt == fmt &&
                t.W() == World(1, 0, [], storage.records, [], None,
                               if cfg.checkpointing then Store(SortInts(ParseStems(listing).value), dir)
                               else Store([], map[]),
                               if cfg.checkpointing then states else map[], Fresh)
    {
      var summary := new SummaryManager(storage, DefaultColumns, cfg.board, DefaultBoardColumns, fmt);
      var checkpoints: CheckpointManager?<S> := null;
      if cfg.checkpointing {
        checkpoints, err := CheckpointManager.Create(Names, states, cfg.checkpointLimit, dir, listing);
        if err.Some? {
          return null, err;
        }
      }
      var earlyStop: EarlyStop? := null;
      if cfg.earlyStop.Some? {
        if cfg.earlyStop.value.hasVerbose {
          return null, Some(TypeError);
        }
        earlyStop := new EarlyStop(Patience(cfg), Gap(cfg), cfg.verbose);
      }
      t := new Trainer(cfg, caps, fmt, summary, checkpoints, earlyStop);
      err := None;
    }

    /** `_print(text, verbose=level)`: the only effect is the printed line. */
    method Print(msg: Message, level: int)
      modifies this`trace
      ensures trace == old(trace) + Printed(cfg, msg, level)
    {
      if cfg.verbose >= level {
        trace := trace + [Output(msg)];
      }
    }

    /** Batch `b` of a pass: the calls it makes, the loss (train only) and the accuracy. */
    method RunBatch(mode: Mode, b: int) returns (loss: Option<real>, acc: real)
      modifies this`batch, this`trace
      ensures batch == b && trace == old(trace) + BatchCalls(cfg, mode, epoch, b)
      ensures acc == caps.accuracy(mode, epoch, b)
      ensures loss == if mode == Train then Some(caps.loss(epoch, b)) else None
    {
      batch := b;
      loss := None;
      if mode == Train {
        trace := trace + [ZeroGrad, Predict(Train, batch)];
        loss := Some(caps.loss(epoch, batch));
        trace := trace + [LossFn, Backward, OptimizerStep];
      } else {
        trace := trace + [Predict(Test, batch)];
      }
      trace := trace + [MetricUpdate];
      acc := caps.accuracy(mode, epoch, batch);
      trace := trace + [MetricCompute];
      Print(BatchProgress(mode, epoch, batch, NumBatches(cfg, mode)), 2);
    }

    /**
     * The `for batch` loop of `_fit_batch` and the newline after it; the
     * last batch's loss and accuracy, None when there was no batch.
     */
    method RunBatches(mode: Mode) returns (loss: Option<real>, acc: Option<real>)
      modifies this`batch, this`trace
      ensures var n := NumBatches(cfg, mode);
              && batch == (if n > 0 then n else old(batch))
              && trace == old(trace) + [SetMode(mode), MetricReset] + BatchesCalls(cfg, mode, epoch, n)
                          + Printed(cfg, LineEnd, 2)
              && (loss, acc) == LastValues(caps, mode, epoch, n)
    {
      trace := trace + [SetMode(mode), MetricReset];
      ghost var pre := trace;
      var n := NumBatches(cfg, mode);
      loss := None;
      acc := None;
      var b := 0;
      while b < n
        invariant 0 <= b <= n
        invariant trace == pre + BatchesCalls(cfg, mode, epoch, b)
        invariant batch == if b > 0 then b else old(batch)
        invariant (loss, acc) == LastValues(caps, mode, epoch, b)
      {
        var l, a := RunBatch(mode, b + 1);
        BatchesStep(pre, cfg, mode, epoch, b);
        loss, acc := l, Some(a);
        b := b + 1;
      }
      Print(LineEnd, 2);
    }

    /** `_fit_batch(is_training)`. */
    method FitBatch(mode: Mode) returns (err: Option<Error>)
      requires Valid()
      modifies this`batch, this`trace, summary`events, summary.storage, earlyStop
      ensures Valid()
      ensures (W(), err) == Pass(Env(), old(W()), mode)
    {
      var loss, acc := RunBatches(mode);
      assert W() == AfterBatches(cfg, old(W()), mode);
      if acc.None? || (mode == Train && loss.None?) {
        return Some(UnboundLocalError);
      }
      err := Record(mode, loss, acc.value);
    }

    /** The end of `_fit_batch`: build `epoch_info`, append it, update the controller after a test pass. */
    method Record(mode: Mode, loss: Option<real>, acc: real) returns (err: Option<Error>)
      requires Valid()
      requires NumBatches(cfg, mode) > 0
      requires acc == caps.accuracy(mode, epoch, NumBatches(cfg, mode))
      requires mode == Train ==> loss == Some(caps.loss(epoch, NumBatches(cfg, mode)))
      modifies this`trace, summary`events, summary.storage, earlyStop
      ensures Valid()
      ensures (W(), err) == Recorded(Env(), old(W()), mode)
    {
      var info: Input := map["epoch" := IntV(epoch),
                             "mode" := StrV(if mode == Train then "train" else "test"),
                             "loss" := if mode == Train then FloatV(loss.value) else NoneV,
                             "accuracy" := FloatV(acc)];
      assert info == EpochInfo(caps, mode, epoch, NumBatches(cfg, mode));
      Summarize(mode, info);
      err := None;
      if earlyStop != null && mode == Test {
        err := Monitor(info);
      }
    }

    /** `self.summary.append(epoch_info)`, which raises nothing for a trainer record. */
    method Summarize(mode: Mode, info: Input)
      requires Valid()
      requires NumBatches(cfg, mode) > 0 && info == EpochInfo(caps, mode, epoch, NumBatches(cfg, mode))
      modifies this`trace, summary`events, summary.storage
      ensures Valid()
      ensures W() == Appended(Env(), old(W()), mode)
    {
      trace := trace + [SummaryAppend(mode)];
      var err := summary.Append(info);
      StoredRecordFiltered(caps, mode, epoch, NumBatches(cfg, mode));
      RecordBoardEvents(caps, mode, epoch, NumBatches(cfg, mode), fmt);
      assert summary.storage.records == old(summary.storage.records) + [StoredRecord(caps, mode, epoch, NumBatches(cfg, mode))];
      assert summary.events == if cfg.board then old(summary.events) + BoardOf(caps, mode, epoch, NumBatches(cfg, mode), fmt) else old(summary.events);
      assert err.None?;
    }

    /** `self.earlyStop.update(epoch_info[self.earlyStop_aim])`. */
    method Monitor(info: Input) returns (err: Option<Error>)
      requires Valid() && earlyStop != null
      modifies this`trace, earlyStop
      ensures Valid()
      ensures (W(), err) == Monitored(cfg, old(W()), info)
    {
      if aim !in info {
        return Some(KeyError);
      }
      trace := trace + [EarlyStopUpdate];
      match Score(info[aim])
      case None =>
        return Some(TypeError);
      case Some(x) =>
        earlyStop.Update(x);
        return None;
    }

    /** `save()`: the checkpoint, then the summary, only with checkpointing on. */
    method Save() returns (err: Option<Error>)
      requires Valid()
      modifies this`trace, checkpoints, summary`savedJson
      ensures Valid()
      ensures (W(), err) == SaveStep(Env(), old(W()))
    {
      if checkpoints != null {
        trace := trace + [CheckpointSave];
        err := checkpoints.Save();
        if err.Some? {
          return;
        }
        trace := trace + [SummarySave];
        summary.Save();
      }
      err := None;
    }

    /** One iteration of the loop of `fit`: train, test, save, then the early-stop check. */
    method FitEpoch(e: int) returns (err: Option<Error>, stop: bool)
      requires Valid()
      modifies this`epoch, this`batch, this`trace, summary`events, summary`savedJson, summary.storage,
               checkpoints, earlyStop
      ensures Valid()
      ensures var r := Epoch(Env(), old(W()), e);
              W() == r.world && err == r.error && stop == r.stop
    {
      stop := false;
      epoch := e;
      Print(EpochBegin(e, cfg.numEpoch), 1);
      err := FitBatch(Train);
      if err.Some? {
        return;
      }
      Print(TestBegin(e), 1);
      err := FitBatch(Test);
      if err.Some? {
        return;
      }
      err := Save();
      if err.Some? {
        return;
      }
      if earlyStop != null && earlyStop.status {
        Print(EarlyStopBanner, 1);
        stop := true;
      }
    }

    /**
     * One iteration of the loop of `fit` seen from the whole run: either the
     * loop ends here (an exception, or the early-stop break and the closing
     * line) with the outcome of `fit` from epoch `e`, or it goes on, and
     * the rest of the run from `e + 1` is the rest of the run from `e`.
     */
    method FitStep(e: int) returns (err: Option<Error>, done: bool)
      requires Valid() && e <= cfg.numEpoch
      modifies this`epoch, this`batch, this`trace, summary`events, summary`savedJson, summary.storage,
               checkpoints, earlyStop
      ensures Valid()
      ensures var r := RunFrom(Env(), old(W()), e);
              done ==> W() == r.world && err == r.error
      ensures var r := RunFrom(Env(), old(W()), e);
              !done ==> err.None? && r.world == RunFrom(Env(), W(), e + 1).world &&
                        r.error == RunFrom(Env(), W(), e + 1).error
    {
      ghost var before := W();
      var stop;
      err, stop := FitEpoch(e);
      if err.Some? {
        RunFromRaise(Env(), before, e);
        return err, true;
      }
      if stop {
        RunFromStop(Env(), before, e);
        Print(Finish, 1);
        return None, true;
      }
      RunFromNext(Env(), before, e);
      done := false;
    }

    /** `fit()`: epochs `self.epoch` .. `num_epoch`, then the closing line. */
    method Fit() returns (err: Option<Error>)
      requires Valid()
      modifies this`epoch, this`batch, this`trace, summary`events, summary`savedJson, summary.storage,
               checkpoints, earlyStop
      ensures Valid()
      ensures var r := RunFrom(Env(), old(W()), old(epoch));
              W() == r.world && err == r.error
    {
      ghost var goal := RunFrom(Env(), W(), epoch);
      var e := epoch;
      var done := false;
      err := None;
      while !done && e <= cfg.numEpoch
        invariant Valid()
        invariant done ==> (W(), err) == (goal.world, goal.error)
        invariant !done ==> (goal.world, goal.error) == (RunFrom(Env(), W(), e).world, RunFrom(Env(), W(), e).error)
        decreases cfg.numEpoch + 1 - e, if done then 0 else 1
      {
        err, done := FitStep(e);
        if !done {
          e := e + 1;
        }
      }
      if !done {
        err := FitEnd(e);
      }
    }

    /** The loop of `fit` once the epochs are exhausted: the closing line. */
    method FitEnd(e: int) returns (err: Option<Error>)
      requires e > cfg.numEpoch
      modifies this`trace
      ensures var r := RunFrom(Env(), old(W()), e);
              W() == r.world && err == r.error
    {
      RunFromEnd(Env(), W(), e);
      Print(Finish, 1);
      err := None;
    }
  }
}
