/**
  The Hugging Face trainer set-up (src/training/huggingface_trainer_initializer_base.py):
  the training arguments with their run-dependent flags and per-model
  overrides, and the choice of the best checkpoint after a run.

  Loading and saving model weights is not part of the model; the training
  parameters file is given as its key/value pairs in file order.
 */
module TrainerInit {

  import opened Wrappers
  import opened PlatformPaths

  /** A value of a training argument or of a training parameter. */
  datatype Value = Str(s: string) | Int(i: int) | Num(r: real) | Bool(b: bool)

  /** The loaded training parameters, in file order. */
  type Params = seq<(string, Value)>

  /** `setattr(args, key, value)` for every pair in order: a later pair overrides an earlier one. */
  function Overridden(args: map<string, Value>, items: Params): (r: map<string, Value>)
    ensures r.Keys == args.Keys + set i | 0 <= i < |items| :: items[i].0
    decreases |items|
  {
    if items == [] then args
    else
      var before := Overridden(args, items[..|items| - 1]);
      var last := items[|items| - 1];
      assert forall i :: 0 <= i < |items| - 1 ==> items[..|items| - 1][i] == items[i];
      before[last.0 := last.1]
  }

  /** The parameters as the dictionary the file loads into. */
  function AsMap(items: Params): map<string, Value> {
    Overridden(map[], items)
  }

  /** A key the parameters do not mention keeps its argument value. */
  lemma {:induction false} OverrideKeepsOthers(args: map<string, Value>, items: Params, key: string)
    requires forall i :: 0 <= i < |items| ==> items[i].0 != key
    ensures key in args ==> key in Overridden(args, items) && Overridden(args, items)[key] == args[key]
    ensures key !in args ==> key !in Overridden(args, items)
  {
    if items != [] {
      OverrideKeepsOthers(args, items[..|items| - 1], key);
    }
  }

  /** A key the parameters mention takes the value of its last occurrence. */
  lemma {:induction false} OverrideLastWins(args: map<string, Value>, items: Params, i: nat)
    requires i < |items|
    requires forall j :: i < j < |items| ==> items[j].0 != items[i].0
    ensures items[i].0 in Overridden(args, items) && Overridden(args, items)[items[i].0] == items[i].1
  {
    if i < |items| - 1 {
      var init := items[..|items| - 1];
      assert init[i] == items[i];
      OverrideLastWins(args, init, i);
    }
  }

  /** `load_best_model_at_end`: off on the Ray cluster, on everywhere else. */
  function LoadBestModelAtEnd(onRayCluster: bool): (b: bool)
    ensures b <==> !onRayCluster
  {
    if onRayCluster then false else true
  }

  /** `use_mps_device`: only on a Mac, off the cluster, with the `mps` device configured. */
  function UseMpsDevice(sysPlatform: string, onRayCluster: bool, deviceType: string): (b: bool)
    ensures b <==> sysPlatform == "darwin" && !onRayCluster && deviceType == "mps"
  {
    IsMac(sysPlatform) && !onRayCluster && deviceType == "mps"
  }

  /** The arguments `trainer_args_init` passes to `TrainingArguments`, by name. */
  function DefaultArgs(seed: int, runsDir: string, logsDir: string, modelName: string,
                       loggingStrategy: string, saveStrategy: string, evaluationStrategy: string,
                       disableTqdm: bool, onRayCluster: bool, sysPlatform: string, deviceType: string)
    : (args: map<string, Value>)
    ensures "load_best_model_at_end" in args && "use_mps_device" in args && "seed" in args && "data_seed" in args
    ensures args["load_best_model_at_end"] == Bool(!onRayCluster)
    ensures args["use_mps_device"] == Bool(IsMac(sysPlatform) && !onRayCluster && deviceType == "mps")
    ensures args["seed"] == args["data_seed"] == Int(seed)
  {
    map[
      "seed" := Int(seed),
      "data_seed" := Int(seed),
      "remove_unused_columns" := Bool(true),
      "output_dir" := Str(runsDir + "/" + modelName),
      "logging_dir" := Str(logsDir + "/tensorboard"),
      "logging_strategy" := Str(loggingStrategy),
      "evaluation_strategy" := Str(evaluationStrategy),
      "save_strategy" := Str(saveStrategy),
      "load_best_model_at_end" := Bool(LoadBestModelAtEnd(onRayCluster)),
      "optim" := Str("adamw_torch"),
      "use_mps_device" := Bool(UseMpsDevice(sysPlatform, onRayCluster, deviceType)),
      "disable_tqdm" := Bool(disableTqdm)
    ]
  }

  /** Exactly the twelve named arguments are set. */
  lemma DefaultArgsKeys(seed: int, runsDir: string, logsDir: string, modelName: string,
                        loggingStrategy: string, saveStrategy: string, evaluationStrategy: string,
                        disableTqdm: bool, onRayCluster: bool, sysPlatform: string, deviceType: string)
    ensures var args := DefaultArgs(seed, runsDir, logsDir, modelName, loggingStrategy, saveStrategy,
                                    evaluationStrategy, disableTqdm, onRayCluster, sysPlatform, deviceType);
            args.Keys == {"seed", "data_seed", "remove_unused_columns", "output_dir", "logging_dir",
                          "logging_strategy", "evaluation_strategy", "save_strategy",
                          "load_best_model_at_end", "optim", "use_mps_device", "disable_tqdm"}
  {
  }

  /** The output and logging directories are under the caller's run and log directories. */
  lemma DefaultArgsDirs(seed: int, runsDir: string, logsDir: string, modelName: string,
                        loggingStrategy: string, saveStrategy: string, evaluationStrategy: string,
                        disableTqdm: bool, onRayCluster: bool, sysPlatform: string, deviceType: string)
    ensures var args := DefaultArgs(seed, runsDir, logsDir, modelName, loggingStrategy, saveStrategy,
                                    evaluationStrategy, disableTqdm, onRayCluster, sysPlatform, deviceType);
            && args["output_dir"] == Str(runsDir + "/" + modelName)
            && args["logging_dir"] == Str(logsDir + "/tensorboard")
  {
  }

  /** The three strategies and the progress-bar switch are the caller's. */
  lemma DefaultArgsStrategies(seed: int, runsDir: string, logsDir: string, modelName: string,
                              loggingStrategy: string, saveStrategy: string, evaluationStrategy: string,
                              disableTqdm: bool, onRayCluster: bool, sysPlatform: string, deviceType: string)
    ensures var args := DefaultArgs(seed, runsDir, logsDir, modelName, loggingStrategy, saveStrategy,
                                    evaluationStrategy, disableTqdm, onRayCluster, sysPlatform, deviceType);
            && args["logging_strategy"] == Str(loggingStrategy)
            && args["evaluation_strategy"] == Str(evaluationStrategy)
            && args["save_strategy"] == Str(saveStrategy)
            && args["disable_tqdm"] == Bool(disableTqdm)
  {
  }

  /** Unused columns are removed and the optimiser is always `adamw_torch`. */
  lemma DefaultArgsFixed(seed: int, runsDir: string, logsDir: string, modelName: string,
                         loggingStrategy: string, saveStrategy: string, evaluationStrategy: string,
                         disableTqdm: bool, onRayCluster: bool, sysPlatform: string, deviceType: string)
    ensures var args := DefaultArgs(seed, runsDir, logsDir, modelName, loggingStrategy, saveStrategy,
                                    evaluationStrategy, disableTqdm, onRayCluster, sysPlatform, deviceType);
            args["remove_unused_columns"] == Bool(true) && args["optim"] == Str("adamw_torch")
  {
  }

  /**
    `trainer_args_init`: the defaults above, then every loaded training
    parameter set on the arguments in file order.
   */
  method TrainerArgsInit(seed: int, runsDir: string, logsDir: string, modelName: string,
                         loggingStrategy: string, saveStrategy: string, evaluationStrategy: string,
                         disableTqdm: bool, onRayCluster: bool, sysPlatform: string, deviceType: string,
                         trainParams: Option<Params>)
    returns (args: map<string, Value>)
    ensures var defaults := DefaultArgs(seed, runsDir, logsDir, modelName, loggingStrategy, saveStrategy,
                                        evaluationStrategy, disableTqdm, onRayCluster, sysPlatform, deviceType);
            args == if trainParams.Some? then Overridden(defaults, trainParams.value) else defaults
  {
    args := DefaultArgs(seed, runsDir, logsDir, modelName, loggingStrategy, saveStrategy,
                        evaluationStrategy, disableTqdm, onRayCluster, sysPlatform, deviceType);
    if trainParams.Some? {
      args := SetEach(args, trainParams.value);
    }
  }

  /** The `for key, value in train_params.items(): setattr(args, key, value)` loop. */
  method SetEach(args: map<string, Value>, items: Params) returns (args': map<string, Value>)
    ensures args' == Overridden(args, items)
  {
    args' := args;
    for i := 0 to |items|
      invariant args' == Overridden(args, items[..i])
    {
      var (key, value) := items[i];
      assert items[..i + 1][..i] == items[..i];
      args' := args'[key := value];
    }
    assert items[..|items|] == items;
  }

  // ---------------------------------------------------------------------
  // update_model_with_best_checkpoint

  /** One entry of the run's checkpoint list: the checkpoint's URI and its reported metrics. */
  datatype CheckpointInfo = CheckpointInfo(uri: string, metrics: map<string, real>)

  /** The checkpoint that `update_model_with_best_checkpoint` loads. */
  datatype Best = Best(index: nat, value: real, path: string)

  datatype BestError =
    | /** Some checkpoint has no value for the metric (`KeyError`). */
      MissingMetric(metric: Value)

  /** `train_params['metric_for_best_model']` when the parameters set it, else the default metric. */
  function EvalMetric(trainParams: Option<Params>, defaultMetric: string): (m: Value)
    ensures trainParams.None? ==> m == Str(defaultMetric)
    ensures (trainParams.Some? &&
             forall i :: 0 <= i < |trainParams.value| ==> trainParams.value[i].0 != "metric_for_best_model") ==>
              m == Str(defaultMetric)
  {
    if trainParams.Some? && "metric_for_best_model" in AsMap(trainParams.value) then
      AsMap(trainParams.value)["metric_for_best_model"]
    else Str(defaultMetric)
  }

  /** A `metric_for_best_model` parameter names the metric, its last occurrence winning. */
  lemma EvalMetricFromParams(items: Params, defaultMetric: string, i: nat)
    requires i < |items| && items[i].0 == "metric_for_best_model"
    requires forall j :: i < j < |items| ==> items[j].0 != "metric_for_best_model"
    ensures EvalMetric(Some(items), defaultMetric) == items[i].1
  {
    OverrideLastWins(map[], items, i);
  }

  /** The metrics are keyed by name; a metric that is not a name is in no checkpoint. */
  predicate HasMetric(c: CheckpointInfo, metric: Value) {
    metric.Str? && metric.s in c.metrics
  }

  function MetricOf(c: CheckpointInfo, metric: Value): real
    requires HasMetric(c, metric)
  {
    c.metrics[metric.s]
  }

  /** `uri[7:]`: the URI without its `file://` scheme (empty when the URI is shorter). */
  function DropScheme(uri: string): (path: string)
    ensures |uri| >= 7 ==> uri == uri[..7] + path
    ensures |uri| < 7 ==> path == ""
  {
    if |uri| >= 7 then uri[7..] else ""
  }

  /** A `file://` URI yields the local path it names. */
  lemma DropSchemeOfFileUri(path: string)
    ensures DropScheme("file://" + path) == path
  {
    assert ("file://" + path)[7..] == path;
  }

  /**
    `update_model_with_best_checkpoint`: nothing to do without checkpoints;
    otherwise the first checkpoint with the largest value of the metric, and
    the local path of its weights. Every checkpoint must carry the metric.
   */
  method BestCheckpoint(checkpoints: Option<seq<CheckpointInfo>>, trainParams: Option<Params>, defaultMetric: string)
    returns (r: Result<Option<Best>, BestError>)
    ensures checkpoints.None? || checkpoints.value == [] ==> r == Ok(None)
    ensures r.Ok? ==> (r.value.Some? <==> checkpoints.Some? && checkpoints.value != [])
    ensures var metric := EvalMetric(trainParams, defaultMetric);
            checkpoints.Some? && checkpoints.value != [] ==>
              (r.Err? <==> exists j :: 0 <= j < |checkpoints.value| && !HasMetric(checkpoints.value[j], metric)) &&
              (r.Err? ==> r.error == MissingMetric(metric))
    ensures var metric := EvalMetric(trainParams, defaultMetric);
            r.Ok? && r.value.Some? ==>
              checkpoints.Some? &&
              var cs := checkpoints.value;
              var best := r.value.value;
              best.index < |cs| &&
              (forall j :: 0 <= j < |cs| ==> HasMetric(cs[j], metric)) &&
              best.value == MetricOf(cs[best.index], metric) &&
              (forall j :: 0 <= j < |cs| ==> MetricOf(cs[j], metric) <= best.value) &&
              (forall j :: 0 <= j < best.index ==> MetricOf(cs[j], metric) < best.value) &&
              best.path == DropScheme(cs[best.index].uri)
  {
    if checkpoints.None? || |checkpoints.value| == 0 {
      return Ok(None);
    }
    var cs := checkpoints.value;
    var bestIndex: nat := 0;
    var bestValue: Option<real> := None;
    var metric := EvalMetric(trainParams, defaultMetric);
    for index := 0 to |cs|
      invariant forall j :: 0 <= j < index ==> HasMetric(cs[j], metric)
      invariant index == 0 <==> bestValue.None?
      invariant index > 0 ==>
                  bestIndex < index &&
                  bestValue.value == MetricOf(cs[bestIndex], metric) &&
                  (forall j :: 0 <= j < index ==> MetricOf(cs[j], metric) <= bestValue.value) &&
                  (forall j :: 0 <= j < bestIndex ==> MetricOf(cs[j], metric) < bestValue.value)
    {
      if !HasMetric(cs[index], metric) {
        return Err(MissingMetric(metric));
      }
      var metricValue := MetricOf(cs[index], metric);
      if bestValue.None? || metricValue > bestValue.value {
        bestValue := Some(metricValue);
        bestIndex := index;
      }
    }
    var path := DropScheme(cs[bestIndex].uri);
    return Ok(Some(Best(bestIndex, bestValue.value, path)));
  }
}
