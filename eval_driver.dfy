/**
 * The checkpoint half of `eval_model_ll`: the rows handed to the model (every
 * surviving task's examples, concatenated and padded to a whole number of
 * batches), and for each checkpoint the hand-out of decodes to the tasks in
 * order, the predictions file and metric calls of each task, and the final
 * check that only padding is left over.
 */
module EvalDriver {
  import opened Wrappers
  import opened Lists
  import opened EvalTasks
  import Text
  import Arithmetic

  // ---------------------------------------------------------------------------
  // Configuration
  // ---------------------------------------------------------------------------

  /** The arguments of the driver that the bookkeeping depends on. */
  datatype EvalConfig = EvalConfig(
    batchSize: nat,
    attributeBit: bool,
    unsupervisedMetrics: bool,     // `unsupervised_attribute_transfer_metrics`
    controlCodeBool: bool,
    summaryDir: string,            // `eval_summary_dir`; "" stands for None
    modelDir: string,
    datasetSplit: string,
    postprocess: Postprocessor)

  /** `eval_summary_dir or os.path.join(model_dir, "{split}_eval")`. */
  function SummaryDir(cfg: EvalConfig): (dir: string)
    ensures cfg.summaryDir != "" ==> dir == cfg.summaryDir
    ensures cfg.summaryDir == "" ==> dir == PathJoin(cfg.modelDir, cfg.datasetSplit + "_eval")
  {
    if cfg.summaryDir != "" then cfg.summaryDir else PathJoin(cfg.modelDir, cfg.datasetSplit + "_eval")
  }

  function CacheCfg(cfg: EvalConfig): CacheConfig
  {
    CacheConfig(cfg.attributeBit, SummaryDir(cfg), cfg.postprocess)
  }

  // ---------------------------------------------------------------------------
  // The decode list, consumed from the front
  // ---------------------------------------------------------------------------

  /** The `decodes` list of one checkpoint, from which each task takes its share off the front. */
  class DecodeQueue {
    var items: seq<string>

    constructor(decodes: seq<string>)
      ensures items == decodes
    {
      items := decodes;
    }

    /**
     * `decodes[:n]` followed by `del decodes[:n]`: the first `n` decodes (all
     * of them when fewer remain) are handed out and removed, the rest keep
     * their order.
     */
    method TakeFront(n: nat) returns (front: seq<string>)
      modifies this
      ensures |front| == Min(n, |old(items)|)
      ensures front + items == old(items)
    {
      var k := Min(n, |items|);
      front := items[..k];
      items := items[k..];
    }
  }

  // ---------------------------------------------------------------------------
  // Padding
  // ---------------------------------------------------------------------------

  /** `-total % batch_size`: how many rows pad the last batch of `total` rows. */
  function ExpectedPad(total: nat, batchSize: nat): nat
    requires batchSize > 0
  {
    (-(total as int)) % batchSize
  }

  /**
   * The padding is less than one batch, completes the rows to a whole number
   * of batches, and is zero exactly when the rows already fill whole batches.
   */
  lemma ExpectedPadSpec(total: nat, batchSize: nat)
    requires batchSize > 0
    ensures ExpectedPad(total, batchSize) < batchSize
    ensures (total + ExpectedPad(total, batchSize)) % batchSize == 0
    ensures ExpectedPad(total, batchSize) == 0 <==> total % batchSize == 0
  {
    var b := batchSize;
    var neg: int := -(total as int);
    var q := neg / b;
    var pad := neg % b;
    assert neg == q * b + pad;
    assert total + pad == (-q) * b;
    Arithmetic.DivByBounds(total + pad, b, -q);
    if pad == 0 {
      Arithmetic.DivByBounds(total, b, -q);
    }
    if total % b == 0 {
      var m := total / b;
      assert neg == (-m) * b;
      Arithmetic.DivByBounds(neg, b, -m);
    }
  }

  // ---------------------------------------------------------------------------
  // The model's input rows
  // ---------------------------------------------------------------------------

  /** A row of the model's input: an example's selected features, or a padding row. */
  type Row = Option<map<string, seq<int>>>

  /** The number of examples of `tasks` together. */
  function TotalExamples(tasks: seq<EvalTask>): nat
    decreases |tasks|
  {
    if tasks == [] then 0 else TotalExamples(tasks[..|tasks| - 1]) + |tasks[|tasks| - 1].examples|
  }

  /** One row per example, with the features the model is given. */
  function RowsOf(examples: seq<Example>, keys: seq<string>): (rows: seq<Row>)
    ensures |rows| == |examples|
    ensures forall j :: 0 <= j < |examples| ==> rows[j] == Some(SelectFeatures(examples[j], keys))
  {
    seq(|examples|, j requires 0 <= j < |examples| => Some(SelectFeatures(examples[j], keys)))
  }

  /** The datasets of `tasks`, filtered to the registered keys and concatenated in task order. */
  function ExampleRows(tasks: seq<EvalTask>, keys: seq<string>): seq<Row>
    decreases |tasks|
  {
    if tasks == [] then []
    else ExampleRows(tasks[..|tasks| - 1], keys) + RowsOf(tasks[|tasks| - 1].examples, keys)
  }

  /**
   * `input_fn`: the concatenated rows, batched without dropping the
   * remainder, with the last batch padded to the batch size.
   */
  function InputRows(tasks: seq<EvalTask>, keys: seq<string>, batchSize: nat): seq<Row>
    requires batchSize > 0
  {
    var rows := ExampleRows(tasks, keys);
    rows + seq(ExpectedPad(|rows|, batchSize), _ => None)
  }

  lemma {:induction false} ExampleRowsLength(tasks: seq<EvalTask>, keys: seq<string>)
    ensures |ExampleRows(tasks, keys)| == TotalExamples(tasks)
    decreases |tasks|
  {
    if tasks != [] {
      ExampleRowsLength(tasks[..|tasks| - 1], keys);
    }
  }

  /**
   * Example `j` of task `k` sits at row `TotalExamples(tasks[..k]) + j`: the
   * rows of each task follow those of the tasks before it.
   */
  lemma {:induction false} ExampleRowAt(tasks: seq<EvalTask>, keys: seq<string>, k: nat, j: nat)
    requires k < |tasks| && j < |tasks[k].examples|
    ensures TotalExamples(tasks[..k]) + j < |ExampleRows(tasks, keys)|
    ensures ExampleRows(tasks, keys)[TotalExamples(tasks[..k]) + j] == Some(SelectFeatures(tasks[k].examples[j], keys))
    decreases |tasks|
  {
    var n := |tasks| - 1;
    var init := tasks[..n];
    ExampleRowsLength(tasks, keys);
    ExampleRowsLength(init, keys);
    if k < n {
      assert init[..k] == tasks[..k];
      assert init[k] == tasks[k];
      ExampleRowAt(init, keys, k, j);
    } else {
      assert init == tasks[..k];
    }
  }

  /** A prefix of the tasks has no more examples than all of them. */
  lemma {:induction false} TotalExamplesMonotone(tasks: seq<EvalTask>, k: nat)
    requires k <= |tasks|
    ensures TotalExamples(tasks[..k]) <= TotalExamples(tasks)
    decreases |tasks|
  {
    if k < |tasks| {
      var init := tasks[..|tasks| - 1];
      assert init[..k] == tasks[..k];
      TotalExamplesMonotone(init, k);
    } else {
      assert tasks[..k] == tasks;
    }
  }

  /**
   * The input holds every example's row, in order, then padding rows up to a
   * whole number of batches (less than one batch of them).
   */
  lemma InputRowsLayout(tasks: seq<EvalTask>, keys: seq<string>, batchSize: nat)
    requires batchSize > 0
    ensures |InputRows(tasks, keys, batchSize)| == TotalExamples(tasks) + ExpectedPad(TotalExamples(tasks), batchSize)
    ensures |InputRows(tasks, keys, batchSize)| % batchSize == 0
    ensures ExpectedPad(TotalExamples(tasks), batchSize) < batchSize
    ensures forall i :: TotalExamples(tasks) <= i < |InputRows(tasks, keys, batchSize)| ==>
      InputRows(tasks, keys, batchSize)[i].None?
  {
    ExampleRowsLength(tasks, keys);
    ExpectedPadSpec(TotalExamples(tasks), batchSize);
  }

  /** Example `j` of task `k` is input row `TotalExamples(tasks[..k]) + j`. */
  lemma InputRowAt(tasks: seq<EvalTask>, keys: seq<string>, batchSize: nat, k: nat, j: nat)
    requires batchSize > 0 && k < |tasks| && j < |tasks[k].examples|
    ensures TotalExamples(tasks[..k]) + j < TotalExamples(tasks) <= |InputRows(tasks, keys, batchSize)|
    ensures InputRows(tasks, keys, batchSize)[TotalExamples(tasks[..k]) + j] ==
            Some(SelectFeatures(tasks[k].examples[j], keys))
  {
    ExampleRowsLength(tasks, keys);
    ExampleRowAt(tasks, keys, k, j);
  }

  // ---------------------------------------------------------------------------
  // One checkpoint
  // ---------------------------------------------------------------------------

  /** `[postprocess_fn(d, example=ex) for d, ex in zip(front, examples)]`. */
  function Predictions(front: seq<string>, examples: seq<Example>, fn: nat, postprocess: Postprocessor): seq<string>
  {
    var pairs := Zip(front, examples);
    seq(|pairs|, i requires 0 <= i < |pairs| => postprocess(fn, pairs[i].0, pairs[i].1, false))
  }

  /** `os.path.join(dir, "{name}_{step}_predictions")`. */
  function PredictionsPath(dir: string, name: string, step: int): string
  {
    PathJoin(dir, name + "_" + Text.IntToString(step) + "_predictions")
  }

  /** One call per metric function, in order, each given the cached targets and the predictions. */
  function MetricCalls(name: string, metricFns: seq<nat>, step: int, targets: seq<string>,
                       predictions: seq<string>, origins: Option<seq<string>>): seq<Effect>
    decreases |metricFns|
  {
    if metricFns == [] then []
    else
      var n := |metricFns| - 1;
      MetricCalls(name, metricFns[..n], step, targets, predictions, origins) +
      [MetricCall(name, metricFns[n], step, targets, predictions, origins)]
  }

  /** The origin labels passed to the metrics: only with both the unsupervised metrics and attributes on. */
  function MetricOrigins(c: Caches, name: string, cfg: EvalConfig): (origins: Option<seq<string>>)
    requires cfg.attributeBit ==> name in c.origins
    ensures origins.Some? <==> cfg.unsupervisedMetrics && cfg.attributeBit
    ensures origins.Some? ==> origins.value == c.origins[name]
  {
    if cfg.unsupervisedMetrics && cfg.attributeBit then Some(c.origins[name]) else None
  }

  /** What one task does at one checkpoint: its predictions file, its metric calls, a flush. */
  function TaskEffects(t: EvalTask, c: Caches, step: int, cfg: EvalConfig, dir: string,
                       predictions: seq<string>): seq<Effect>
    requires t.name in c.targets && (cfg.attributeBit ==> t.name in c.origins)
  {
    [WriteEscaped(PredictionsPath(dir, t.name, step), predictions)] +
    MetricCalls(t.name, t.metricFns, step, c.targets[t.name], predictions, MetricOrigins(c, t.name, cfg)) +
    [FlushSummaries]
  }

  /** The state of the per-task loop: the effects so far and the decodes not yet handed out. */
  datatype Progress = Progress(effects: seq<Effect>, rest: seq<string>)

  /**
   * The loop over the tasks at one checkpoint, defined by its last
   * iteration: each task takes as many decodes off the front as its cached
   * examples number (fewer if fewer remain) and post-processes them against
   * those examples.
   */
  function ConsumeRun(tasks: seq<EvalTask>, c: Caches, step: int, cfg: EvalConfig, dir: string,
                      decodes: seq<string>): Progress
    requires Covers(c, tasks, cfg.attributeBit)
    decreases |tasks|
  {
    if tasks == [] then Progress([], decodes)
    else
      var n := |tasks| - 1;
      ConsumeStep(ConsumeRun(tasks[..n], c, step, cfg, dir, decodes), tasks[n], c, step, cfg, dir)
  }

  function ConsumeStep(p: Progress, t: EvalTask, c: Caches, step: int, cfg: EvalConfig, dir: string): Progress
    requires t.name in c.targets && t.name in c.examples && (cfg.attributeBit ==> t.name in c.origins)
  {
    var examples := c.examples[t.name];
    var n := Min(|examples|, |p.rest|);
    var front := p.rest[..n];
    var predictions := Predictions(front, examples, t.postprocessFn, cfg.postprocess);
    Progress(p.effects + TaskEffects(t, c, step, cfg, dir, predictions), p.rest[n..])
  }

  lemma ConsumeRunExtend(tasks: seq<EvalTask>, i: nat, c: Caches, step: int, cfg: EvalConfig, dir: string,
                         decodes: seq<string>)
    requires i < |tasks| && Covers(c, tasks, cfg.attributeBit)
    ensures ConsumeRun(tasks[..i + 1], c, step, cfg, dir, decodes) ==
            ConsumeStep(ConsumeRun(tasks[..i], c, step, cfg, dir, decodes), tasks[i], c, step, cfg, dir)
  {
    assert tasks[..i + 1][..i] == tasks[..i];
  }

  /** How many decodes the cached examples of `tasks` ask for together. */
  function Consumption(tasks: seq<EvalTask>, c: Caches): nat
    requires forall k :: 0 <= k < |tasks| ==> tasks[k].name in c.examples
    decreases |tasks|
  {
    if tasks == [] then 0
    else Consumption(tasks[..|tasks| - 1], c) + |c.examples[tasks[|tasks| - 1].name]|
  }

  /**
   * The decodes left after the loop are those past the first
   * `Consumption(tasks, c)` (none when there were fewer).
   */
  lemma {:induction false} ConsumeRest(tasks: seq<EvalTask>, c: Caches, step: int, cfg: EvalConfig, dir: string,
                                       decodes: seq<string>)
    requires Covers(c, tasks, cfg.attributeBit)
    ensures ConsumeRun(tasks, c, step, cfg, dir, decodes).rest == decodes[Min(Consumption(tasks, c), |decodes|)..]
    decreases |tasks|
  {
    if tasks != [] {
      var n := |tasks| - 1;
      var init := tasks[..n];
      assert Covers(c, init, cfg.attributeBit) by {
        forall k | 0 <= k < n ensures init[k] == tasks[k] {}
      }
      ConsumeRest(init, c, step, cfg, dir, decodes);
      var m := Min(Consumption(init, c), |decodes|);
      var e := |c.examples[tasks[n].name]|;
      assert Consumption(tasks, c) == Consumption(init, c) + e;
      DropTwice(decodes, m, Min(e, |decodes| - m));
    }
  }

  lemma DropTwice(xs: seq<string>, m: nat, j: nat)
    requires m + j <= |xs|
    ensures xs[m..][j..] == xs[m + j..]
  {
  }

  /** The number of cached targets, `sum(len(t) for t in cached_targets.values())`. */
  function TargetsTotal(names: seq<string>, targets: map<string, seq<string>>): nat
    requires forall i :: 0 <= i < |names| ==> names[i] in targets
    decreases |names|
  {
    if names == [] then 0
    else TargetsTotal(names[..|names| - 1], targets) + |targets[names[|names| - 1]]|
  }

  /** `-sum(...) % batch_size` against what is left: the error raised when more or fewer decodes remain than padding rows. */
  function PadCheck(remaining: nat, total: nat, batchSize: nat): (r: Result<()>)
    requires batchSize > 0
    ensures r.Ok? <==> remaining == ExpectedPad(total, batchSize)
    ensures r.Err? ==> r.error == ValueError(Text.IntToString(remaining) + " padded decodes, " +
                                             Text.IntToString(ExpectedPad(total, batchSize)) + " expected.")
  {
    var pad := ExpectedPad(total, batchSize);
    if remaining != pad then
      Err(ValueError(Text.IntToString(remaining) + " padded decodes, " + Text.IntToString(pad) + " expected."))
    else Ok(())
  }

  /**
   * Everything the driver does with the decodes of one checkpoint: the loop
   * over the tasks, then the check that only padding remains.
   */
  function CheckpointRun(tasks: seq<EvalTask>, c: Caches, step: int, cfg: EvalConfig, dir: string,
                         decodes: seq<string>): Run<()>
    requires cfg.batchSize > 0 && CachesValid(c) && Covers(c, tasks, cfg.attributeBit)
  {
    var p := ConsumeRun(tasks, c, step, cfg, dir, decodes);
    Run(p.effects, PadCheck(|p.rest|, TargetsTotal(c.names, c.targets), cfg.batchSize))
  }

  /** The metric loop of one task: each metric function called in order on the same targets and predictions. */
  method CallMetrics(name: string, metricFns: seq<nat>, step: int, targets: seq<string>,
                     predictions: seq<string>, origins: Option<seq<string>>) returns (calls: seq<Effect>)
    ensures calls == MetricCalls(name, metricFns, step, targets, predictions, origins)
  {
    calls := [];
    var j := 0;
    while j < |metricFns|
      invariant 0 <= j <= |metricFns|
      invariant calls == MetricCalls(name, metricFns[..j], step, targets, predictions, origins)
    {
      assert metricFns[..j + 1][..j] == metricFns[..j];
      calls := calls + [MetricCall(name, metricFns[j], step, targets, predictions, origins)];
      j := j + 1;
    }
    assert metricFns[..j] == metricFns;
  }

  /**
   * One task at one checkpoint: it takes its decodes off the front of the
   * queue, writes its predictions, calls its metrics and flushes.
   */
  method ProcessTask(t: EvalTask, c: Caches, step: int, cfg: EvalConfig, dir: string, queue: DecodeQueue,
                     effects: seq<Effect>) returns (effects': seq<Effect>)
    requires t.name in c.targets && t.name in c.examples && (cfg.attributeBit ==> t.name in c.origins)
    modifies queue
    ensures Progress(effects', queue.items) == ConsumeStep(Progress(effects, old(queue.items)), t, c, step, cfg, dir)
  {
    var examples := c.examples[t.name];
    var front := queue.TakeFront(|examples|);
    assert front == old(queue.items)[..|front|] && queue.items == old(queue.items)[|front|..];
    var predictions := Predictions(front, examples, t.postprocessFn, cfg.postprocess);
    var calls := CallMetrics(t.name, t.metricFns, step, c.targets[t.name], predictions, MetricOrigins(c, t.name, cfg));
    effects' := effects + ([WriteEscaped(PredictionsPath(dir, t.name, step), predictions)] + calls + [FlushSummaries]);
  }

  /**
   * The body of the checkpoint loop: the tasks take their decodes in turn;
   * then what is left is compared with the expected padding.
   */
  method ProcessCheckpoint(tasks: seq<EvalTask>, c: Caches, step: int, cfg: EvalConfig, dir: string,
                           decodes: seq<string>) returns (r: Run<()>)
    requires cfg.batchSize > 0 && CachesValid(c) && Covers(c, tasks, cfg.attributeBit)
    ensures r == CheckpointRun(tasks, c, step, cfg, dir, decodes)
  {
    var queue := new DecodeQueue(decodes);
    var effects: seq<Effect> := [];
    var i := 0;
    while i < |tasks|
      invariant 0 <= i <= |tasks|
      invariant ConsumeRun(tasks[..i], c, step, cfg, dir, decodes) == Progress(effects, queue.items)
    {
      ConsumeRunExtend(tasks, i, c, step, cfg, dir, decodes);
      effects := ProcessTask(tasks[i], c, step, cfg, dir, queue, effects);
      i := i + 1;
    }
    assert tasks[..i] == tasks;
    var expected := ExpectedPad(TargetsTotal(c.names, c.targets), cfg.batchSize);
    if |queue.items| != expected {
      return Run(effects, Err(ValueError(Text.IntToString(|queue.items|) + " padded decodes, " +
                                         Text.IntToString(expected) + " expected.")));
    }
    r := Run(effects, Ok(()));
  }

  // ---------------------------------------------------------------------------
  // Decodes line up with examples
  // ---------------------------------------------------------------------------

  predicate DistinctNames(tasks: seq<EvalTask>) {
    forall i, j :: 0 <= i < j < |tasks| ==> tasks[i].name != tasks[j].name
  }

  /** `c` is what the caching loop built for `tasks`. */
  ghost predicate CachedFor(c: Caches, tasks: seq<EvalTask>, cfg: EvalConfig) {
    && CacheRun(tasks, CacheCfg(cfg)).outcome == Ok(c)
    && CachesValid(c)
    && Covers(c, tasks, cfg.attributeBit)
  }

  lemma CachedForCacheRun(tasks: seq<EvalTask>, cfg: EvalConfig)
    requires CacheRun(tasks, CacheCfg(cfg)).outcome.Ok?
    ensures CachedFor(CacheRun(tasks, CacheCfg(cfg)).outcome.value, tasks, cfg)
  {
    CacheKeys(tasks, CacheCfg(cfg));
    CacheCovers(tasks, CacheCfg(cfg));
  }

  /** With distinct names each task's cached examples are its own, so the decodes asked for are its examples' count. */
  lemma {:induction false} ConsumptionOfOwnExamples(tasks: seq<EvalTask>, c: Caches)
    requires forall k :: 0 <= k < |tasks| ==> tasks[k].name in c.examples && c.examples[tasks[k].name] == tasks[k].examples
    ensures Consumption(tasks, c) == TotalExamples(tasks)
    decreases |tasks|
  {
    if tasks != [] {
      var init := tasks[..|tasks| - 1];
      assert forall k :: 0 <= k < |init| ==> init[k] == tasks[k];
      ConsumptionOfOwnExamples(init, c);
    }
  }

  /** With distinct names the cached targets number exactly the examples. */
  lemma {:induction false} TargetsTotalOfOwnTargets(tasks: seq<EvalTask>, targets: map<string, seq<string>>)
    requires forall k :: 0 <= k < |tasks| ==> tasks[k].name in targets && |targets[tasks[k].name]| == |tasks[k].examples|
    ensures TargetsTotal(NamesOf(tasks), targets) == TotalExamples(tasks)
    decreases |tasks|
  {
    if tasks != [] {
      var init := tasks[..|tasks| - 1];
      assert forall k :: 0 <= k < |init| ==> init[k] == tasks[k];
      TargetsTotalOfOwnTargets(init, targets);
      assert NamesOf(tasks)[..|tasks| - 1] == NamesOf(init);
    }
  }

  /** With distinct names, the tasks before `k` consume exactly their own examples' count. */
  lemma CachedPrefixConsumption(tasks: seq<EvalTask>, c: Caches, cfg: EvalConfig, k: nat)
    requires DistinctNames(tasks) && CachedFor(c, tasks, cfg) && k <= |tasks|
    ensures Consumption(tasks[..k], c) == TotalExamples(tasks[..k])
  {
    CacheOfDistinctTasks(tasks, CacheCfg(cfg));
    ConsumptionOfOwnExamples(tasks[..k], c);
  }

  lemma ConsumptionOfOwnPrefix(tasks: seq<EvalTask>, c: Caches, n: nat)
    requires n <= |tasks|
    requires forall k :: 0 <= k < |tasks| ==> tasks[k].name in c.examples && c.examples[tasks[k].name] == tasks[k].examples
    ensures Consumption(tasks[..n], c) == TotalExamples(tasks[..n])
  {
    var prefix := tasks[..n];
    forall k | 0 <= k < n ensures prefix[k] == tasks[k] {}
    ConsumptionOfOwnExamples(prefix, c);
  }

  /** With distinct names: both the decodes consumed and the targets counted are the examples of all tasks. */
  lemma CachedCounts(tasks: seq<EvalTask>, c: Caches, cfg: EvalConfig)
    requires DistinctNames(tasks) && CachedFor(c, tasks, cfg)
    ensures Consumption(tasks, c) == TotalExamples(tasks)
    ensures forall k :: 0 <= k <= |tasks| ==> Consumption(tasks[..k], c) == TotalExamples(tasks[..k])
    ensures TargetsTotal(c.names, c.targets) == TotalExamples(tasks)
  {
    CacheOfDistinctTasks(tasks, CacheCfg(cfg));
    CacheNamesInOrder(tasks, CacheCfg(cfg));
    forall k | 0 <= k <= |tasks| ensures Consumption(tasks[..k], c) == TotalExamples(tasks[..k]) {
      ConsumptionOfOwnPrefix(tasks, c, k);
    }
    assert tasks[..|tasks|] == tasks;
    TargetsTotalOfOwnTargets(tasks, c.targets);
  }

  /**
   * When there are at least as many decodes as examples and the task names
   * are distinct, the decodes left for task `k` start with the ones at
   * positions `TotalExamples(tasks[..k])` onwards, one per example of its own.
   */
  lemma TaskShare(tasks: seq<EvalTask>, c: Caches, step: int, cfg: EvalConfig, dir: string,
                  decodes: seq<string>, k: nat)
    requires cfg.batchSize > 0 && DistinctNames(tasks) && CachedFor(c, tasks, cfg)
    requires TotalExamples(tasks) <= |decodes| && k < |tasks|
    ensures TotalExamples(tasks[..k]) + |tasks[k].examples| <= |decodes|
    ensures c.examples[tasks[k].name] == tasks[k].examples
    ensures var s := TotalExamples(tasks[..k]);
      var rest := ConsumeRun(tasks[..k], c, step, cfg, dir, decodes).rest;
      |tasks[k].examples| <= |rest| && rest[..|tasks[k].examples|] == decodes[s .. s + |tasks[k].examples|]
  {
    TotalExamplesThrough(tasks, k);
    CachedOwnExamples(tasks, c, cfg, k);
    RestBeforeTask(tasks, c, step, cfg, dir, decodes, k);
  }

  /** With distinct names, the examples cached under a task's name are its own. */
  lemma CachedOwnExamples(tasks: seq<EvalTask>, c: Caches, cfg: EvalConfig, k: nat)
    requires DistinctNames(tasks) && CachedFor(c, tasks, cfg) && k < |tasks|
    ensures c.examples[tasks[k].name] == tasks[k].examples
  {
    assert LastWithName(tasks, k);
    CacheLastWins(tasks, CacheCfg(cfg), k);
  }

  /** With distinct names, the decodes left for task `k` are those past its predecessors' examples. */
  lemma RestBeforeTask(tasks: seq<EvalTask>, c: Caches, step: int, cfg: EvalConfig, dir: string,
                       decodes: seq<string>, k: nat)
    requires DistinctNames(tasks) && CachedFor(c, tasks, cfg) && k < |tasks|
    requires TotalExamples(tasks[..k]) <= |decodes|
    ensures ConsumeRun(tasks[..k], c, step, cfg, dir, decodes).rest == decodes[TotalExamples(tasks[..k])..]
  {
    CachedPrefixConsumption(tasks, c, cfg, k);
    ConsumeRest(tasks[..k], c, step, cfg, dir, decodes);
  }

  /** The examples up to and including task `k` are those before it plus its own, and no more than all. */
  lemma TotalExamplesThrough(tasks: seq<EvalTask>, k: nat)
    requires k < |tasks|
    ensures TotalExamples(tasks[..k]) + |tasks[k].examples| == TotalExamples(tasks[..k + 1]) <= TotalExamples(tasks)
  {
    assert tasks[..k + 1][..k] == tasks[..k];
    TotalExamplesMonotone(tasks, k + 1);
  }

  /**
   * Task `k` writes and scores the post-processing of exactly the decodes at
   * positions `TotalExamples(tasks[..k])` onwards, one per example — the
   * positions at which its own examples sit in the model's input
   * (`InputRowAt`).
   */
  lemma TaskSeesItsDecodes(tasks: seq<EvalTask>, c: Caches, step: int, cfg: EvalConfig, dir: string,
                           decodes: seq<string>, k: nat)
    requires cfg.batchSize > 0 && DistinctNames(tasks) && CachedFor(c, tasks, cfg)
    requires TotalExamples(tasks) <= |decodes| && k < |tasks|
    ensures var s := TotalExamples(tasks[..k]);
      var e := |tasks[k].examples|;
      && s + e <= |decodes|
      && ConsumeRun(tasks[..k + 1], c, step, cfg, dir, decodes).effects ==
         ConsumeRun(tasks[..k], c, step, cfg, dir, decodes).effects +
         TaskEffects(tasks[k], c, step, cfg, dir,
                     Predictions(decodes[s .. s + e], tasks[k].examples, tasks[k].postprocessFn, cfg.postprocess))
  {
    TaskShare(tasks, c, step, cfg, dir, decodes, k);
    ConsumeRunExtend(tasks, k, c, step, cfg, dir, decodes);
  }

  /**
   * With distinct task names the padding check passes exactly when the
   * decodes number the examples plus the expected padding, or when they fall
   * short of the examples while the examples fill whole batches (the short
   * fall goes unnoticed then).
   */
  lemma PadCheckIff(tasks: seq<EvalTask>, c: Caches, step: int, cfg: EvalConfig, dir: string, decodes: seq<string>)
    requires cfg.batchSize > 0 && DistinctNames(tasks) && CachedFor(c, tasks, cfg)
    ensures var n := TotalExamples(tasks);
      var pad := ExpectedPad(n, cfg.batchSize);
      CheckpointRun(tasks, c, step, cfg, dir, decodes).outcome.Ok? <==>
      (if |decodes| >= n then |decodes| == n + pad else pad == 0)
  {
    CachedCounts(tasks, c, cfg);
    ConsumeRest(tasks, c, step, cfg, dir, decodes);
  }

  // ---------------------------------------------------------------------------
  // The checkpoint loop
  // ---------------------------------------------------------------------------

  /** `decode(estimator, input_fn, vocabulary, checkpoint_path)`: the model's outputs for the input rows at a step. */
  type Decoder = (int, seq<Row>) -> seq<string>

  /** Step 0 (the untrained model) is skipped. */
  predicate Evaluated(step: int) {
    step != 0
  }

  /** The loop over the checkpoints' steps, defined by its last iteration; an exception ends it. */
  function CheckpointsRun(steps: seq<int>, tasks: seq<EvalTask>, c: Caches, cfg: EvalConfig, dir: string,
                          rows: seq<Row>, decoder: Decoder): Run<()>
    requires cfg.batchSize > 0 && CachesValid(c) && Covers(c, tasks, cfg.attributeBit)
    decreases |steps|
  {
    if steps == [] then Run([], Ok(()))
    else
      var n := |steps| - 1;
      CheckpointStep(CheckpointsRun(steps[..n], tasks, c, cfg, dir, rows, decoder), steps[n], tasks, c, cfg, dir, rows, decoder)
  }

  function CheckpointStep(prev: Run<()>, step: int, tasks: seq<EvalTask>, c: Caches, cfg: EvalConfig, dir: string,
                          rows: seq<Row>, decoder: Decoder): Run<()>
    requires cfg.batchSize > 0 && CachesValid(c) && Covers(c, tasks, cfg.attributeBit)
  {
    if prev.outcome.Err? || !Evaluated(step) then prev
    else
      var r := CheckpointRun(tasks, c, step, cfg, dir, decoder(step, rows));
      Run(prev.effects + r.effects, r.outcome)
  }

  lemma CheckpointsRunExtend(steps: seq<int>, i: nat, tasks: seq<EvalTask>, c: Caches, cfg: EvalConfig, dir: string,
                             rows: seq<Row>, decoder: Decoder)
    requires i < |steps| && cfg.batchSize > 0 && CachesValid(c) && Covers(c, tasks, cfg.attributeBit)
    ensures CheckpointsRun(steps[..i + 1], tasks, c, cfg, dir, rows, decoder) ==
            CheckpointStep(CheckpointsRun(steps[..i], tasks, c, cfg, dir, rows, decoder), steps[i], tasks, c, cfg, dir, rows, decoder)
  {
    assert steps[..i + 1][..i] == steps[..i];
  }

  /** Once a checkpoint has raised, later checkpoints change nothing. */
  lemma {:induction false} CheckpointsRunStops(steps: seq<int>, k: nat, tasks: seq<EvalTask>, c: Caches, cfg: EvalConfig,
                                               dir: string, rows: seq<Row>, decoder: Decoder)
    requires cfg.batchSize > 0 && CachesValid(c) && Covers(c, tasks, cfg.attributeBit)
    requires k <= |steps| && CheckpointsRun(steps[..k], tasks, c, cfg, dir, rows, decoder).outcome.Err?
    ensures CheckpointsRun(steps, tasks, c, cfg, dir, rows, decoder) == CheckpointsRun(steps[..k], tasks, c, cfg, dir, rows, decoder)
    decreases |steps|
  {
    if k < |steps| {
      var init := steps[..|steps| - 1];
      assert init[..k] == steps[..k];
      CheckpointsRunStops(init, k, tasks, c, cfg, dir, rows, decoder);
    } else {
      assert steps[..k] == steps;
    }
  }

  /** Step-0 checkpoints contribute nothing: the loop behaves as if they were not listed. */
  lemma {:induction false} StepZeroSkipped(steps: seq<int>, tasks: seq<EvalTask>, c: Caches, cfg: EvalConfig, dir: string,
                                           rows: seq<Row>, decoder: Decoder)
    requires cfg.batchSize > 0 && CachesValid(c) && Covers(c, tasks, cfg.attributeBit)
    ensures CheckpointsRun(steps, tasks, c, cfg, dir, rows, decoder) ==
            CheckpointsRun(Keep(steps, Evaluated), tasks, c, cfg, dir, rows, decoder)
    decreases |steps|
  {
    if steps != [] {
      var n := |steps| - 1;
      var init := steps[..n];
      var x := steps[n];
      StepZeroSkipped(init, tasks, c, cfg, dir, rows, decoder);
      assert steps == init + [x];
      KeepAppend(init, [x], Evaluated);
      var kept := Keep(init, Evaluated);
      if Evaluated(x) {
        assert Keep([x], Evaluated) == [x];
        assert (kept + [x])[..|kept|] == kept;
      } else {
        assert Keep([x], Evaluated) == [];
        assert kept + [] == kept;
      }
    }
  }

  /**
   * With distinct task names and a decoder that returns one decode per input
   * row, every checkpoint passes the padding check.
   */
  lemma {:induction false} CheckpointsSucceed(steps: seq<int>, tasks: seq<EvalTask>, c: Caches, cfg: EvalConfig,
                                              dir: string, keys: seq<string>, decoder: Decoder)
    requires cfg.batchSize > 0 && DistinctNames(tasks) && CachedFor(c, tasks, cfg)
    requires forall step :: |decoder(step, InputRows(tasks, keys, cfg.batchSize))| == |InputRows(tasks, keys, cfg.batchSize)|
    ensures CheckpointsRun(steps, tasks, c, cfg, dir, InputRows(tasks, keys, cfg.batchSize), decoder).outcome.Ok?
    decreases |steps|
  {
    if steps != [] {
      var n := |steps| - 1;
      var rows := InputRows(tasks, keys, cfg.batchSize);
      CheckpointsSucceed(steps[..n], tasks, c, cfg, dir, keys, decoder);
      InputRowsLayout(tasks, keys, cfg.batchSize);
      PadCheckIff(tasks, c, steps[n], cfg, dir, decoder(steps[n], rows));
    }
  }

  // ---------------------------------------------------------------------------
  // The driver
  // ---------------------------------------------------------------------------

  const MissingDatasetMessage := "Must provide eval_dataset_fn through gin for eval."

  /**
   * What `eval_model_ll` does, given the tasks `eval_dataset_fn` returns
   * (None when it is not provided), the feature keys registered before the
   * call, the steps of the checkpoints found, and the decoder.
   */
  function EvalSpec(tasks: Option<seq<EvalTask>>, cfg: EvalConfig, keys: seq<string>, steps: seq<int>,
                    decoder: Decoder): Run<()>
    requires cfg.batchSize > 0
  {
    match tasks
    case None => Run([], Err(ValueError(MissingDatasetMessage)))
    case Some(all) =>
      var survivors := Keep(all, HasMetrics);
      if survivors == [] then Run([], Ok(()))
      else
        var dir := SummaryDir(cfg);
        var cache := CacheRun(survivors, CacheCfg(cfg));
        var started := [OpenSummaryWriter(dir)] + cache.effects;
        if cache.outcome.Err? then Run(started, Err(cache.outcome.error))
        else
          CachedForCacheRun(survivors, cfg);
          var rows := InputRows(survivors, keys + Extension(cfg.attributeBit, cfg.controlCodeBool), cfg.batchSize);
          var loop := CheckpointsRun(steps, survivors, cache.outcome.value, cfg, dir, rows, decoder);
          Run(started + loop.effects, loop.outcome)
  }

  /** Whether the call gets as far as extending the module-level feature list. */
  predicate ExtendsRegistry(tasks: Option<seq<EvalTask>>, cfg: EvalConfig) {
    && tasks.Some?
    && Keep(tasks.value, HasMetrics) != []
    && CacheRun(Keep(tasks.value, HasMetrics), CacheCfg(cfg)).outcome.Ok?
  }

  /**
   * `eval_model_ll`: selects the tasks, opens the summary writer, caches the
   * targets, extends the module-level feature list, then evaluates every
   * checkpoint but step 0 until one raises.
   */
  method EvalModel(registry: FeatureRegistry, tasks: Option<seq<EvalTask>>, cfg: EvalConfig, steps: seq<int>,
                   decoder: Decoder) returns (r: Run<()>)
    requires cfg.batchSize > 0
    modifies registry
    ensures r == EvalSpec(tasks, cfg, old(registry.keys), steps, decoder)
    ensures registry.keys == if ExtendsRegistry(tasks, cfg)
                             then old(registry.keys) + Extension(cfg.attributeBit, cfg.controlCodeBool)
                             else old(registry.keys)
  {
    if tasks.None? {
      return Run([], Err(ValueError(MissingDatasetMessage)));
    }
    var survivors := SelectTasks(tasks.value);
    if survivors == [] {
      return Run([], Ok(()));
    }
    var dir := SummaryDir(cfg);
    var cache := BuildCaches(survivors, CacheCfg(cfg));
    var started := [OpenSummaryWriter(dir)] + cache.effects;
    if cache.outcome.Err? {
      return Run(started, Err(cache.outcome.error));
    }
    var c := cache.outcome.value;
    CachedForCacheRun(survivors, cfg);
    registry.Extend(cfg.attributeBit, cfg.controlCodeBool);
    var rows := InputRows(survivors, registry.keys, cfg.batchSize);
    var loop := EvaluateCheckpoints(steps, survivors, c, cfg, dir, rows, decoder);
    r := Run(started + loop.effects, loop.outcome);
  }

  /** The checkpoint loop: step 0 is skipped, and the first checkpoint that raises ends the loop. */
  method EvaluateCheckpoints(steps: seq<int>, tasks: seq<EvalTask>, c: Caches, cfg: EvalConfig, dir: string,
                             rows: seq<Row>, decoder: Decoder) returns (r: Run<()>)
    requires cfg.batchSize > 0 && CachesValid(c) && Covers(c, tasks, cfg.attributeBit)
    ensures r == CheckpointsRun(steps, tasks, c, cfg, dir, rows, decoder)
  {
    var effects: seq<Effect> := [];
    var i := 0;
    while i < |steps|
      invariant 0 <= i <= |steps|
      invariant CheckpointsRun(steps[..i], tasks, c, cfg, dir, rows, decoder) == Run(effects, Ok(()))
    {
      CheckpointsRunExtend(steps, i, tasks, c, cfg, dir, rows, decoder);
      var step := steps[i];
      if step != 0 {
        var checkpoint := ProcessCheckpoint(tasks, c, step, cfg, dir, decoder(step, rows));
        effects := effects + checkpoint.effects;
        if checkpoint.outcome.Err? {
          CheckpointsRunStops(steps, i + 1, tasks, c, cfg, dir, rows, decoder);
          return Run(effects, checkpoint.outcome);
        }
      }
      i := i + 1;
    }
    assert steps[..i] == steps;
    r := Run(effects, Ok(()));
  }

  /** When no task has a metric function, the driver returns at once: no summary writer, no file, no change to the feature list. */
  lemma WithoutMetricsNothingHappens(tasks: seq<EvalTask>, cfg: EvalConfig, keys: seq<string>, steps: seq<int>,
                                     decoder: Decoder)
    requires cfg.batchSize > 0
    requires forall i :: 0 <= i < |tasks| ==> !HasMetrics(tasks[i])
    ensures EvalSpec(Some(tasks), cfg, keys, steps, decoder) == Run([], Ok(()))
    ensures !ExtendsRegistry(Some(tasks), cfg)
  {
  }

  /**
   * With surviving tasks of distinct names, usable attributes (when
   * attributes are on) and a decoder returning one decode per input row, the
   * evaluation completes without an exception: it opens the summary writer,
   * writes every targets file, and extends the feature list.
   */
  lemma EvalSucceeds(tasks: seq<EvalTask>, cfg: EvalConfig, keys: seq<string>, steps: seq<int>, decoder: Decoder)
    requires cfg.batchSize > 0
    requires Keep(tasks, HasMetrics) != [] && DistinctNames(Keep(tasks, HasMetrics))
    requires LabelsAvailable(Keep(tasks, HasMetrics), cfg.attributeBit)
    requires forall step, rows :: |decoder(step, rows)| == |rows|
    ensures EvalSpec(Some(tasks), cfg, keys, steps, decoder).outcome.Ok?
    ensures ExtendsRegistry(Some(tasks), cfg)
    ensures var survivors := Keep(tasks, HasMetrics);
      var effects := EvalSpec(Some(tasks), cfg, keys, steps, decoder).effects;
      |effects| >= 1 + |survivors| &&
      effects[..1 + |survivors|] == [OpenSummaryWriter(SummaryDir(cfg))] + TargetWrites(survivors, CacheCfg(cfg))
  {
    var survivors := Keep(tasks, HasMetrics);
    CacheSucceedsIff(survivors, CacheCfg(cfg));
    CacheWritesAllTargets(survivors, CacheCfg(cfg));
    var loop := EvalSpecOnceCached(tasks, cfg, keys, steps, decoder);
    var c := CacheRun(survivors, CacheCfg(cfg)).outcome.value;
    var registered := keys + Extension(cfg.attributeBit, cfg.controlCodeBool);
    CheckpointsSucceed(steps, survivors, c, cfg, SummaryDir(cfg), registered, decoder);
    var started := [OpenSummaryWriter(SummaryDir(cfg))] + TargetWrites(survivors, CacheCfg(cfg));
    assert (started + loop.effects)[..|started|] == started;
  }

  /** Once the targets are cached, the run is the cache's effects followed by the checkpoint loop's. */
  lemma EvalSpecOnceCached(tasks: seq<EvalTask>, cfg: EvalConfig, keys: seq<string>, steps: seq<int>, decoder: Decoder)
    returns (loop: Run<()>)
    requires cfg.batchSize > 0 && Keep(tasks, HasMetrics) != []
    requires CacheRun(Keep(tasks, HasMetrics), CacheCfg(cfg)).outcome.Ok?
    ensures var survivors := Keep(tasks, HasMetrics);
      var cache := CacheRun(survivors, CacheCfg(cfg));
      && CachedFor(cache.outcome.value, survivors, cfg)
      && loop == CheckpointsRun(steps, survivors, cache.outcome.value, cfg, SummaryDir(cfg),
                                InputRows(survivors, keys + Extension(cfg.attributeBit, cfg.controlCodeBool), cfg.batchSize),
                                decoder)
      && EvalSpec(Some(tasks), cfg, keys, steps, decoder)
         == Run([OpenSummaryWriter(SummaryDir(cfg))] + cache.effects + loop.effects, loop.outcome)
  {
    var survivors := Keep(tasks, HasMetrics);
    CachedForCacheRun(survivors, cfg);
    var cache := CacheRun(survivors, CacheCfg(cfg));
    loop := CheckpointsRun(steps, survivors, cache.outcome.value, cfg, SummaryDir(cfg),
                           InputRows(survivors, keys + Extension(cfg.attributeBit, cfg.controlCodeBool), cfg.batchSize),
                           decoder);
  }

  /** Two tasks sharing a name leave one cache entry, listed once, holding that task's examples and targets. */
  lemma CacheOfRepeatedTask(t: EvalTask, ccfg: CacheConfig)
    requires CacheRun([t, t], ccfg).outcome.Ok?
    ensures var c := CacheRun([t, t], ccfg).outcome.value;
      && c.names == [t.name]
      && t.name in c.examples && c.examples[t.name] == t.examples
      && t.name in c.targets && |c.targets[t.name]| == |t.examples|
  {
    assert [t, t][..1] == [t];
    assert [t][..0] == [];
    var first := CacheRun([t], ccfg);
    assert first == CacheStep(CacheRun([], ccfg), t, ccfg);
    assert CacheRun([t, t], ccfg) == CacheStep(first, t, ccfg);
  }

  /** A task listed twice asks for its examples twice while its targets are counted once. */
  lemma RepeatedTaskCounts(t: EvalTask, c: Caches, cfg: EvalConfig)
    requires CachedFor(c, [t, t], cfg)
    ensures Consumption([t, t], c) == 2 * |t.examples|
    ensures TargetsTotal(c.names, c.targets) == |t.examples|
  {
    CacheOfRepeatedTask(t, CacheCfg(cfg));
    ConsumptionOfTwice(t, c);
    TargetsTotalOfOne(t.name, c.targets);
  }

  lemma ConsumptionOfTwice(t: EvalTask, c: Caches)
    requires t.name in c.examples
    ensures Consumption([t, t], c) == 2 * |c.examples[t.name]|
  {
    assert [t][..0] == [] && [t, t][..1] == [t];
    assert Consumption([t], c) == Consumption([], c) + |c.examples[t.name]|;
  }

  lemma TargetsTotalOfOne(name: string, targets: map<string, seq<string>>)
    requires name in targets
    ensures TargetsTotal([name], targets) == |targets[name]|
  {
    assert [name][..0] == [];
  }

  /**
   * The padding check assumes distinct task names. When the same task is
   * listed twice, both copies take their decodes, but the cached targets
   * count the shared name once. With exactly one decode per input row the
   * check compares the padding of `2n` rows with the padding expected for
   * `n`.
   */
  lemma RepeatedTaskPadCheck(t: EvalTask, c: Caches, step: int, cfg: EvalConfig, dir: string, decodes: seq<string>)
    requires cfg.batchSize > 0 && CachedFor(c, [t, t], cfg)
    requires |decodes| == 2 * |t.examples| + ExpectedPad(2 * |t.examples|, cfg.batchSize)
    ensures CheckpointRun([t, t], c, step, cfg, dir, decodes).outcome ==
            PadCheck(ExpectedPad(2 * |t.examples|, cfg.batchSize), |t.examples|, cfg.batchSize)
  {
    RepeatedTaskCounts(t, c, cfg);
    ConsumeRest([t, t], c, step, cfg, dir, decodes);
    assert |ConsumeRun([t, t], c, step, cfg, dir, decodes).rest| == ExpectedPad(2 * |t.examples|, cfg.batchSize);
  }

  /** One example listed twice with a batch size of 2: no decode is left where one is expected, and the evaluation raises. */
  lemma RepeatedSingleExampleRaises(t: EvalTask, c: Caches, step: int, cfg: EvalConfig, dir: string, decodes: seq<string>)
    requires cfg.batchSize == 2 && |t.examples| == 1 && CachedFor(c, [t, t], cfg) && |decodes| == 2
    ensures CheckpointRun([t, t], c, step, cfg, dir, decodes).outcome ==
            Err(ValueError(Text.IntToString(0) + " padded decodes, " + Text.IntToString(1) + " expected."))
  {
    assert ExpectedPad(2, 2) == 0;
    assert ExpectedPad(1, 2) == 1;
    RepeatedTaskPadCheck(t, c, step, cfg, dir, decodes);
  }
}
