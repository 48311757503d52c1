/**
 * The set-up half of `eval_model_ll`: which evaluation tasks survive, the
 * targets, examples and origin-attribute labels cached per task name before
 * any checkpoint is decoded (writing each task's targets file on the way),
 * and the module-level list of feature keys passed to the model, which every
 * call extends.
 */
module EvalTasks {
  import opened Wrappers
  import opened Lists
  import Text

  /** One tokenized evaluation example: its integer features by key, and its plain-text target. */
  datatype Example = Example(features: map<string, seq<int>>, targetsPlaintext: string)

  /**
   * An `EvalDataset`: the task's name, its examples (what `dataset_fn()`
   * yields, the same on every call), and its post-processing and metric
   * functions, known by identifiers.
   */
  datatype EvalTask = EvalTask(name: string, examples: seq<Example>, postprocessFn: nat, metricFns: seq<nat>)

  /**
   * `postprocess_fn(text, example=ex, is_target=...)` of the task whose
   * post-processing function has the given identifier; its behaviour is a
   * parameter of the model.
   */
  type Postprocessor = (nat, string, Example, bool) -> string

  /** What the driver does outside its own state, in order. */
  datatype Effect =
    | OpenSummaryWriter(dir: string)
    | WriteLibrary(path: string, lines: seq<string>)   // the library's `write_lines_to_file`
    | WriteEscaped(path: string, lines: seq<string>)   // `write_lines_to_file_ll`
    | MetricCall(task: string, metricFn: nat, step: int, targets: seq<string>,
                 predictions: seq<string>, attributesOrigin: Option<seq<string>>)
    | FlushSummaries

  /** The effects performed, and either the value computed or the exception that stopped the run. */
  datatype Run<T> = Run(effects: seq<Effect>, outcome: Result<T>)

  // ---------------------------------------------------------------------------
  // Task selection
  // ---------------------------------------------------------------------------

  predicate HasMetrics(t: EvalTask) {
    |t.metricFns| > 0
  }

  /**
   * The selection loop: a task whose `metric_fns` is empty is skipped, every
   * other task is kept, in order.
   */
  method SelectTasks(tasks: seq<EvalTask>) returns (survivors: seq<EvalTask>)
    ensures survivors == Keep(tasks, HasMetrics)
    ensures forall i :: 0 <= i < |survivors| ==> HasMetrics(survivors[i]) && survivors[i] in tasks
    ensures forall i :: 0 <= i < |tasks| && HasMetrics(tasks[i]) ==> tasks[i] in survivors
  {
    survivors := [];
    var i := 0;
    while i < |tasks|
      invariant 0 <= i <= |tasks|
      invariant survivors == Keep(tasks[..i], HasMetrics)
    {
      KeepAppend(tasks[..i], [tasks[i]], HasMetrics);
      assert tasks[..i + 1] == tasks[..i] + [tasks[i]];
      if HasMetrics(tasks[i]) {
        survivors := survivors + [tasks[i]];
      }
      i := i + 1;
    }
    assert tasks[..i] == tasks;
  }

  // ---------------------------------------------------------------------------
  // Per-task caches
  // ---------------------------------------------------------------------------

  /**
   * `str(ex["attribute"][0] - 1)`: the example's origin attribute, shifted
   * from the one-based attribute feature to a zero-based label.
   */
  function OriginLabel(ex: Example): (r: Result<string>)
    ensures r.Err? <==> "attribute" !in ex.features || |ex.features["attribute"]| == 0
    ensures r.Err? ==> r.error == (if "attribute" !in ex.features then KeyError("attribute") else IndexError)
    ensures r.Ok? ==> Text.ParseInt(r.value) == Some(ex.features["attribute"][0] - 1)
    ensures r.Ok? ==> Text.CanonicalInt(r.value)
  {
    if "attribute" !in ex.features then Err(KeyError("attribute"))
    else if |ex.features["attribute"]| == 0 then Err(IndexError)
    else
      var zeroBased := ex.features["attribute"][0] - 1;
      Text.IntToStringRoundTrip(zeroBased);
      Text.IntToStringCanonical(zeroBased);
      Ok(Text.IntToString(zeroBased))
  }

  /** The origin labels of a task's examples, in order; the first failing example stops the list. */
  function OriginLabels(examples: seq<Example>): Result<seq<string>>
  {
    if examples == [] then Ok([])
    else
      var first :- OriginLabel(examples[0]);
      var rest :- OriginLabels(examples[1..]);
      Ok([first] + rest)
  }

  /**
   * The labels of a task: one per example, in order, each the example's own
   * label; or the exception of the first example without a usable attribute.
   */
  lemma {:induction false} OriginLabelsSpec(examples: seq<Example>)
    ensures OriginLabels(examples).Ok? <==> forall i :: 0 <= i < |examples| ==> OriginLabel(examples[i]).Ok?
    ensures OriginLabels(examples).Ok? ==> |OriginLabels(examples).value| == |examples|
    ensures OriginLabels(examples).Ok? ==>
      forall i :: 0 <= i < |examples| ==> OriginLabels(examples).value[i] == OriginLabel(examples[i]).value
    ensures OriginLabels(examples).Err? ==>
      exists i :: 0 <= i < |examples| && OriginLabel(examples[i]) == Err(OriginLabels(examples).error) &&
        forall j :: 0 <= j < i ==> OriginLabel(examples[j]).Ok?
    decreases |examples|
  {
    if examples != [] {
      var rest := examples[1..];
      OriginLabelsSpec(rest);
      if OriginLabel(examples[0]).Err? {
        assert OriginLabels(examples) == Err(OriginLabel(examples[0]).error);
      } else if OriginLabels(rest).Err? {
        var i :| 0 <= i < |rest| && OriginLabel(rest[i]) == Err(OriginLabels(rest).error) &&
          forall j :: 0 <= j < i ==> OriginLabel(rest[j]).Ok?;
        assert examples[i + 1] == rest[i];
        forall j | 0 < j < i + 1
          ensures OriginLabel(examples[j]).Ok?
        {
          assert examples[j] == rest[j - 1];
        }
      } else {
        forall i | 0 < i < |examples|
          ensures OriginLabel(examples[i]) == OriginLabel(rest[i - 1])
        {
          assert examples[i] == rest[i - 1];
        }
      }
    }
  }

  /** The post-processed targets of a list of examples, one per example, in order. */
  function PostprocessTargets(examples: seq<Example>, fn: nat, postprocess: Postprocessor): (targets: seq<string>)
    ensures |targets| == |examples|
    ensures forall i :: 0 <= i < |targets| ==>
      targets[i] == postprocess(fn, examples[i].targetsPlaintext, examples[i], true)
  {
    if examples == [] then []
    else [postprocess(fn, examples[0].targetsPlaintext, examples[0], true)]
         + PostprocessTargets(examples[1..], fn, postprocess)
  }

  /** The post-processed targets of a task. */
  function TargetsOf(t: EvalTask, postprocess: Postprocessor): seq<string>
  {
    PostprocessTargets(t.examples, t.postprocessFn, postprocess)
  }

  /** `os.path.join(a, b)`. */
  function PathJoin(a: string, b: string): string
  {
    if |b| > 0 && b[0] == '/' then b
    else if a == [] || a[|a| - 1] == '/' then a + b
    else a + "/" + b
  }

  function TargetsPath(dir: string, name: string): string
  {
    PathJoin(dir, name + "_targets")
  }

  /**
   * The three dictionaries keyed by task name (`cached_targets`,
   * `cached_examples`, `cached_attributes_origin`), and the order in which
   * names were first inserted (the dictionaries' iteration order).
   */
  datatype Caches = Caches(
    names: seq<string>,
    targets: map<string, seq<string>>,
    examples: map<string, seq<Example>>,
    origins: map<string, seq<string>>)

  const EmptyCaches := Caches([], map[], map[], map[])

  /** The caches are keyed by the distinct names of `names`, and the origin labels only for names the targets have. */
  ghost predicate CachesValid(c: Caches) {
    && (forall i, j :: 0 <= i < j < |c.names| ==> c.names[i] != c.names[j])
    && (forall n :: n in c.targets <==> n in c.names)
    && (forall n :: n in c.examples <==> n in c.names)
  }

  datatype CacheConfig = CacheConfig(attributeBit: bool, summaryDir: string, postprocess: Postprocessor)

  /** One task's entry: a later task with the same name overwrites an earlier one. */
  function Store(c: Caches, name: string, targets: seq<string>, examples: seq<Example>,
                 labels: Option<seq<string>>): Caches
  {
    Caches(
      if name in c.targets then c.names else c.names + [name],
      c.targets[name := targets],
      c.examples[name := examples],
      if labels.Some? then c.origins[name := labels.value] else c.origins)
  }

  lemma StoreKeepsValid(c: Caches, name: string, targets: seq<string>, examples: seq<Example>,
                        labels: Option<seq<string>>)
    requires CachesValid(c)
    ensures CachesValid(Store(c, name, targets, examples, labels))
  {
  }

  /** The labels stored for a task: its origin labels when `attribute_bit` is set, nothing otherwise. */
  function LabelsFor(t: EvalTask, attributeBit: bool): Result<Option<seq<string>>>
  {
    if !attributeBit then Ok(None)
    else
      var labels :- OriginLabels(t.examples);
      Ok(Some(labels))
  }

  /**
   * The caching loop over `tasks`, defined by its last iteration: each task's
   * targets are post-processed, its origin labels computed when
   * `attribute_bit` is set (an example without a usable attribute stops the
   * run), its targets file written with the library writer, and its entries
   * stored under its name.
   */
  function CacheRun(tasks: seq<EvalTask>, cfg: CacheConfig): Run<Caches>
    decreases |tasks|
  {
    if tasks == [] then Run([], Ok(EmptyCaches))
    else CacheStep(CacheRun(tasks[..|tasks| - 1], cfg), tasks[|tasks| - 1], cfg)
  }

  /** One iteration of the caching loop, for task `t`. */
  function CacheStep(prev: Run<Caches>, t: EvalTask, cfg: CacheConfig): Run<Caches>
  {
    var targets := TargetsOf(t, cfg.postprocess);
    var labels := LabelsFor(t, cfg.attributeBit);
    if prev.outcome.Err? then prev
    else if labels.Err? then Run(prev.effects, Err(labels.error))
    else Run(prev.effects + [WriteLibrary(TargetsPath(cfg.summaryDir, t.name), targets)],
             Ok(Store(prev.outcome.value, t.name, targets, t.examples, labels.value)))
  }

  lemma CacheRunExtend(tasks: seq<EvalTask>, i: nat, cfg: CacheConfig)
    requires i < |tasks|
    ensures CacheRun(tasks[..i + 1], cfg) == CacheStep(CacheRun(tasks[..i], cfg), tasks[i], cfg)
  {
    assert tasks[..i + 1][..i] == tasks[..i];
  }

  /** Once the caching loop has stopped with an exception, later tasks change nothing. */
  lemma {:induction false} CacheRunStops(tasks: seq<EvalTask>, k: nat, cfg: CacheConfig)
    requires k <= |tasks| && CacheRun(tasks[..k], cfg).outcome.Err?
    ensures CacheRun(tasks, cfg) == CacheRun(tasks[..k], cfg)
    decreases |tasks|
  {
    if k < |tasks| {
      var init := tasks[..|tasks| - 1];
      assert init[..k] == tasks[..k];
      CacheRunStops(init, k, cfg);
    } else {
      assert tasks[..k] == tasks;
    }
  }

  /**
   * One iteration of the caching loop: post-process the task's targets,
   * compute its origin labels when `attribute_bit` is set, write its targets
   * file and store its entries.
   */
  method CacheTask(c: Caches, effects: seq<Effect>, t: EvalTask, cfg: CacheConfig) returns (r: Run<Caches>)
    ensures r == CacheStep(Run(effects, Ok(c)), t, cfg)
  {
    var targets := TargetsOf(t, cfg.postprocess);
    var labels: Option<seq<string>> := None;
    if cfg.attributeBit {
      var computed := OriginLabels(t.examples);
      if computed.Err? {
        return Run(effects, Err(computed.error));
      }
      labels := Some(computed.value);
    }
    r := Run(effects + [WriteLibrary(TargetsPath(cfg.summaryDir, t.name), targets)],
             Ok(Store(c, t.name, targets, t.examples, labels)));
  }

  /** The caching loop over the surviving tasks, recorded with the targets files it writes. */
  method BuildCaches(tasks: seq<EvalTask>, cfg: CacheConfig) returns (r: Run<Caches>)
    ensures r == CacheRun(tasks, cfg)
  {
    var c := EmptyCaches;
    var effects: seq<Effect> := [];
    var i := 0;
    while i < |tasks|
      invariant 0 <= i <= |tasks|
      invariant CacheRun(tasks[..i], cfg) == Run(effects, Ok(c))
    {
      CacheRunExtend(tasks, i, cfg);
      var step := CacheTask(c, effects, tasks[i], cfg);
      if step.outcome.Err? {
        CacheRunStops(tasks, i + 1, cfg);
        return step;
      }
      effects, c := step.effects, step.outcome.value;
      i := i + 1;
    }
    assert tasks[..i] == tasks;
    r := Run(effects, Ok(c));
  }

  /** The targets files the caching loop writes for `tasks`, in order. */
  function TargetWrites(tasks: seq<EvalTask>, cfg: CacheConfig): (writes: seq<Effect>)
    ensures |writes| == |tasks|
    ensures forall k :: 0 <= k < |tasks| ==>
      writes[k] == WriteLibrary(TargetsPath(cfg.summaryDir, tasks[k].name), TargetsOf(tasks[k], cfg.postprocess))
    decreases |tasks|
  {
    if tasks == [] then []
    else
      var n := |tasks| - 1;
      TargetWrites(tasks[..n], cfg) + [WriteLibrary(TargetsPath(cfg.summaryDir, tasks[n].name), TargetsOf(tasks[n], cfg.postprocess))]
  }

  /** Every example of every task has a usable attribute (or attributes are not used). */
  predicate LabelsAvailable(tasks: seq<EvalTask>, attributeBit: bool) {
    forall k :: 0 <= k < |tasks| ==> LabelsFor(tasks[k], attributeBit).Ok?
  }

  /**
   * The caching loop succeeds exactly when every example's origin label can
   * be computed (or attributes are not used).
   */
  lemma {:induction false} CacheSucceedsIff(tasks: seq<EvalTask>, cfg: CacheConfig)
    ensures CacheRun(tasks, cfg).outcome.Ok? <==> LabelsAvailable(tasks, cfg.attributeBit)
    decreases |tasks|
  {
    if tasks != [] {
      var n := |tasks| - 1;
      CacheSucceedsIff(tasks[..n], cfg);
      LabelsAvailableSplit(tasks, cfg.attributeBit);
      assert CacheRun(tasks, cfg) == CacheStep(CacheRun(tasks[..n], cfg), tasks[n], cfg);
    }
  }

  lemma LabelsAvailableSplit(tasks: seq<EvalTask>, a: bool)
    requires tasks != []
    ensures LabelsAvailable(tasks, a) <==>
            LabelsAvailable(tasks[..|tasks| - 1], a) && LabelsFor(tasks[|tasks| - 1], a).Ok?
  {
    var n := |tasks| - 1;
    var init := tasks[..n];
    if LabelsAvailable(init, a) && LabelsFor(tasks[n], a).Ok? {
      forall k | 0 <= k < |tasks| ensures LabelsFor(tasks[k], a).Ok? {
        if k < n {
          assert tasks[k] == init[k];
        }
      }
    }
    if LabelsAvailable(tasks, a) {
      forall k | 0 <= k < n ensures LabelsFor(init[k], a).Ok? {
        assert tasks[k] == init[k];
      }
    }
  }

  /** On success, the targets file of every task has been written, in task order. */
  lemma {:induction false} CacheWritesAllTargets(tasks: seq<EvalTask>, cfg: CacheConfig)
    requires CacheRun(tasks, cfg).outcome.Ok?
    ensures CacheRun(tasks, cfg).effects == TargetWrites(tasks, cfg)
    decreases |tasks|
  {
    if tasks != [] {
      var n := |tasks| - 1;
      var init := tasks[..n];
      CacheWritesAllTargets(init, cfg);
    }
  }

  /**
   * On failure, the loop stopped at a task `k` holding an example without a
   * usable attribute, with that example's exception, after every earlier
   * task succeeded and had its targets file written.
   */
  lemma {:induction false} CacheStopsAtFailingTask(tasks: seq<EvalTask>, cfg: CacheConfig)
    requires CacheRun(tasks, cfg).outcome.Err?
    ensures exists k :: 0 <= k < |tasks| && StopsAt(tasks, cfg, k)
    decreases |tasks|
  {
    var n := |tasks| - 1;
    var init := tasks[..n];
    if CacheRun(init, cfg).outcome.Err? {
      CacheStopsAtFailingTask(init, cfg);
      var k :| 0 <= k < n && StopsAt(init, cfg, k);
      CacheRunStops(tasks, n, cfg);
      assert init[..k] == tasks[..k];
      assert tasks[k] == init[k];
      assert StopsAt(tasks, cfg, k);
    } else {
      CacheSucceedsIff(init, cfg);
      CacheWritesAllTargets(init, cfg);
      assert tasks[..n] == init;
      assert StopsAt(tasks, cfg, n);
    }
  }

  /** The caching loop over `tasks` stopped at task `k`, as described above. */
  predicate StopsAt(tasks: seq<EvalTask>, cfg: CacheConfig, k: nat)
    requires k < |tasks|
  {
    && cfg.attributeBit
    && LabelsAvailable(tasks[..k], cfg.attributeBit)
    && CacheRun(tasks, cfg).outcome.Err?
    && OriginLabels(tasks[k].examples) == Err(CacheRun(tasks, cfg).outcome.error)
    && CacheRun(tasks, cfg).effects == TargetWrites(tasks[..k], cfg)
  }

  /** `[t.name for t in tasks]`. */
  function NamesOf(tasks: seq<EvalTask>): (names: seq<string>)
    ensures |names| == |tasks|
    ensures forall k :: 0 <= k < |tasks| ==> names[k] == tasks[k].name
    decreases |tasks|
  {
    if tasks == [] then [] else NamesOf(tasks[..|tasks| - 1]) + [tasks[|tasks| - 1].name]
  }

  /** No later task has the same name as `tasks[k]`. */
  predicate LastWithName(tasks: seq<EvalTask>, k: nat)
    requires k < |tasks|
  {
    forall j :: k < j < |tasks| ==> tasks[j].name != tasks[k].name
  }

  /** After a successful caching loop the caches are keyed by exactly the tasks' names, each listed once. */
  lemma {:induction false} CacheKeys(tasks: seq<EvalTask>, cfg: CacheConfig)
    requires CacheRun(tasks, cfg).outcome.Ok?
    ensures CachesValid(CacheRun(tasks, cfg).outcome.value)
    ensures forall name :: name in CacheRun(tasks, cfg).outcome.value.targets <==> name in NamesOf(tasks)
    ensures cfg.attributeBit ==> forall name :: name in NamesOf(tasks) ==> name in CacheRun(tasks, cfg).outcome.value.origins
    decreases |tasks|
  {
    if tasks != [] {
      var n := |tasks| - 1;
      var init := tasks[..n];
      var t := tasks[n];
      CacheKeys(init, cfg);
      var p := CacheRun(init, cfg).outcome.value;
      var labels := LabelsFor(t, cfg.attributeBit);
      StoreKeepsValid(p, t.name, TargetsOf(t, cfg.postprocess), t.examples, labels.value);
    }
  }

  /** Every task finds its entries in the caches, as the checkpoint loop's dictionary lookups need. */
  predicate Covers(c: Caches, tasks: seq<EvalTask>, attributeBit: bool) {
    forall k :: 0 <= k < |tasks| ==>
      tasks[k].name in c.targets && tasks[k].name in c.examples && (attributeBit ==> tasks[k].name in c.origins)
  }

  lemma CacheCovers(tasks: seq<EvalTask>, cfg: CacheConfig)
    requires CacheRun(tasks, cfg).outcome.Ok?
    ensures Covers(CacheRun(tasks, cfg).outcome.value, tasks, cfg.attributeBit)
  {
    CacheKeys(tasks, cfg);
    var c := CacheRun(tasks, cfg).outcome.value;
    forall k | 0 <= k < |tasks|
      ensures tasks[k].name in c.targets && tasks[k].name in c.examples && (cfg.attributeBit ==> tasks[k].name in c.origins)
    {
      assert NamesOf(tasks)[k] == tasks[k].name;
    }
  }

  /**
   * A name maps to the targets, examples and (with `attribute_bit`) origin
   * labels of the LAST task carrying it: a later task with the same name
   * overwrites the entries of an earlier one.
   */
  lemma {:induction false} CacheLastWins(tasks: seq<EvalTask>, cfg: CacheConfig, k: nat)
    requires CacheRun(tasks, cfg).outcome.Ok?
    requires k < |tasks| && LastWithName(tasks, k)
    ensures var c := CacheRun(tasks, cfg).outcome.value;
      && tasks[k].name in c.targets && c.targets[tasks[k].name] == TargetsOf(tasks[k], cfg.postprocess)
      && tasks[k].name in c.examples && c.examples[tasks[k].name] == tasks[k].examples
      && (cfg.attributeBit ==> OriginLabels(tasks[k].examples).Ok? && tasks[k].name in c.origins &&
                               c.origins[tasks[k].name] == OriginLabels(tasks[k].examples).value)
    decreases |tasks|
  {
    CacheSucceedsIff(tasks, cfg);
    assert LabelsFor(tasks[k], cfg.attributeBit).Ok?;
    var n := |tasks| - 1;
    var init := tasks[..n];
    var t := tasks[n];
    CacheSucceedsIff(init, cfg);
    assert CacheRun(tasks, cfg) == CacheStep(CacheRun(init, cfg), t, cfg);
    var labels := LabelsFor(t, cfg.attributeBit).value;
    if k < n {
      assert tasks[k] == init[k];
      assert t.name != tasks[k].name;
      assert LastWithName(init, k) by {
        forall j | k < j < |init| ensures init[j].name != init[k].name {
          assert init[j] == tasks[j];
        }
      }
      CacheLastWins(init, cfg, k);
      StoreKeepsOthers(CacheRun(init, cfg).outcome.value, t.name, TargetsOf(t, cfg.postprocess), t.examples,
                       labels, tasks[k].name);
    }
  }

  /** Storing one name's entries leaves every other name's entries as they were. */
  lemma StoreKeepsOthers(c: Caches, name: string, targets: seq<string>, examples: seq<Example>,
                         labels: Option<seq<string>>, other: string)
    requires other != name
    ensures var d := Store(c, name, targets, examples, labels);
      && (other in d.targets <==> other in c.targets)
      && (other in c.targets ==> d.targets[other] == c.targets[other])
      && (other in d.examples <==> other in c.examples)
      && (other in c.examples ==> d.examples[other] == c.examples[other])
      && (other in d.origins <==> other in c.origins)
      && (other in c.origins ==> d.origins[other] == c.origins[other])
  {
  }

  /** With distinct task names, the caches hold each task's own entries. */
  lemma CacheOfDistinctTasks(tasks: seq<EvalTask>, cfg: CacheConfig)
    requires forall i, j :: 0 <= i < j < |tasks| ==> tasks[i].name != tasks[j].name
    requires CacheRun(tasks, cfg).outcome.Ok?
    ensures var c := CacheRun(tasks, cfg).outcome.value;
      forall k :: 0 <= k < |tasks| ==>
        tasks[k].name in c.targets && c.targets[tasks[k].name] == TargetsOf(tasks[k], cfg.postprocess) &&
        tasks[k].name in c.examples && c.examples[tasks[k].name] == tasks[k].examples
  {
    forall k | 0 <= k < |tasks|
      ensures var c := CacheRun(tasks, cfg).outcome.value;
        tasks[k].name in c.targets && c.targets[tasks[k].name] == TargetsOf(tasks[k], cfg.postprocess) &&
        tasks[k].name in c.examples && c.examples[tasks[k].name] == tasks[k].examples
    {
      CacheLastWins(tasks, cfg, k);
    }
  }

  /** With distinct task names, the caches list the names in task order (the order their values are summed in). */
  lemma {:induction false} CacheNamesInOrder(tasks: seq<EvalTask>, cfg: CacheConfig)
    requires forall i, j :: 0 <= i < j < |tasks| ==> tasks[i].name != tasks[j].name
    requires CacheRun(tasks, cfg).outcome.Ok?
    ensures CacheRun(tasks, cfg).outcome.value.names == NamesOf(tasks)
    decreases |tasks|
  {
    if tasks != [] {
      var n := |tasks| - 1;
      var init := tasks[..n];
      var t := tasks[n];
      assert forall i, j :: 0 <= i < j < |init| ==> init[i].name != init[j].name;
      CacheNamesInOrder(init, cfg);
      CacheKeys(init, cfg);
      assert t.name !in NamesOf(init);
    }
  }

  // ---------------------------------------------------------------------------
  // The module-level feature list
  // ---------------------------------------------------------------------------

  /** The feature keys the module starts with. */
  const InitialInputFeatures: seq<string> := [
    "inputs", "inputs_position", "inputs_segmentation", "targets",
    "targets_position", "targets_segmentation", "targets_subsegmentation"]

  /** The keys added when control codes are used. */
  const ControlCodeFeatures: seq<string> := [
    "controlcode", "controlcode_position", "controlcode_segmentation", "controlcode_subsegmentation",
    "codeprefixedtargets", "codeprefixedtargets_position", "codeprefixedtargets_segmentation",
    "codeprefixedtargets_subsegmentation"]

  /** What one call of the driver appends to the list. */
  function Extension(attributeBit: bool, controlCodeBool: bool): seq<string>
  {
    (if attributeBit then ["attribute"] else []) + (if controlCodeBool then ControlCodeFeatures else [])
  }

  /**
   * `_INPUT_FEATURES_ll`: a list shared by every call of the driver in the
   * process, extended in place on each call and never reset.
   */
  class FeatureRegistry {
    var keys: seq<string>

    constructor()
      ensures keys == InitialInputFeatures
    {
      keys := InitialInputFeatures;
    }

    /** `append("attribute")` and/or `extend([...control-code keys...])`. */
    method Extend(attributeBit: bool, controlCodeBool: bool)
      modifies this
      ensures keys == old(keys) + Extension(attributeBit, controlCodeBool)
    {
      if attributeBit {
        keys := keys + ["attribute"];
      }
      if controlCodeBool {
        keys := keys + ControlCodeFeatures;
      }
    }
  }

  /** `{k: v for k, v in x.items() if k in _INPUT_FEATURES_ll}`: the features the model is given. */
  function SelectFeatures(ex: Example, keys: seq<string>): (selected: map<string, seq<int>>)
    ensures forall k :: k in selected <==> k in ex.features && k in keys
    ensures forall k :: k in selected ==> selected[k] == ex.features[k]
  {
    map k | k in ex.features && k in keys :: ex.features[k]
  }

  /**
   * Calling the driver again with the same flags makes the shared list
   * longer (the keys are duplicated) but leaves its membership, and so the
   * features every example passes to the model, unchanged.
   */
  lemma RepeatedCallsKeepSelection(keys: seq<string>, attributeBit: bool, controlCodeBool: bool, ex: Example)
    ensures var once := keys + Extension(attributeBit, controlCodeBool);
      var twice := once + Extension(attributeBit, controlCodeBool);
      && |twice| == |once| + |Extension(attributeBit, controlCodeBool)|
      && (forall k :: k in twice <==> k in once)
      && SelectFeatures(ex, twice) == SelectFeatures(ex, once)
  {
    var once := keys + Extension(attributeBit, controlCodeBool);
    var twice := once + Extension(attributeBit, controlCodeBool);
    assert forall k :: k in twice <==> k in once;
    assert SelectFeatures(ex, twice).Keys == SelectFeatures(ex, once).Keys;
  }

  /** The first call with attributes adds exactly the `attribute` key to what the model receives. */
  lemma AttributeBecomesVisible(ex: Example)
    requires "attribute" in ex.features
    ensures "attribute" !in SelectFeatures(ex, InitialInputFeatures)
    ensures var keys := InitialInputFeatures + Extension(true, false);
      "attribute" in SelectFeatures(ex, keys) && SelectFeatures(ex, keys)["attribute"] == ex.features["attribute"]
  {
    assert Extension(true, false) == ["attribute"];
    assert (InitialInputFeatures + ["attribute"])[7] == "attribute";
  }
}
