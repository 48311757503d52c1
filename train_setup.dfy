/**
 * Training set-up around the model function: which variables are trained
 * (the variable filter and the parallel filtering of variables and their
 * gradients), which variables are restored from an initial checkpoint, and
 * the list-level effect of the training input pipeline (batch size, batching
 * before repeating).
 */
module TrainSetup {
  import opened Wrappers
  import FeatureImport
  import Arithmetic
  import opened Lists

  // ---------------------------------------------------------------------------
  // Variable filter
  // ---------------------------------------------------------------------------

  /** A trainable variable, known to the bookkeeping by its name. */
  datatype Variable = Variable(name: string)

  /** The values `variable_filter` can take, by their Python type. */
  datatype VariableFilter =
    | NoFilter                                // None
    | PatternFilter(pattern: string)          // a str, compiled as a regular expression
    | CallableFilter(keep: Variable -> bool)  // any callable
    | OtherFilter                             // anything else

  /**
   * The predicate `variable_filter_fn`. `search(pattern, name)` stands for
   * "`re.compile(pattern).search(name)` finds a match"; regular expressions
   * themselves are not modelled.
   */
  function MakeFilter(filter: VariableFilter, search: (string, string) -> bool): (r: Result<Variable -> bool>)
    ensures r.Err? <==> filter.OtherFilter?
    ensures r.Err? ==> r.error == ValueError("variable_filter must be None, a string, or a callable function")
    ensures r.Ok? && filter.NoFilter? ==> forall v :: r.value(v)
    ensures r.Ok? && filter.PatternFilter? ==> forall v :: r.value(v) == search(filter.pattern, v.name)
    ensures r.Ok? && filter.CallableFilter? ==> forall v :: r.value(v) == filter.keep(v)
  {
    match filter
    case PatternFilter(pattern) => Ok((v: Variable) => search(pattern, v.name))
    case NoFilter => Ok((_: Variable) => true)
    case CallableFilter(keep) => Ok(keep)
    case OtherFilter => Err(ValueError("variable_filter must be None, a string, or a callable function"))
  }

  /** `[g for g, v in zip(grads, variables) if keep(v)]`. */
  function KeptGradients<G>(grads: seq<G>, variables: seq<Variable>, keep: Variable -> bool): seq<G>
  {
    if grads == [] || variables == [] then []
    else (if keep(variables[0]) then [grads[0]] else []) + KeptGradients(grads[1..], variables[1..], keep)
  }

  /**
   * The gradients handed to the optimizer line up with the variables it
   * updates: pairing the kept gradients with the kept variables gives exactly
   * the gradient/variable pairs whose variable passes the filter, in order.
   * (One gradient per variable, as `mtf.gradients` returns them.)
   */
  lemma {:induction false} KeptGradientsAligned<G>(grads: seq<G>, variables: seq<Variable>, keep: Variable -> bool)
    requires |grads| == |variables|
    ensures |KeptGradients(grads, variables, keep)| == |Keep(variables, keep)|
    ensures Zip(KeptGradients(grads, variables, keep), Keep(variables, keep)) ==
            Keep(Zip(grads, variables), (p: (G, Variable)) => keep(p.1))
    decreases |grads|
  {
    if grads != [] {
      KeptGradientsAligned(grads[1..], variables[1..], keep);
      var zipped := Zip(grads, variables);
      assert zipped[0] == (grads[0], variables[0]);
      assert zipped[1..] == Zip(grads[1..], variables[1..]);
      var g := KeptGradients(grads[1..], variables[1..], keep);
      var v := Keep(variables[1..], keep);
      if keep(variables[0]) {
        var zg := Zip([grads[0]] + g, [variables[0]] + v);
        assert ([grads[0]] + g)[1..] == g;
        assert ([variables[0]] + v)[1..] == v;
        assert zg == [(grads[0], variables[0])] + Zip(g, v);
      } else {
        assert [] + g == g;
        assert [] + v == v;
      }
    }
  }

  /** With no filter every variable is trained, in the graph's order. */
  lemma {:induction false} NoFilterKeepsAll(variables: seq<Variable>, search: (string, string) -> bool)
    ensures Keep(variables, MakeFilter(NoFilter, search).value) == variables
    decreases |variables|
  {
    if variables != [] {
      NoFilterKeepsAll(variables[1..], search);
      assert [variables[0]] + variables[1..] == variables;
    }
  }

  // ---------------------------------------------------------------------------
  // Initial checkpoint
  // ---------------------------------------------------------------------------

  /** What is logged and restored when starting from an initial checkpoint. */
  datatype RestorePlan = RestorePlan(
    restore: set<string>,            // restored, each into the graph variable of the same name
    onlyInCheckpoint: set<string>,   // logged: in the checkpoint but not in the graph
    onlyInGraph: set<string>,        // logged: in the graph but not in the checkpoint
    assignment: map<string, string>) // the map handed to `init_from_checkpoint`

  /**
   * The restore plan when `init_checkpoint` is truthy (a non-empty path);
   * `checkpointVars` are the names the checkpoint lists and `graphVars` the
   * op names of the graph's global variables.
   */
  function InitFromCheckpoint(initCheckpoint: Option<string>, checkpointVars: set<string>,
                              graphVars: set<string>): (r: Option<RestorePlan>)
    ensures r.Some? <==> initCheckpoint.Some? && initCheckpoint.value != ""
    ensures r.Some? ==> forall v :: v in r.value.restore <==> v in checkpointVars && v in graphVars
    ensures r.Some? ==> r.value.restore + r.value.onlyInCheckpoint == checkpointVars
    ensures r.Some? ==> r.value.restore + r.value.onlyInGraph == graphVars
    ensures r.Some? ==> r.value.restore !! r.value.onlyInCheckpoint && r.value.restore !! r.value.onlyInGraph
    ensures r.Some? ==> r.value.assignment.Keys == r.value.restore
    ensures r.Some? ==> forall v :: v in r.value.assignment ==> r.value.assignment[v] == v
  {
    match initCheckpoint
    case Some(path) =>
      if path == "" then None
      else
        var restore := checkpointVars * graphVars;
        Some(RestorePlan(restore, checkpointVars - graphVars, graphVars - checkpointVars,
                         map v | v in restore :: v))
    case None => None
  }

  // ---------------------------------------------------------------------------
  // Training input pipeline
  // ---------------------------------------------------------------------------

  /** `batch_size * (ensemble_inputs or 1)`; `ensembleInputs == 0` stands for None or 0. */
  function TrainBatchSize(batchSize: nat, ensembleInputs: nat): (n: nat)
    ensures ensembleInputs <= 1 ==> n == batchSize
    ensures ensembleInputs > 1 && batchSize > 0 ==> n > batchSize
    ensures batchSize > 0 ==> n % batchSize == 0
  {
    var copies := if ensembleInputs == 0 then 1 else ensembleInputs;
    if batchSize > 0 then
      Arithmetic.MulMod(batchSize, copies);
      Arithmetic.MulSign(copies - 1, batchSize);
      batchSize * copies
    else 0
  }

  /**
   * A batch from the training pipeline fills the model's logical feature
   * shape exactly: rows of `length` tokens, `batch_size` of them per ensemble
   * member.
   */
  lemma TrainBatchFillsLogicalShape(cfg: FeatureImport.ShapeConfig, length: nat)
    requires cfg.outerBatchSize > 0 && cfg.batchSize % cfg.outerBatchSize == 0
    ensures FeatureImport.Product(FeatureImport.LogicalShape(cfg, length)) ==
            TrainBatchSize(cfg.batchSize, cfg.ensembleInputs) * length
  {
    FeatureImport.LogicalShapeSpec(cfg, length);
    var e := if cfg.ensembleInputs != 0 then cfg.ensembleInputs else 1;
    assert e * cfg.batchSize * length == cfg.batchSize * e * length;
  }

  /** `dataset.batch(n, drop_remainder=True)`: consecutive full batches, the short tail dropped. */
  function BatchDropRemainder<T>(xs: seq<T>, n: nat): (batches: seq<seq<T>>)
    requires n > 0
    ensures |batches| == |xs| / n
    ensures |batches| == 0 <==> |xs| < n
    decreases |xs|
  {
    if |xs| < n then
      Arithmetic.DivByBounds(|xs|, n, 0);
      []
    else
      var rest := BatchDropRemainder(xs[n..], n);
      Arithmetic.DivByBounds(|xs| - n, n, |rest|);
      Arithmetic.DivByBounds(|xs|, n, |rest| + 1);
      [xs[..n]] + rest
  }

  /** Batch `j` of one pass is the contiguous run `xs[j*n .. j*n + n]`. */
  lemma {:induction false} BatchIsSlice<T>(xs: seq<T>, n: nat, j: nat)
    requires n > 0 && j < |xs| / n
    ensures j * n + n <= |xs|
    ensures BatchDropRemainder(xs, n)[j] == xs[j * n .. j * n + n]
    decreases |xs|
  {
    var batches := BatchDropRemainder(xs, n);
    assert |xs| >= n;
    var rest := BatchDropRemainder(xs[n..], n);
    assert batches == [xs[..n]] + rest;
    if j == 0 {
      assert j * n == 0;
    } else {
      assert j - 1 < |rest|;
      BatchIsSlice(xs[n..], n, j - 1);
      assert (j - 1) * n + n == j * n;
      assert xs[n..][(j - 1) * n .. (j - 1) * n + n] == xs[j * n .. j * n + n];
    }
  }

  /**
   * Batch `k` of `dataset.batch(n, drop_remainder=True).repeat()`: the
   * pipeline batches before repeating, so the stream cycles through the same
   * full batches and never joins the end of one pass to the start of the
   * next. None when the dataset holds no full batch (the stream is empty).
   */
  function RepeatedBatch<T>(xs: seq<T>, n: nat, k: nat): (b: Option<seq<T>>)
    requires n > 0
    ensures b.None? <==> |xs| < n
    ensures b.Some? ==> |b.value| == n
  {
    var batches := BatchDropRemainder(xs, n);
    if |batches| == 0 then None
    else
      var j := k % |batches|;
      BatchIsSlice(xs, n, j);
      Some(batches[j])
  }

  /** Every batch of the repeated stream is one contiguous run of a single pass, and the stream is periodic. */
  lemma RepeatedBatchWithinOnePass<T>(xs: seq<T>, n: nat, k: nat)
    requires n > 0 && |xs| >= n
    ensures var j := k % (|xs| / n);
      && j * n + n <= |xs|
      && RepeatedBatch(xs, n, k) == Some(xs[j * n .. j * n + n])
      && RepeatedBatch(xs, n, k + |xs| / n) == RepeatedBatch(xs, n, k)
  {
    var m := |xs| / n;
    BatchIsSlice(xs, n, k % m);
    Arithmetic.ModPeriod(k, m);
  }
}
