/**
 * Feature import in the model function (`my_model_fn` inside
 * `tpu_estimator_model_fn_ll`): every physical feature is imported into the
 * mesh graph with a logical shape whose length comes from the sequence-length
 * table, looked up by the part of the feature key before its first `_`.
 * Tensors themselves are not modelled: a feature is its key, an imported
 * feature is its logical shape.
 */
module FeatureImport {
  import opened Wrappers
  import opened Text

  /** `key.split("_")[0]`: the feature family a key belongs to ("inputs" for "inputs_position"). */
  function BaseKey(key: string): (base: string)
    ensures |base| <= |key| && base == key[..|base|]
    ensures '_' !in base
    ensures base == key || key[|base|] == '_'
  {
    BaseKeyIsFirstPiece(key);
    Split(key, "_")[0]
  }

  lemma BaseKeyIsFirstPiece(key: string)
    ensures var base := Split(key, "_")[0];
      && |base| <= |key| && base == key[..|base|] && '_' !in base
      && (base == key || key[|base|] == '_')
  {
    match IndexOf(key, "_")
    case None =>
      forall j | 0 <= j < |key| ensures key[j] != '_' {
        assert !OccursAt(key, "_", j);
        assert key[j..j + 1] == [key[j]];
      }
    case Some(i) =>
      assert key[i..i + 1] == "_";
      forall j | 0 <= j < i ensures key[..i][j] != '_' {
        assert !OccursAt(key, "_", j);
        assert key[j..j + 1] == [key[j]];
      }
  }

  /** A suffixed auxiliary feature ("inputs_segmentation") belongs to the family of its stem. */
  lemma BaseKeyOfSuffixed(stem: string, suffix: string)
    requires '_' !in stem
    ensures BaseKey(stem + "_" + suffix) == stem
  {
    var key := stem + "_" + suffix;
    var base := BaseKey(key);
    assert key[|stem|] == '_';
    assert forall j :: 0 <= j < |stem| ==> key[j] == stem[j] != '_';
    assert forall j :: 0 <= j < |base| ==> key[j] == base[j] != '_';
    assert key[..|stem|] == stem;
  }

  /** `sequence_length[key.split("_")[0]]`; a family missing from the table is a `KeyError`. */
  function FeatureLength(sequenceLength: map<string, nat>, key: string): (r: Result<nat>)
    ensures r.Ok? <==> BaseKey(key) in sequenceLength
    ensures r.Ok? ==> r.value == sequenceLength[BaseKey(key)]
    ensures r.Err? ==> r.error == KeyError(BaseKey(key))
  {
    var base := BaseKey(key);
    if base in sequenceLength then Ok(sequenceLength[base]) else Err(KeyError(base))
  }

  /** A feature and its packing sidecars share one length. */
  lemma SidecarsShareLength(sequenceLength: map<string, nat>, stem: string, suffix: string)
    requires '_' !in stem
    ensures FeatureLength(sequenceLength, stem + "_" + suffix) == FeatureLength(sequenceLength, stem)
  {
    BaseKeyOfSuffixed(stem, suffix);
    assert BaseKey(stem) == stem;
  }

  /**
   * The sizes the import uses. `ensembleInputs` is 0 when the source's
   * `ensemble_inputs` is falsy (None or 0).
   */
  datatype ShapeConfig = ShapeConfig(batchSize: nat, outerBatchSize: nat, ensembleInputs: nat)

  /** `[ensemble]` (only when ensembling) + `[outer_batch, batch // outer_batch, length]`. */
  function LogicalShape(cfg: ShapeConfig, length: nat): (shape: seq<nat>)
    requires cfg.outerBatchSize > 0
  {
    (if cfg.ensembleInputs != 0 then [cfg.ensembleInputs] else [])
      + [cfg.outerBatchSize, cfg.batchSize / cfg.outerBatchSize, length]
  }

  /** The number of elements a tensor of this shape holds. */
  function Product(shape: seq<nat>): nat
  {
    if shape == [] then 1 else shape[0] * Product(shape[1..])
  }

  /**
   * The logical shape ends with the length of the feature's family, has a
   * leading ensemble dimension exactly when ensembling, and holds
   * `batch_size * length` elements per ensemble member when the outer batch
   * divides the batch.
   */
  lemma LogicalShapeSpec(cfg: ShapeConfig, length: nat)
    requires cfg.outerBatchSize > 0
    ensures var shape := LogicalShape(cfg, length);
      && |shape| == (if cfg.ensembleInputs != 0 then 4 else 3)
      && shape[|shape| - 1] == length
      && shape[|shape| - 3] == cfg.outerBatchSize
      && (cfg.ensembleInputs != 0 ==> shape[0] == cfg.ensembleInputs)
      && (cfg.batchSize % cfg.outerBatchSize == 0 ==>
            Product(shape) == (if cfg.ensembleInputs != 0 then cfg.ensembleInputs else 1) * cfg.batchSize * length)
  {
    var shape := LogicalShape(cfg, length);
    var o, b := cfg.outerBatchSize, cfg.batchSize;
    var tail := [o, b / o, length];
    assert Product(tail) == o * ((b / o) * length) by {
      assert tail[1..] == [b / o, length];
      assert tail[1..][1..] == [length];
      assert Product([length]) == length * Product([]);
    }
    if b % o == 0 {
      assert o * (b / o) == b;
      assert o * ((b / o) * length) == (o * (b / o)) * length;
    }
    if cfg.ensembleInputs != 0 {
      assert shape[1..] == tail;
    } else {
      assert shape == tail;
    }
  }

  /** The predict branch reshapes every feature to `[batch_size, length]`. */
  function PredictShape(cfg: ShapeConfig, length: nat): seq<nat>
  {
    [cfg.batchSize, length]
  }

  /**
   * The predict-mode reshape keeps the element count when there is no
   * ensemble dimension and the outer batch divides the batch.
   */
  lemma PredictReshapeKeepsSize(cfg: ShapeConfig, length: nat)
    requires cfg.outerBatchSize > 0 && cfg.ensembleInputs == 0
    requires cfg.batchSize % cfg.outerBatchSize == 0
    ensures Product(LogicalShape(cfg, length)) == Product(PredictShape(cfg, length))
  {
    LogicalShapeSpec(cfg, length);
    var p := PredictShape(cfg, length);
    assert Product(p) == cfg.batchSize * length by {
      assert p[1..] == [length];
      assert Product(p[1..]) == length * Product([]);
    }
  }

  /** The keys whose import refreshes `anon_targets`, the label tensor of eval mode. */
  predicate IsLabelKey(key: string) {
    key == "targets" || key == "codeprefixedtargets" || key == "controlcode"
  }

  /** The label key that is left in `anon_targets` once every key has been imported. */
  function LastLabelKey(keys: seq<string>): Option<string>
  {
    if keys == [] then None
    else if IsLabelKey(keys[|keys| - 1]) then Some(keys[|keys| - 1])
    else LastLabelKey(keys[..|keys| - 1])
  }

  /** The label is the last label key in iteration order; there is none when no label key is imported. */
  lemma {:induction false} LastLabelKeySpec(keys: seq<string>)
    ensures LastLabelKey(keys).None? <==> forall k :: k in keys ==> !IsLabelKey(k)
    ensures LastLabelKey(keys).Some? ==>
      exists i :: 0 <= i < |keys| && keys[i] == LastLabelKey(keys).value && IsLabelKey(keys[i])
        && forall j :: i < j < |keys| ==> !IsLabelKey(keys[j])
  {
    if keys != [] {
      var n := |keys| - 1;
      LastLabelKeySpec(keys[..n]);
      assert keys == keys[..n] + [keys[n]];
      if !IsLabelKey(keys[n]) && LastLabelKey(keys[..n]).Some? {
        var i :| 0 <= i < n && keys[..n][i] == LastLabelKey(keys[..n]).value && IsLabelKey(keys[..n][i])
          && forall j :: i < j < n ==> !IsLabelKey(keys[..n][j]);
        assert keys[i] == keys[..n][i];
        assert forall j :: i < j < |keys| ==> !IsLabelKey(keys[j]) by {
          forall j | i < j < |keys| ensures !IsLabelKey(keys[j]) {
            if j < n { assert keys[j] == keys[..n][j]; }
          }
        }
      }
    }
  }

  /**
   * The label tensor exported in eval mode: `anon_targets`, which is
   * unbound (a `NameError`) when no label key was imported.
   */
  function EvalLabelKey(keys: seq<string>): (r: Result<string>)
    ensures r.Ok? <==> exists k :: k in keys && IsLabelKey(k)
    ensures r.Ok? ==> r.value in keys && IsLabelKey(r.value)
    ensures r.Err? ==> r.error == NameError("anon_targets")
  {
    LastLabelKeySpec(keys);
    match LastLabelKey(keys)
    case None => Err(NameError("anon_targets"))
    case Some(k) => Ok(k)
  }

  /** The imported features: the logical shape of each key, and the key bound to `anon_targets`. */
  datatype Imported = Imported(shapes: map<string, seq<nat>>, labelKey: Option<string>)

  /**
   * The exception the import loop stops with, if any: on the first key,
   * `batch_size // outer_batch_size` divides by zero when the outer batch
   * size is zero; otherwise the first key whose family has no sequence
   * length raises a `KeyError`.
   */
  function ImportError(keys: seq<string>, sequenceLength: map<string, nat>, cfg: ShapeConfig): Option<Exception>
  {
    if keys == [] then None
    else if cfg.outerBatchSize == 0 then Some(ZeroDivisionError)
    else if BaseKey(keys[0]) !in sequenceLength then Some(KeyError(BaseKey(keys[0])))
    else ImportError(keys[1..], sequenceLength, cfg)
  }

  /**
   * The import fails exactly when some key is imported with a zero outer
   * batch or an unknown family: a ZeroDivisionError for the zero outer
   * batch, otherwise the KeyError of the first unknown family.
   */
  lemma {:induction false} ImportErrorSpec(keys: seq<string>, sequenceLength: map<string, nat>, cfg: ShapeConfig)
    ensures ImportError(keys, sequenceLength, cfg).None? <==>
      |keys| == 0 || (cfg.outerBatchSize > 0 && forall k :: k in keys ==> BaseKey(k) in sequenceLength)
    ensures keys != [] && cfg.outerBatchSize == 0 ==> ImportError(keys, sequenceLength, cfg) == Some(ZeroDivisionError)
    ensures ImportError(keys, sequenceLength, cfg).Some? && cfg.outerBatchSize > 0 ==>
      exists i :: 0 <= i < |keys| && BaseKey(keys[i]) !in sequenceLength
        && ImportError(keys, sequenceLength, cfg) == Some(KeyError(BaseKey(keys[i])))
        && forall j :: 0 <= j < i ==> BaseKey(keys[j]) in sequenceLength
  {
    if keys != [] && cfg.outerBatchSize > 0 && BaseKey(keys[0]) in sequenceLength {
      var rest := keys[1..];
      ImportErrorSpec(rest, sequenceLength, cfg);
      assert keys == [keys[0]] + rest;
      if ImportError(rest, sequenceLength, cfg).Some? {
        var i :| 0 <= i < |rest| && BaseKey(rest[i]) !in sequenceLength
          && ImportError(rest, sequenceLength, cfg) == Some(KeyError(BaseKey(rest[i])))
          && forall j :: 0 <= j < i ==> BaseKey(rest[j]) in sequenceLength;
        assert keys[i + 1] == rest[i];
        forall j | 0 <= j < i + 1 ensures BaseKey(keys[j]) in sequenceLength {
          if j > 0 { assert keys[j] == rest[j - 1]; }
        }
      }
    } else if keys != [] && cfg.outerBatchSize > 0 {
      assert keys[0] in keys;
    }
  }

  /**
   * The import loop over `features.items()`: on success every key has the
   * logical shape of its family's length and the label key is the last label
   * key imported; on failure the loop stops with the error `ImportError`
   * names.
   */
  method ImportFeatures(keys: seq<string>, sequenceLength: map<string, nat>, cfg: ShapeConfig)
    returns (r: Result<Imported>)
    ensures r.Err? <==> ImportError(keys, sequenceLength, cfg).Some?
    ensures r.Err? ==> r.error == ImportError(keys, sequenceLength, cfg).value
    ensures r.Ok? ==> forall k :: k in r.value.shapes <==> k in keys
    ensures r.Ok? ==> forall k :: k in keys ==>
      BaseKey(k) in sequenceLength && cfg.outerBatchSize > 0 &&
      r.value.shapes[k] == LogicalShape(cfg, sequenceLength[BaseKey(k)])
    ensures r.Ok? ==> r.value.labelKey == LastLabelKey(keys)
  {
    var shapes: map<string, seq<nat>> := map[];
    var labelKey: Option<string> := None;
    var i := 0;
    while i < |keys|
      invariant 0 <= i <= |keys|
      invariant ImportError(keys, sequenceLength, cfg) == ImportError(keys[i..], sequenceLength, cfg)
      invariant forall k :: k in shapes <==> k in keys[..i]
      invariant forall k :: k in keys[..i] ==>
        BaseKey(k) in sequenceLength && cfg.outerBatchSize > 0 &&
        shapes[k] == LogicalShape(cfg, sequenceLength[BaseKey(k)])
      invariant labelKey == LastLabelKey(keys[..i])
    {
      var key := keys[i];
      assert keys[i..][0] == key && keys[i..][1..] == keys[i + 1..];
      if cfg.outerBatchSize == 0 {
        return Err(ZeroDivisionError);
      }
      var length := FeatureLength(sequenceLength, key);
      if length.Err? {
        return Err(length.error);
      }
      shapes := shapes[key := LogicalShape(cfg, length.value)];
      if IsLabelKey(key) {
        labelKey := Some(key);
      }
      assert keys[..i + 1] == keys[..i] + [key];
      assert keys[..i + 1][..i] == keys[..i];
      i := i + 1;
    }
    assert keys[..i] == keys;
    r := Ok(Imported(shapes, labelKey));
  }
}
