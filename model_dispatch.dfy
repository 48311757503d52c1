/**
 * The configuration dispatch of the model function: which decode routine the
 * predict branch calls, and which features `logits_and_loss` feeds to the
 * model (inputs, attributes, control-code-prefixed targets, and the
 * position/segmentation keyword arguments). The model classes are a closed
 * datatype; a feature is named by its key, and the dispatch answers which
 * key feeds which argument.
 */
module ModelDispatch {
  import opened Wrappers
  import FeatureImport

  /**
   * The classes the dispatch tells apart with `isinstance`. The conditioned
   * bitransformer (`Bitransformer_ll`) is a subclass of the plain
   * bitransformer; the student-teacher wrapper is not.
   */
  datatype ModelKind =
    | Unitransformer
    | Bitransformer
    | ConditionedBitransformer
    | StudentTeacher
    | UnknownModel

  /** `isinstance(transformer_model, transformer.Bitransformer)`. */
  predicate IsBitransformer(kind: ModelKind) {
    kind == Bitransformer || kind == ConditionedBitransformer
  }

  // ---------------------------------------------------------------------------
  // Predict branch
  // ---------------------------------------------------------------------------

  datatype PredictConfig = PredictConfig(
    hasPredictFn: bool,
    attributeEmbedding: bool,
    hasPartialSequences: bool,
    removePartialSequences: bool)

  /** The decode routine chosen for prediction, with the features it is given. */
  datatype PredictPlan =
    | CustomPredict
    | SampleAutoregressive(paddedBy: nat)
    | ConditionedDecode(
        attributes: Option<string>,
        controlcodes: Option<string>,
        hasPartialSequences: bool,
        removePartialSequences: bool)
    | PlainDecode

  /** `mtf_features.get(key, None)`, naming the feature by its key. */
  function Present(key: string, features: set<string>): Option<string>
  {
    if key in features then Some(key) else None
  }

  /** The features the predict branch reads before dispatching: `inputs`, then `attribute` and `controlcode` when their toggles are on. */
  predicate PredictFeaturesPresent(cfg: PredictConfig, features: set<string>) {
    && "inputs" in features
    && (cfg.attributeEmbedding ==> "attribute" in features)
    && (cfg.hasPartialSequences ==> "controlcode" in features)
  }

  /**
   * The predict branch. `inputs` is read first, then `attribute` and
   * `controlcode` when their toggles are on; then a user `predict_fn` wins
   * over every class, the decoder-only model samples after padding its inputs
   * by the targets length, the conditioned bitransformer decodes with its
   * attribute and control-code features, the plain bitransformer and the
   * student-teacher decode plainly, and any other class is a `ValueError`.
   */
  function PredictDispatch(kind: ModelKind, cfg: PredictConfig, features: set<string>,
                           sequenceLength: map<string, nat>): (r: Result<PredictPlan>)
    ensures r.Ok? <==>
      && PredictFeaturesPresent(cfg, features)
      && (cfg.hasPredictFn || (kind != UnknownModel && (kind == Unitransformer ==> "targets" in sequenceLength)))
    ensures "inputs" !in features ==> r == Err(KeyError("inputs"))
    ensures "inputs" in features && cfg.attributeEmbedding && "attribute" !in features ==> r == Err(KeyError("attribute"))
    ensures ("inputs" in features && (cfg.attributeEmbedding ==> "attribute" in features) &&
             cfg.hasPartialSequences && "controlcode" !in features) ==> r == Err(KeyError("controlcode"))
    ensures (PredictFeaturesPresent(cfg, features) && !cfg.hasPredictFn && kind == Unitransformer &&
             "targets" !in sequenceLength) ==> r == Err(KeyError("targets"))
    ensures r.Ok? && r.value.CustomPredict? <==> r.Ok? && cfg.hasPredictFn
    ensures r.Ok? && !cfg.hasPredictFn ==>
      match r.value
      case CustomPredict => false
      case SampleAutoregressive(n) => kind == Unitransformer && "targets" in sequenceLength && n == sequenceLength["targets"]
      case ConditionedDecode(a, c, h, rm) =>
        && kind == ConditionedBitransformer
        && (a.Some? <==> cfg.attributeEmbedding) && (a.Some? ==> a.value == "attribute")
        && (c.Some? <==> cfg.hasPartialSequences) && (c.Some? ==> c.value == "controlcode")
        && h == cfg.hasPartialSequences && rm == cfg.removePartialSequences
      case PlainDecode => kind == Bitransformer || kind == StudentTeacher
    ensures r.Err? && r.error.ValueError? <==>
      PredictFeaturesPresent(cfg, features) && !cfg.hasPredictFn && kind == UnknownModel
    ensures r.Err? && r.error.ValueError? ==> r.error == ValueError("unrecognized class")
  {
    if "inputs" !in features then Err(KeyError("inputs"))
    else if cfg.attributeEmbedding && "attribute" !in features then Err(KeyError("attribute"))
    else if cfg.hasPartialSequences && "controlcode" !in features then Err(KeyError("controlcode"))
    else if cfg.hasPredictFn then Ok(CustomPredict)
    else match kind
      case Unitransformer =>
        if "targets" in sequenceLength then Ok(SampleAutoregressive(sequenceLength["targets"]))
        else Err(KeyError("targets"))
      case ConditionedBitransformer =>
        Ok(ConditionedDecode(
          if cfg.attributeEmbedding then Some("attribute") else None,
          if cfg.hasPartialSequences then Some("controlcode") else None,
          cfg.hasPartialSequences, cfg.removePartialSequences))
      case Bitransformer => Ok(PlainDecode)
      case StudentTeacher => Ok(PlainDecode)
      case UnknownModel => Err(ValueError("unrecognized class"))
  }

  // ---------------------------------------------------------------------------
  // logits_and_loss
  // ---------------------------------------------------------------------------

  datatype LossConfig = LossConfig(
    modelType: string,
    attributeEmbedding: bool,
    controlCodes: bool,
    hasPartialSequences: bool,
    cycleConsistencyLoss: bool)

  /** The estimator mode the model function is built for (predict is handled above). */
  datatype Mode = Train(numMicrobatches: nat) | Eval

  /** Where the model's `inputs` come from: the targets shifted right (language model) or the inputs feature. */
  datatype InputsSource = ShiftedTargets | InputsFeature

  /** The position/segmentation keyword arguments, each naming the feature that feeds it. */
  datatype PositionKwargs =
    | DecoderOnlyKwargs(sequenceId: Option<string>, position: Option<string>)
    | EncoderDecoderKwargs(
        encoderSequenceId: Option<string>,
        decoderSequenceId: Option<string>,
        decoderSubsequenceId: Option<string>,
        encoderPosition: Option<string>,
        decoderPosition: Option<string>)

  /** The key of a family's sidecar feature: `targets_position` is `Sidecar("targets", "position")`. */
  function Sidecar(family: string, suffix: string): string
  {
    family + "_" + suffix
  }

  /** The feature family the decoder ids come from. */
  function DecoderFamily(controlCodes: bool): string
  {
    if controlCodes then "codeprefixedtargets" else "targets"
  }

  /**
   * The keyword arguments of `call_simple`. The decoder-only model takes the
   * targets' segmentation and position; an encoder-decoder (any
   * bitransformer, or a model whose type is "bi_student_teacher") takes the
   * inputs' ids for the encoder and the decoder family's ids for the decoder;
   * an absent feature gives None; any other model is a `ValueError`.
   */
  function PositionKwargsFor(kind: ModelKind, modelType: string, controlCodes: bool,
                             features: set<string>): (r: Result<PositionKwargs>)
    ensures r.Err? <==> kind != Unitransformer && !IsBitransformer(kind) && modelType != "bi_student_teacher"
    ensures r.Err? ==> r.error == ValueError("unrecognized class")
    ensures r.Ok? ==> (r.value.DecoderOnlyKwargs? <==> kind == Unitransformer)
  {
    if kind == Unitransformer then
      Ok(DecoderOnlyKwargs(Present(Sidecar("targets", "segmentation"), features), Present(Sidecar("targets", "position"), features)))
    else if IsBitransformer(kind) || modelType == "bi_student_teacher" then
      var family := DecoderFamily(controlCodes);
      Ok(EncoderDecoderKwargs(
        Present(Sidecar("inputs", "segmentation"), features),
        Present(Sidecar(family, "segmentation"), features),
        Present(Sidecar(family, "subsegmentation"), features),
        Present(Sidecar("inputs", "position"), features),
        Present(Sidecar(family, "position"), features)))
    else Err(ValueError("unrecognized class"))
  }

  /**
   * A keyword argument is fed by the family's sidecar `<family>_<suffix>`
   * exactly when that feature is present, and then by that feature, which
   * belongs to the family and has the family's length.
   */
  predicate FedBy(o: Option<string>, family: string, suffix: string, features: set<string>,
                  sequenceLength: map<string, nat>)
  {
    && (o.Some? <==> Sidecar(family, suffix) in features)
    && (o.Some? ==>
          && o.value == Sidecar(family, suffix)
          && FeatureImport.BaseKey(o.value) == family
          && FeatureImport.FeatureLength(sequenceLength, o.value) == FeatureImport.FeatureLength(sequenceLength, family))
  }

  lemma SidecarFedBy(family: string, suffix: string, features: set<string>, sequenceLength: map<string, nat>)
    requires '_' !in family
    ensures FedBy(Present(Sidecar(family, suffix), features), family, suffix, features, sequenceLength)
  {
    FeatureImport.BaseKeyOfSuffixed(family, suffix);
    FeatureImport.SidecarsShareLength(sequenceLength, family, suffix);
  }

  /**
   * Every keyword argument is fed by its own sidecar feature whenever that
   * feature is present: the encoder ids by `inputs_segmentation` and
   * `inputs_position`, the decoder ids by the segmentation, subsegmentation
   * and position sidecars of the targets, or of the control-code-prefixed
   * targets when control codes are on. Each shares its family's length.
   */
  lemma PositionKwargsLengths(kind: ModelKind, modelType: string, controlCodes: bool,
                              features: set<string>, sequenceLength: map<string, nat>)
    requires PositionKwargsFor(kind, modelType, controlCodes, features).Ok?
    ensures match PositionKwargsFor(kind, modelType, controlCodes, features).value
      case DecoderOnlyKwargs(s, p) =>
        FedBy(s, "targets", "segmentation", features, sequenceLength) &&
        FedBy(p, "targets", "position", features, sequenceLength)
      case EncoderDecoderKwargs(es, ds, dss, ep, dp) =>
        var family := DecoderFamily(controlCodes);
        && FedBy(es, "inputs", "segmentation", features, sequenceLength)
        && FedBy(ep, "inputs", "position", features, sequenceLength)
        && FedBy(ds, family, "segmentation", features, sequenceLength)
        && FedBy(dss, family, "subsegmentation", features, sequenceLength)
        && FedBy(dp, family, "position", features, sequenceLength)
  {
    if kind == Unitransformer {
      SidecarFedBy("targets", "segmentation", features, sequenceLength);
      SidecarFedBy("targets", "position", features, sequenceLength);
    } else {
      var family := DecoderFamily(controlCodes);
      SidecarFedBy("inputs", "segmentation", features, sequenceLength);
      SidecarFedBy("inputs", "position", features, sequenceLength);
      SidecarFedBy(family, "segmentation", features, sequenceLength);
      SidecarFedBy(family, "subsegmentation", features, sequenceLength);
      SidecarFedBy(family, "position", features, sequenceLength);
    }
  }

  /** How the loss is computed once the features are resolved. */
  datatype LossCall =
    | CycleConsistency(controlcodes: Option<string>)  // l_ae, decode in the 'training' scope, l_cycle on the samples
    | ConditionedCall                                  // one conditioned call_simple
    | PlainCall(numMicrobatches: nat)                  // call_simple of the library models

  datatype LossPlan = LossPlan(
    inputs: InputsSource,
    attributes: Option<string>,
    codePrefixedTargets: Option<string>,
    kwargs: PositionKwargs,
    call: LossCall)

  /** The feature the model's inputs come from: `targets` for a language model, `inputs` otherwise. */
  function ModelInputKey(cfg: LossConfig): string
  {
    if cfg.modelType == "lm" then "targets" else "inputs"
  }

  /** The lookups `logits_and_loss` makes before dispatching on the class all succeed. */
  predicate LeadingFeaturesPresent(cfg: LossConfig, features: set<string>) {
    && ModelInputKey(cfg) in features
    && (cfg.attributeEmbedding ==> "attribute" in features)
    && (cfg.controlCodes ==> "codeprefixedtargets" in features)
  }

  /** Every feature lookup and the class dispatch of `logits_and_loss` succeed. */
  predicate FeaturesResolve(kind: ModelKind, cfg: LossConfig, features: set<string>) {
    && LeadingFeaturesPresent(cfg, features)
    && PositionKwargsFor(kind, cfg.modelType, cfg.controlCodes, features).Ok?
    && "targets" in features
    && (kind == ConditionedBitransformer && cfg.cycleConsistencyLoss && cfg.hasPartialSequences ==>
          "controlcode" in features)
  }

  /**
   * The body of `logits_and_loss`, given the value `num_microbatches` holds
   * in the enclosing function (None while it has not been assigned). The
   * feature lookups come in the source's order: inputs (or targets for a
   * language model), attribute, code-prefixed targets, then the class
   * dispatch of the keyword arguments, then targets, then, for the cycle
   * loss with partial sequences, the control code; the library models then
   * read `num_microbatches`. The exception is that of the first lookup that fails.
   */
  function LossPlanWith(kind: ModelKind, cfg: LossConfig, features: set<string>,
                        numMicrobatches: Option<nat>): (r: Result<LossPlan>)
    ensures r.Ok? <==> FeaturesResolve(kind, cfg, features) &&
                       (kind != ConditionedBitransformer ==> numMicrobatches.Some?)
    ensures ModelInputKey(cfg) !in features ==> r == Err(KeyError(ModelInputKey(cfg)))
    ensures ModelInputKey(cfg) in features && cfg.attributeEmbedding && "attribute" !in features ==>
              r == Err(KeyError("attribute"))
    ensures (ModelInputKey(cfg) in features && (cfg.attributeEmbedding ==> "attribute" in features) &&
             cfg.controlCodes && "codeprefixedtargets" !in features) ==> r == Err(KeyError("codeprefixedtargets"))
    ensures LeadingFeaturesPresent(cfg, features) && PositionKwargsFor(kind, cfg.modelType, cfg.controlCodes, features).Err? ==>
              r == Err(ValueError("unrecognized class"))
    ensures (LeadingFeaturesPresent(cfg, features) && PositionKwargsFor(kind, cfg.modelType, cfg.controlCodes, features).Ok? &&
             "targets" !in features) ==> r == Err(KeyError("targets"))
    ensures (LeadingFeaturesPresent(cfg, features) && PositionKwargsFor(kind, cfg.modelType, cfg.controlCodes, features).Ok? &&
             "targets" in features && kind == ConditionedBitransformer && cfg.cycleConsistencyLoss &&
             cfg.hasPartialSequences && "controlcode" !in features) ==> r == Err(KeyError("controlcode"))
    ensures FeaturesResolve(kind, cfg, features) && kind != ConditionedBitransformer && numMicrobatches.None? ==>
              r == Err(NameError("num_microbatches"))
    ensures r.Ok? ==> (r.value.inputs == ShiftedTargets <==> cfg.modelType == "lm")
    ensures r.Ok? ==> (r.value.attributes.Some? <==> cfg.attributeEmbedding)
    ensures r.Ok? ==> (r.value.codePrefixedTargets.Some? <==> cfg.controlCodes)
    ensures r.Ok? ==> r.value.attributes.Some? ==> r.value.attributes.value == "attribute"
    ensures r.Ok? ==> r.value.codePrefixedTargets.Some? ==> r.value.codePrefixedTargets.value == "codeprefixedtargets"
    ensures r.Ok? ==> Ok(r.value.kwargs) == PositionKwargsFor(kind, cfg.modelType, cfg.controlCodes, features)
    ensures r.Ok? ==> (r.value.call.PlainCall? <==> kind != ConditionedBitransformer)
    ensures r.Ok? ==> (r.value.call.CycleConsistency? <==> kind == ConditionedBitransformer && cfg.cycleConsistencyLoss)
    ensures r.Ok? && r.value.call.CycleConsistency? ==>
              (r.value.call.controlcodes.Some? <==> cfg.hasPartialSequences) &&
              (r.value.call.controlcodes.Some? ==> r.value.call.controlcodes.value == "controlcode")
    ensures r.Ok? && r.value.call.PlainCall? ==> numMicrobatches == Some(r.value.call.numMicrobatches)
  {
    var inputs :- if cfg.modelType == "lm" then
                    (if "targets" in features then Ok(ShiftedTargets) else Err(KeyError("targets")))
                  else if "inputs" in features then Ok(InputsFeature) else Err(KeyError("inputs"));
    var attributes :- if !cfg.attributeEmbedding then Ok(None)
                      else if "attribute" in features then Ok(Some("attribute")) else Err(KeyError("attribute"));
    var prefixed :- if !cfg.controlCodes then Ok(None)
                    else if "codeprefixedtargets" in features then Ok(Some("codeprefixedtargets"))
                    else Err(KeyError("codeprefixedtargets"));
    var kwargs :- PositionKwargsFor(kind, cfg.modelType, cfg.controlCodes, features);
    var call :-
      if "targets" !in features then Err(KeyError("targets"))
      else if kind == ConditionedBitransformer then
        if !cfg.cycleConsistencyLoss then Ok(ConditionedCall)
        else if !cfg.hasPartialSequences then Ok(CycleConsistency(None))
        else if "controlcode" in features then Ok(CycleConsistency(Some("controlcode")))
        else Err(KeyError("controlcode"))
      else if numMicrobatches.Some? then Ok(PlainCall(numMicrobatches.value))
      else Err(NameError("num_microbatches"));
    Ok(LossPlan(inputs, attributes, prefixed, kwargs, call))
  }

  /**
   * `logits_and_loss` as written: `num_microbatches` is a local of the model
   * function assigned only in the train branch, so in eval mode it is
   * unbound. Only the conditioned bitransformer, which never reads it, can
   * be evaluated; every other model raises `NameError` once its features
   * resolve.
   */
  function LogitsAndLoss(kind: ModelKind, cfg: LossConfig, features: set<string>, mode: Mode): (r: Result<LossPlan>)
    ensures r.Ok? <==> FeaturesResolve(kind, cfg, features) && (mode.Train? || kind == ConditionedBitransformer)
    ensures mode.Eval? && kind != ConditionedBitransformer && FeaturesResolve(kind, cfg, features) ==>
              r == Err(NameError("num_microbatches"))
    ensures r.Ok? && r.value.call.PlainCall? ==> mode.Train? && r.value.call.numMicrobatches == mode.numMicrobatches
  {
    LossPlanWith(kind, cfg, features, if mode.Train? then Some(mode.numMicrobatches) else None)
  }

  /**
   * `logits_and_loss` with eval computing its loss in one micro-batch, as the
   * library's own version does: it succeeds in both modes exactly when the
   * features resolve, and agrees with the source wherever the source succeeds.
   */
  function LogitsAndLossFixed(kind: ModelKind, cfg: LossConfig, features: set<string>, mode: Mode): (r: Result<LossPlan>)
    ensures r.Ok? <==> FeaturesResolve(kind, cfg, features)
    ensures LogitsAndLoss(kind, cfg, features, mode).Ok? ==> r == LogitsAndLoss(kind, cfg, features, mode)
    ensures r.Ok? && r.value.call.PlainCall? ==>
              r.value.call.numMicrobatches == (if mode.Train? then mode.numMicrobatches else 1)
  {
    LossPlanWith(kind, cfg, features, Some(if mode.Train? then mode.numMicrobatches else 1))
  }

  /**
   * As written, teacher-forced evaluation of every model other than the
   * conditioned bitransformer fails with a `NameError` once its features
   * resolve.
   */
  lemma EvalOfLibraryModelFails(kind: ModelKind, cfg: LossConfig, features: set<string>)
    requires kind != ConditionedBitransformer
    requires LogitsAndLossFixed(kind, cfg, features, Eval).Ok?
    ensures LogitsAndLoss(kind, cfg, features, Eval) == Err(NameError("num_microbatches"))
  {
  }

  /** A concrete instance: a plain bitransformer evaluated on inputs and targets. */
  lemma EvalOfBitransformerFails()
    ensures LogitsAndLoss(Bitransformer, LossConfig("bitransformer", false, false, false, false),
                          {"inputs", "targets"}, Eval) == Err(NameError("num_microbatches"))
  {
  }

  /**
   * The corrected version agrees with the source wherever the source does
   * not hit the unbound variable, and in eval mode it computes the library
   * models' loss in a single micro-batch.
   */
  lemma FixedAgreesWithSource(kind: ModelKind, cfg: LossConfig, features: set<string>, mode: Mode)
    ensures mode.Train? ==> LogitsAndLossFixed(kind, cfg, features, mode) == LogitsAndLoss(kind, cfg, features, mode)
    ensures LogitsAndLoss(kind, cfg, features, mode).Ok? ==>
      LogitsAndLossFixed(kind, cfg, features, mode) == LogitsAndLoss(kind, cfg, features, mode)
    ensures (mode.Eval? && LogitsAndLossFixed(kind, cfg, features, mode).Ok? &&
             LogitsAndLossFixed(kind, cfg, features, mode).value.call.PlainCall?) ==>
              LogitsAndLossFixed(kind, cfg, features, mode).value.call.numMicrobatches == 1
    ensures LogitsAndLossFixed(kind, cfg, features, mode) != LogitsAndLoss(kind, cfg, features, mode) ==>
              && mode.Eval? && kind != ConditionedBitransformer
              && LogitsAndLoss(kind, cfg, features, mode) == Err(NameError("num_microbatches"))
              && LogitsAndLossFixed(kind, cfg, features, mode).Ok?
  {
  }
}
