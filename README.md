# CAET5 driver bookkeeping, modelled in Dafny

This project models the bookkeeping layer of the Mesh-TensorFlow drivers used by CAET5
(`mesh_tensorflow_caet5/utils.py`): the part that decides which data goes where, separated from
the tensors themselves.

- **Feature import** (`FeatureImport`, `feature_import.dfy`). The model function imports every
  feature with a logical shape `[ensemble]? + [outer_batch, batch // outer_batch, length]`. The
  length is looked up by the part of the key before its first `_`. `anon_targets` ends up bound to
  the last label key imported.
- **Configuration dispatch** (`ModelDispatch`, `model_dispatch.dfy`). This covers:
  - the predict-branch choice of decode routine;
  - the position/segmentation keyword arguments of `logits_and_loss`;
  - the feature lookups `logits_and_loss` performs.

  Model classes are a closed datatype, and a feature is named by its key.
- **Training set-up** (`TrainSetup`, `train_setup.dfy`). This covers:
  - the variable filter, and the parallel filtering of variables and gradients (a regular-expression
    search is a parameter);
  - the initial-checkpoint restore set;
  - the training batch size;
  - the list-level effect of batch-then-repeat.
- **The line writer** (`FileWriting`, `file_writing.dfy`). `write_lines_to_file_ll` escapes newlines
  and terminates each line. The files the drivers write are held in a `FileStore` object that maps
  paths to contents.
- **The evaluation driver** (`EvalTasks`, `eval_tasks.dfy`, and `EvalDriver`, `eval_driver.dfy`).
  `eval_model_ll`:
  - drops tasks without metric functions;
  - caches targets, examples and zero-based origin labels (the caching loop writes each targets file
    with the library writer);
  - extends the module-level `_INPUT_FEATURES_ll` list on every call (a `FeatureRegistry` object);
  - at each checkpoint, hands each task its share off the front of one flat decode list (a
    `DecodeQueue` object);
  - writes predictions with the escaping writer, calls every metric function, and checks that only
    padding is left.

  Side effects (files, metric calls, flushes, the summary writer) are recorded as a list of
  `Effect`s next to the outcome.
- **Decoding from a file** (`DecodeDriver`, `decode_driver.dfy`). `decode_from_file_ll`:
  - splits each line on `|dst_attribute:`;
  - looks up the attribute's control code;
  - repeats each input `repeats` times and batches them;
  - keeps `len(inputs) * repeats` decodes and hands them to the library writer as
    `<output_filename>-<step>`.
- **Python idioms** (`Text`, `Lists`, `Arithmetic`, `Wrappers`). These model:
  - `str.split`, `str(int)`, `int(str)`;
  - list comprehension with a filter, `zip`, `sum`;
  - facts about `//` and `%`;
  - exceptions, as a `Result`.

Loops and in-place updates in the source are methods. Each method is proved equal to a
specification function, or states the new state of its object:
- the import loop;
- the task filter;
- the caching loop;
- the per-task and per-checkpoint loops;
- the line parser;
- the writers;
- the queue.

Each specification function defines a loop by its last iteration, and the lemmas state what the
loop promises.

## Model

| member | source | states |
|---|---|---|
| FeatureImport.BaseKey | mesh_tensorflow_caet5/utils.py:158 | the family of a key is its prefix before the first `_` (the whole key when there is none) and contains no `_` |
| FeatureImport.SidecarsShareLength | mesh_tensorflow_caet5/utils.py:153-158 | `<stem>_<suffix>` gets exactly the length (or the same KeyError) of `<stem>`, so a feature and its packing sidecars share one length |
| FeatureImport.FeatureLength | mesh_tensorflow_caet5/utils.py:158 | succeeds exactly when the key's family is in the sequence-length table, with that entry; otherwise KeyError naming the family |
| FeatureImport.LogicalShapeSpec | mesh_tensorflow_caet5/utils.py:151-163 | the shape has 4 dimensions with an ensemble and 3 without; it ends with the length and has the outer batch third from the end; it holds ensemble × batch × length elements when the outer batch divides the batch |
| FeatureImport.PredictReshapeKeepsSize | mesh_tensorflow_caet5/utils.py:176-186 | the predict-mode reshape to `[batch_size, length]` keeps the element count (no ensemble, outer batch dividing the batch) |
| FeatureImport.LastLabelKeySpec | mesh_tensorflow_caet5/utils.py:172-173 | the label is the last of targets/codeprefixedtargets/controlcode in iteration order; there is none exactly when no label key is imported |
| FeatureImport.EvalLabelKey | mesh_tensorflow_caet5/utils.py:539 | the exported label exists exactly when a label key was imported; otherwise `anon_targets` is unbound (NameError) |
| FeatureImport.ImportErrorSpec | mesh_tensorflow_caet5/utils.py:150-158 | the import fails exactly when a key meets a zero outer batch or an unknown family; a zero outer batch gives ZeroDivisionError, otherwise the error is the KeyError of the first key whose family is unknown |
| FeatureImport.ImportFeatures | mesh_tensorflow_caet5/utils.py:149-173 | on success every key, and no other, has the logical shape of its family's length, and the label is the last label key; on failure the error `ImportError` names |
| ModelDispatch.PredictDispatch | mesh_tensorflow_caet5/utils.py:187-221 | a plan is returned exactly when `inputs` (and `attribute`, `controlcode` when toggled) are present and either a predict_fn is given or the class is recognised (the Unitransformer also needs a targets length); otherwise the KeyError of the first missing feature in the order inputs, attribute, controlcode, targets, or ValueError("unrecognized class"); a predict_fn wins; Unitransformer samples after padding by the targets length; Bitransformer_ll decodes with attribute/controlcode exactly when toggled; Bitransformer and StudentTeacher decode plainly |
| ModelDispatch.PositionKwargsFor | mesh_tensorflow_caet5/utils.py:290-319 | ValueError exactly for a class that is neither decoder-only nor a bitransformer nor "bi_student_teacher"; decoder-only kwargs exactly for the Unitransformer |
| ModelDispatch.PositionKwargsLengths | mesh_tensorflow_caet5/utils.py:290-317 | each keyword argument is passed exactly when its own sidecar is present, and is then that sidecar: `targets_segmentation`/`targets_position` for the decoder-only model; `inputs_segmentation`/`inputs_position` for the encoder and the segmentation, subsegmentation and position sidecars of `codeprefixedtargets` (with control codes) or `targets` (without) for the decoder; each has its family's length |
| ModelDispatch.LossPlanWith | mesh_tensorflow_caet5/utils.py:271-375 | the plan resolves exactly when every lookup succeeds (model input, toggled attribute and code-prefixed targets, a recognised class, targets, the control code for the cycle loss with partial sequences) and, for library models, `num_microbatches` is bound; otherwise the error of the first failing lookup in source order (KeyError naming the key, ValueError for the class, NameError for the unbound count); on success inputs are the shifted targets exactly for "lm", attributes and code-prefixed targets are fed exactly when toggled, kwargs are those of the dispatch, the cycle loss runs exactly for Bitransformer_ll with the flag, and library models get the micro-batch count |
| ModelDispatch.LogitsAndLoss | mesh_tensorflow_caet5/utils.py:263-375 | as written it succeeds exactly when the features resolve and the mode is train or the model is Bitransformer_ll; in eval every other model whose features resolve raises NameError("num_microbatches"); a library model's loss uses the train-mode count |
| ModelDispatch.EvalOfLibraryModelFails | mesh_tensorflow_caet5/utils.py:368-378 | teacher-forced eval of any model other than Bitransformer_ll raises NameError once its features resolve |
| ModelDispatch.EvalOfBitransformerFails | mesh_tensorflow_caet5/utils.py:374 | a plain Bitransformer in eval mode with inputs and targets raises NameError("num_microbatches") |
| ModelDispatch.LogitsAndLossFixed | mesh_tensorflow_caet5/utils.py:374-381 | the corrected version succeeds in both modes exactly when the features resolve, equals the source wherever the source succeeds, and uses the serialized count in train and one micro-batch in eval |
| ModelDispatch.FixedAgreesWithSource | mesh_tensorflow_caet5/utils.py:374-381 | the corrected version agrees with the source in train mode and wherever the source succeeds, uses one micro-batch in eval, and differs from the source only where the source raises NameError("num_microbatches") for a library model in eval |
| TrainSetup.MakeFilter | mesh_tensorflow_caet5/utils.py:407-416 | None keeps every variable; a string keeps names with a regex search match; a callable is used as is; anything else is ValueError, and only that |
| TrainSetup.KeptGradientsAligned | mesh_tensorflow_caet5/utils.py:417-421 | kept gradients and kept variables have equal length, and zipped together they are exactly the (gradient, variable) pairs whose variable passes, in order |
| TrainSetup.NoFilterKeepsAll | mesh_tensorflow_caet5/utils.py:410-418 | without a filter every variable is trained, in order |
| TrainSetup.InitFromCheckpoint | mesh_tensorflow_caet5/utils.py:459-471 | planned exactly for a non-empty checkpoint path; the restore set is the intersection; the two logged differences partition the rest; the assignment maps each restored name to itself |
| TrainSetup.TrainBatchSize | mesh_tensorflow_caet5/utils.py:916 | equals the batch size when `ensemble_inputs` is 0, None or 1; is larger and a multiple of it with more than one |
| TrainSetup.TrainBatchFillsLogicalShape | mesh_tensorflow_caet5/utils.py:151-163 | a training batch holds exactly the elements of the model's logical feature shape |
| TrainSetup.BatchDropRemainder | mesh_tensorflow_caet5/utils.py:915-916 | `len // n` batches; none exactly when fewer than n rows |
| TrainSetup.BatchIsSlice | mesh_tensorflow_caet5/utils.py:915-916 | batch j is the contiguous run `xs[j*n .. j*n+n]` |
| TrainSetup.RepeatedBatch | mesh_tensorflow_caet5/utils.py:915-916 | the repeated stream is empty exactly when there is no full batch; otherwise every batch is full |
| TrainSetup.RepeatedBatchWithinOnePass | mesh_tensorflow_caet5/utils.py:915-916 | every batch of the repeated stream lies within one pass, and the stream is periodic in the number of batches |
| FileWriting.Escape | mesh_tensorflow_caet5/utils.py:562 | an escaped line contains no newline, and is one character longer per newline escaped |
| FileWriting.UnescapeEscape | mesh_tensorflow_caet5/utils.py:562 | escaping is undone on reading back, for lines without a literal backslash-n |
| FileWriting.EscapeConflates | mesh_tensorflow_caet5/utils.py:562 | a newline and a literal backslash-n are written identically |
| FileWriting.RenderNewlineCount | mesh_tensorflow_caet5/utils.py:560-563 | the file holds exactly one newline per line |
| FileWriting.RenderSplitsIntoLines | mesh_tensorflow_caet5/utils.py:560-563 | reading the file back by lines gives the escaped lines in order, then the empty remainder |
| FileWriting.RenderAppend | mesh_tensorflow_caet5/utils.py:561-563 | each line adds its escaped form and one newline to the end of the text |
| FileWriting.FileStore.WriteLinesEscaped | mesh_tensorflow_caet5/utils.py:552-563 | the file at the path is replaced (not appended to) by the rendered lines; no other file changes |
| FileWriting.FileStore.WriteLinesLibrary | mesh_tensorflow_caet5/utils.py:663 | the library writer replaces the file at the path with the given lines; no other file changes |
| EvalTasks.SelectTasks | mesh_tensorflow_caet5/utils.py:614-622 | the survivors are the tasks with metric functions, in their original order, and every such task survives |
| EvalTasks.OriginLabel | mesh_tensorflow_caet5/utils.py:655 | KeyError without an attribute feature, IndexError for an empty one; otherwise the canonical decimal text that reads back as `attribute[0] - 1`, which by Text.CanonicalIsStr is exactly `str(attribute[0] - 1)` |
| Text.IntToStringCanonical | mesh_tensorflow_caet5/utils.py:655 | `str` of an int is canonical: digits without a leading zero, with a `-` before any number but 0 |
| Text.CanonicalIsStr | mesh_tensorflow_caet5/utils.py:655 | a canonical text that `int` reads back as v is exactly `str(v)`, so canonical form and the round trip fix the text |
| EvalTasks.OriginLabelsSpec | mesh_tensorflow_caet5/utils.py:653-657 | the labels exist exactly when every example has one; they are one per example in order; a failure is the first failing example's error |
| EvalTasks.PostprocessTargets | mesh_tensorflow_caet5/utils.py:646-651 | one target per example, in order, each the post-processed plain-text target |
| EvalTasks.StoreKeepsValid | mesh_tensorflow_caet5/utils.py:664-667 | storing a task's entries keeps the caches keyed consistently |
| EvalTasks.CacheTask | mesh_tensorflow_caet5/utils.py:641-667 | one iteration of the caching loop: labels, the library write of the targets file, the stored entries |
| EvalTasks.BuildCaches | mesh_tensorflow_caet5/utils.py:640-667 | the caching loop gives the effects and caches of the specification, stopping at the first task whose labels fail |
| EvalTasks.TargetWrites | mesh_tensorflow_caet5/utils.py:659-663 | one library write per task, in order, of its targets to `<summary_dir>/<name>_targets` |
| EvalTasks.CacheSucceedsIff | mesh_tensorflow_caet5/utils.py:641-667 | caching succeeds exactly when attributes are off or every example of every task has an attribute |
| EvalTasks.CacheWritesAllTargets | mesh_tensorflow_caet5/utils.py:659-663 | a successful caching loop writes exactly the targets files of all tasks, in order, with the library writer |
| EvalTasks.CacheStopsAtFailingTask | mesh_tensorflow_caet5/utils.py:641-667 | a failed caching loop stopped at a task whose origin labels fail, with that example's exception, after every earlier task succeeded and had its targets file written |
| EvalTasks.CacheKeys | mesh_tensorflow_caet5/utils.py:664-667 | the caches are keyed by exactly the task names, and with attributes every name has origin labels |
| EvalTasks.CacheCovers | mesh_tensorflow_caet5/utils.py:711-732 | every task finds its targets, examples and (with attributes) origin labels in the caches |
| EvalTasks.CacheLastWins | mesh_tensorflow_caet5/utils.py:664-667 | a name maps to the targets, examples and labels of the last task carrying it |
| EvalTasks.CacheOfDistinctTasks | mesh_tensorflow_caet5/utils.py:664-667 | with distinct names each task's entries are its own |
| EvalTasks.CacheNamesInOrder | mesh_tensorflow_caet5/utils.py:664 | with distinct names the cache lists the names in task order |
| EvalTasks.FeatureRegistry.constructor | mesh_tensorflow_caet5/utils.py:25-28 | the module-level list starts with the seven input feature keys |
| EvalTasks.FeatureRegistry.Extend | mesh_tensorflow_caet5/utils.py:669-680 | the list grows by `attribute` and/or the eight control-code keys, keeping what it held |
| EvalTasks.SelectFeatures | mesh_tensorflow_caet5/utils.py:692-693 | a feature is passed exactly when the example has it and its key is listed, with its value unchanged |
| EvalTasks.RepeatedCallsKeepSelection | mesh_tensorflow_caet5/utils.py:669-680 | a second call with the same flags lengthens the list but leaves its membership and every example's selected features unchanged |
| EvalTasks.AttributeBecomesVisible | mesh_tensorflow_caet5/utils.py:669-670 | the first call with attributes makes the `attribute` feature, unchanged, visible to the model |
| EvalDriver.SummaryDir | mesh_tensorflow_caet5/utils.py:629-630 | the given summary directory, or `<model_dir>/<split>_eval` when it is empty |
| EvalDriver.DecodeQueue.constructor | mesh_tensorflow_caet5/utils.py:708 | the queue holds the checkpoint's decodes |
| EvalDriver.DecodeQueue.TakeFront | mesh_tensorflow_caet5/utils.py:713-718 | takes `min(n, len)` decodes off the front; what was taken followed by what is left is the old list |
| EvalDriver.ExpectedPadSpec | mesh_tensorflow_caet5/utils.py:744 | the pad lies in `[0, batch_size)`, completes the total to a multiple of the batch size, and is 0 exactly when the total is one |
| EvalDriver.RowsOf | mesh_tensorflow_caet5/utils.py:692-693 | one input row per example, with its selected features |
| EvalDriver.ExampleRowsLength | mesh_tensorflow_caet5/utils.py:687-694 | the concatenated datasets have as many rows as the tasks have examples |
| EvalDriver.ExampleRowAt | mesh_tensorflow_caet5/utils.py:687-694 | example j of task k is row `n_1+…+n_{k-1} + j` of the concatenation |
| EvalDriver.InputRowsLayout | mesh_tensorflow_caet5/utils.py:695-698 | the padded input has `total + pad` rows, a multiple of the batch size, with padding rows only after the examples |
| EvalDriver.InputRowAt | mesh_tensorflow_caet5/utils.py:685-698 | example j of task k is the padded input's row `n_1+…+n_{k-1} + j` |
| EvalDriver.MetricOrigins | mesh_tensorflow_caet5/utils.py:731-735 | origin labels are passed to the metrics exactly when both the unsupervised metrics and attributes are on, and they are the task's cached labels |
| EvalDriver.ConsumeRest | mesh_tensorflow_caet5/utils.py:709-718 | after the task loop, the decodes left are the list without the first (cached example count) entries |
| EvalDriver.PadCheck | mesh_tensorflow_caet5/utils.py:743-747 | passes exactly when the decodes left equal the expected pad; otherwise ValueError "<left> padded decodes, <pad> expected." |
| EvalDriver.CallMetrics | mesh_tensorflow_caet5/utils.py:728-740 | one call per metric function, in order, on the cached targets and the predictions |
| EvalDriver.ProcessTask | mesh_tensorflow_caet5/utils.py:709-741 | one task's iteration: its predictions from its share of the queue, written escaped, then its metric calls and a flush; the share leaves the queue |
| EvalDriver.ProcessCheckpoint | mesh_tensorflow_caet5/utils.py:708-747 | one checkpoint: the task loop over a fresh queue, then the pad check |
| EvalDriver.CachedCounts | mesh_tensorflow_caet5/utils.py:711-744 | with distinct names, the decodes consumed by every prefix of the tasks and the targets counted equal the examples of those tasks |
| EvalDriver.TaskSeesItsDecodes | mesh_tensorflow_caet5/utils.py:709-726 | task k's effects use exactly decodes `[n_1+…+n_{k-1}, n_1+…+n_k)` of the list |
| EvalDriver.PadCheckIff | mesh_tensorflow_caet5/utils.py:743-747 | with distinct names, a checkpoint passes exactly when the decodes number the examples plus the expected pad, or there are fewer decodes than examples and the pad is 0 |
| EvalDriver.StepZeroSkipped | mesh_tensorflow_caet5/utils.py:705-707 | the checkpoint loop behaves as if the step-0 checkpoints were not listed |
| EvalDriver.CheckpointsSucceed | mesh_tensorflow_caet5/utils.py:702-747 | with distinct names and one decode per input row, every checkpoint passes its pad check |
| EvalDriver.EvaluateCheckpoints | mesh_tensorflow_caet5/utils.py:702-747 | the checkpoint loop gives the specification's effects; step 0 is skipped and the first failing checkpoint ends the loop |
| EvalDriver.EvalModel | mesh_tensorflow_caet5/utils.py:605-747 | the driver: ValueError without a dataset function; an immediate return when no task has metrics; otherwise caches, extending the feature list, and the checkpoint loop |
| EvalDriver.WithoutMetricsNothingHappens | mesh_tensorflow_caet5/utils.py:614-627 | with no task having metric functions, nothing is done and the feature list is not extended |
| EvalDriver.EvalSucceeds | mesh_tensorflow_caet5/utils.py:605-680 | with distinct names, available labels and a faithful decoder, the driver succeeds and extends the list; it first opens the summary writer and writes the survivors' targets files |
| EvalDriver.CacheOfRepeatedTask | mesh_tensorflow_caet5/utils.py:664-667 | a task listed twice leaves one cache entry, listed once |
| EvalDriver.RepeatedTaskCounts | mesh_tensorflow_caet5/utils.py:711-744 | a task listed twice asks for its examples twice, but its targets are counted once |
| EvalDriver.RepeatedTaskPadCheck | mesh_tensorflow_caet5/utils.py:743-747 | with one decode per input row, a twice-listed task of `n` examples leaves the pad of `2n` rows, which is checked against the pad expected for `n` |
| EvalDriver.RepeatedSingleExampleRaises | mesh_tensorflow_caet5/utils.py:743-747 | one example listed twice with batch size 2 raises "0 padded decodes, 1 expected." |
| DecodeDriver.ControlCodeAt | mesh_tensorflow_caet5/utils.py:796 | TypeError for a None table; succeeds exactly for Python-valid (including negative) indices, with the entry at `index mod len`; IndexError otherwise |
| DecodeDriver.AttributePiece | mesh_tensorflow_caet5/utils.py:778-795 | piece 1 of the split, found by markers: None exactly without a marker; otherwise the marker-free text after the first marker, followed by the end of the line or another marker |
| DecodeDriver.SecondPieceIsAttribute | mesh_tensorflow_caet5/utils.py:778-795 | with a marker, splitting the line on the marker gives a second piece, and it is `AttributePiece` |
| DecodeDriver.ParseLine | mesh_tensorflow_caet5/utils.py:778-796 | IndexError without the marker; with it, ValueError when piece 1 (`AttributePiece`) is not a decimal, the table lookup's TypeError/IndexError when that entry is missing, and otherwise a prompt whose attribute is piece 1 and whose code is the table entry at `int(piece 1)`; on success the line starts with prompt + marker + attribute and the prompt has no marker |
| DecodeDriver.FormatThenParse | mesh_tensorflow_caet5/utils.py:778-796 | a prompt without a pipe character formatted with an attribute number parses back to that prompt and number, with that number's control code or lookup error |
| DecodeDriver.ParseAllOkIff | mesh_tensorflow_caet5/utils.py:793-796 | the file is read exactly when every line parses |
| DecodeDriver.ParseAllAt | mesh_tensorflow_caet5/utils.py:793-796 | entry i of the inputs, attributes and control codes lists is what line i yields |
| DecodeDriver.ParseAllFirstError | mesh_tensorflow_caet5/utils.py:793-796 | the exception raised is that of the first failing line |
| DecodeDriver.NoTableOnlyEmptyFile | mesh_tensorflow_caet5/utils.py:760-796 | without a control-code table only an empty prompt file gets past the loop |
| DecodeDriver.ParseLines | mesh_tensorflow_caet5/utils.py:778-796 | the loop builds exactly the lists, or raises exactly the exception, of the specification |
| DecodeDriver.FedKeys | mesh_tensorflow_caet5/utils.py:807-811 | `inputs` is always fed; `attribute` exactly with the attribute embedding; `controlcode` exactly when the table is truthy |
| DecodeDriver.ReadFileFeedsControlCodes | mesh_tensorflow_caet5/utils.py:796-811 | a non-empty file that reads in full always feeds control codes |
| DecodeDriver.RepeatEach | mesh_tensorflow_caet5/utils.py:816-817 | `len(inputs) * repeats` rows |
| DecodeDriver.RepeatEachAt | mesh_tensorflow_caet5/utils.py:816-817 | row i of the repeated stream is input `i // repeats` |
| DecodeDriver.RepeatCopies | mesh_tensorflow_caet5/utils.py:816-817 | copy k of input j is row `j * repeats + k` |
| DecodeDriver.StreamRowAt | mesh_tensorflow_caet5/utils.py:816-818 | row m of batch j is a copy of input `(j * batch_size + m) // repeats` |
| DecodeDriver.NoRepeatedRowDropped | mesh_tensorflow_caet5/utils.py:816-818 | when the rows fill whole batches, dropping the remainder loses no repeated row |
| DecodeDriver.KeptDecodes | mesh_tensorflow_caet5/utils.py:826-828 | the first `min(len(decodes), len(inputs) * repeats)` decodes, unchanged |
| DecodeDriver.OutputLineAnswersItsInput | mesh_tensorflow_caet5/utils.py:816-828 | with the model answering every streamed row, the output has exactly `len(inputs) * repeats` lines and line i answers input `i // repeats` |
| DecodeDriver.OutputFilename | mesh_tensorflow_caet5/utils.py:829 | the name, a dash, then canonical text that reads back as the step, which by Text.CanonicalIsStr is exactly `str(step)` |
| DecodeDriver.DecodeFromFileSpec | mesh_tensorflow_caet5/utils.py:776-830 | succeeds exactly when every line parses, `sequence_length` has `inputs`, and has `controlcode` when the table is truthy; otherwise the parse error, then KeyError(`inputs`), then KeyError(`controlcode`); the output goes to `<name>-<step>` with at most `len(lines) * repeats` lines |
| DecodeDriver.MissingControlcodeLengthRaises | mesh_tensorflow_caet5/utils.py:798-803 | a non-empty file that reads in full raises KeyError(`controlcode`) when `sequence_length` lacks that key, before decoding |
| DecodeDriver.DecodeWithoutTableRaises | mesh_tensorflow_caet5/utils.py:760-796 | without a table any non-empty file raises |
| DecodeDriver.MissingMarkerRaises | mesh_tensorflow_caet5/utils.py:793-795 | a line without the marker raises IndexError once every earlier line parses |
| DecodeDriver.DecodeFromFile | mesh_tensorflow_caet5/utils.py:776-830 | nothing is written when reading or a sequence-length lookup raises; otherwise exactly the kept decodes are written with the library writer to `<name>-<step>` |

## Left out

- Mesh placement, lowering, tensor import and export, Scaffold, saver, restore and gin hooks, and estimator specs: these are foreign library calls. The model follows keys and shapes, not tensors.
- Model math: `call_simple`, `decode`, `sample_autoregressive`, the cycle-consistency loss weights, micro-batch loss division, the learning-rate schedule and `simple_metrics`. These are floating-point tensor computations. The loss plan says which call is made and with which features.
- Metric results and summaries: metric values are floats. A metric call is an effect carrying its arguments, and a flush is an effect.
- Logging: `tf.logging` and `tf.Print` calls have no effect on the bookkeeping.
- tf.data mechanics (`from_tensor_slices`, `map`, `concatenate`, `batch`, `trim_and_pad_dataset`, `prefetch`, `process_attribute`): only their list-level effect is modelled. Eval padding rows are `None` rows. `process_attribute` is not part of this model.
- Upstream library calls: checkpoint discovery (`get_checkpoint_iterator`, `get_step_from_checkpoint_path`) is a list of steps given as a parameter, and `decode` is a function parameter. `get_inputs_from_file` gives the lines as a parameter. `encode_inputs` is not part of this model; its padding to whole batches is a precondition of the output lemmas.
- `eval_dataset_fn`: its result is an optional list of tasks. The conversion of raw tuples to `EvalDataset` is not modelled. Post-processing and metric functions are identified by number, and the post-processor is a parameter.
- caet5/models/mtf_model.py is not part of this model. It forwards to the drivers through code that is not shown.
- EvalDriver.EvalModel: requires a positive batch size, because the pipeline cannot batch by zero. A zero batch size in the source fails inside tf.data before the pad check.
- EvalDriver.EvalSpec: requires a positive batch size, for the same reason.
- ModelDispatch.LossPlanWith: on the language-model path with `inputs` present, the source first replaces the feature dict by the library's `_dynamic_text2self` (utils.py:272-273), which is not part of this model. The model looks the later keys up in the original key set, so for that case its lookups describe the dict before the rewrite.
- DecodeDriver.ParseLine: the `ValueError` for a non-numeric attribute carries the fixed text `invalid literal for int() with base 10`. Python also appends the offending text's repr, which is not modelled. Digits are the ASCII digits `0` to `9`: Python's `int` also accepts the other Unicode decimal digits (such as Arabic-Indic digits), which the model rejects with ValueError.
- DecodeDriver.OutputLineAnswersItsInput: with the attribute embedding on, `input_fn` feeds the unpadded `dst_attributes` next to `all_input_ids` in one `from_tensor_slices` call (utils.py:807-813). When `encode_inputs` pads the ids to whole batches and `len(inputs)` is not a multiple of the batch size, the two lists differ in length, and `from_tensor_slices` rejects them. The model feeds one padded list of rows, so it does not capture this mismatch. DecodeDriver.FedKeys likewise records only which keys are fed, not their lengths.
- DecodeDriver.DecodeFromFile: `repeats` is a natural number. A negative count, which `tf.data` treats as repeating forever, is not modelled.
- FileWriting.FileStore.WriteLinesLibrary: the on-disk format of the library's `write_lines_to_file` is not modelled. The file records the lines it was given.
- FeatureImport.FeatureLength: `sequence_length` is modelled as a dict from feature key to length. The docstrings (utils.py:72, utils.py:768) also allow an integer, but every use subscripts it (utils.py:158, 177, 207, 799, 802), so an integer raises TypeError in the source. That form is not modelled.
- The control-code table is modelled as a list of strings. Other subscriptable values (such as a dict) are not modelled.

## Findings

| source | as written | input that shows it | evidently intended | confidence | as-written member | corrected member |
|---|---|---|---|---|---|---|
| mesh_tensorflow_caet5/utils.py:374 | `logits_and_loss` passes `num_microbatches` to library models, but that local is assigned only in the train branch (line 378). Eval mode raises NameError. | eval mode, a plain `transformer.Bitransformer`, features `inputs` and `targets` | eval computes the loss in one micro-batch (the library default is 1) | medium, not executed | ModelDispatch.EvalOfBitransformerFails | ModelDispatch.FixedAgreesWithSource |

The eval driver also shows a behaviour that follows from the source as written, and the model states it rather than correcting it. Two surviving tasks with the same name share one cache entry, but each asks for its examples from the decode list. The pad check then compares against the targets counted once, so it raises when the count does not happen to agree. See `EvalDriver.RepeatedTaskCounts`, `EvalDriver.RepeatedTaskPadCheck` and `EvalDriver.RepeatedSingleExampleRaises`.
