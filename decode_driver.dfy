/**
 * Decoding from a file of prompts (`decode_from_file_ll`). Every input line
 * carries its target attribute after a `|dst_attribute:` marker; the
 * attribute picks a control code from a table, every input is repeated a
 * given number of times and batched, and the decodes, cut back to one per
 * repeated input, are handed to the library writer under a file name that
 * ends in the checkpoint step.
 */
module DecodeDriver {
  import opened Wrappers
  import opened Lists
  import Text
  import Arithmetic
  import TrainSetup
  import FileWriting

  /** The marker between a prompt and its target attribute. */
  const Delimiter := "|dst_attribute:"

  /** The message `int()` raises with; the text Python appends to it (the offending string's repr) is not modelled. */
  const IntLiteralMessage := "invalid literal for int() with base 10"

  // ---------------------------------------------------------------------------
  // One input line
  // ---------------------------------------------------------------------------

  /**
   * `control_codes_decode[index]` on a list or on `None`: subscripting `None`
   * raises TypeError; a list accepts Python's negative indices and raises
   * IndexError outside them.
   */
  function ControlCodeAt(table: Option<seq<string>>, index: int): (r: Result<string>)
    ensures table.None? ==> r == Err(TypeError)
    ensures table.Some? ==> (r.Ok? <==> -|table.value| <= index < |table.value|)
    ensures table.Some? && r.Err? ==> r.error == IndexError
    ensures r.Ok? ==> r.value == table.value[index % |table.value|]
  {
    match table
    case None => Err(TypeError)
    case Some(codes) =>
      if 0 <= index < |codes| then
        Arithmetic.DivByBounds(index, |codes|, 0);
        Ok(codes[index])
      else if -|codes| <= index < 0 then
        Arithmetic.DivByBounds(index, |codes|, -1);
        Ok(codes[|codes| + index])
      else Err(IndexError)
  }

  /** What one line contributes to the three lists built from the file. */
  datatype Prompt = Prompt(input: string, attribute: string, controlCode: string)

  /** The first piece of a split is a prefix of the string. */
  lemma SplitHeadIsPrefix(s: string, d: string)
    requires |d| > 0
    ensures |Text.Split(s, d)[0]| <= |s| && s[..|Text.Split(s, d)[0]|] == Text.Split(s, d)[0]
  {
  }

  /**
   * The string has no separator exactly when it splits into one piece, and
   * otherwise it starts with the first piece, the separator and the second
   * piece, and the first piece is free of the separator.
   */
  lemma SplitLeadingPieces(s: string, d: string)
    requires |d| > 0
    ensures Text.IndexOf(s, d).None? <==> |Text.Split(s, d)| == 1
    ensures var p := Text.Split(s, d);
      |p| >= 2 ==> |p[0]| + |d| + |p[1]| <= |s| && s[..|p[0]| + |d| + |p[1]|] == p[0] + d + p[1]
    ensures Text.IndexOf(Text.Split(s, d)[0], d).None?
  {
    Text.SplitPiecesFree(s, d);
    match Text.IndexOf(s, d)
    case None =>
    case Some(i) => SplitFirstTwoPieces(s, d, i);
  }

  lemma SplitFirstTwoPieces(s: string, d: string, i: nat)
    requires |d| > 0 && Text.IndexOf(s, d) == Some(i)
    ensures var p := Text.Split(s, d);
      |p| >= 2 && |p[0]| + |d| + |p[1]| <= |s| && s[..|p[0]| + |d| + |p[1]|] == p[0] + d + p[1]
  {
    var e := i + |d|;
    var rest := Text.Split(s[e..], d);
    assert Text.Split(s, d) == [s[..i]] + rest;
    SplitHeadIsPrefix(s[e..], d);
    SliceInThree(s, i, e, e + |rest[0]|);
  }

  lemma SliceInThree(s: string, i: nat, e: nat, k: nat)
    requires i <= e <= k <= |s|
    ensures s[..k] == s[..i] + s[i..e] + s[e..][..k - e]
  {
    assert s[e..][..k - e] == s[e..k];
  }

  /**
   * The second piece of `line.split(Delimiter)`, found without splitting: the
   * text after the first marker, up to the next marker or the end of the
   * line. None when the line has no marker.
   */
  function AttributePiece(line: string): (a: Option<string>)
    ensures a.None? <==> Text.IndexOf(line, Delimiter).None?
    ensures a.Some? ==> Text.IndexOf(a.value, Delimiter).None?
    ensures a.Some? ==>
      var start := Text.IndexOf(line, Delimiter).value + |Delimiter|;
      var n := start + |a.value|;
      && n <= |line| && line[start..n] == a.value
      && (n == |line| || (n + |Delimiter| <= |line| && line[n..][..|Delimiter|] == Delimiter))
  {
    match Text.IndexOf(line, Delimiter)
    case None => None
    case Some(i) => Some(PieceFrom(line, i + |Delimiter|))
  }

  /** The text from `start` up to the next marker or the end of the line. */
  function PieceFrom(line: string, start: nat): (a: string)
    requires start <= |line|
    ensures Text.IndexOf(a, Delimiter).None?
    ensures var n := start + |a|;
      && n <= |line| && line[start..n] == a
      && (n == |line| || (n + |Delimiter| <= |line| && line[n..][..|Delimiter|] == Delimiter))
  {
    var rest := line[start..];
    match Text.IndexOf(rest, Delimiter)
    case None =>
      assert line[start..|line|] == rest;
      rest
    case Some(j) =>
      PieceUpToMarker(line, start, j);
      rest[..j]
  }

  /** The text from `start` up to the next marker is free of markers and is followed by one. */
  lemma PieceUpToMarker(line: string, start: nat, j: nat)
    requires start <= |line| && Text.IndexOf(line[start..], Delimiter) == Some(j)
    ensures var n := start + j;
      && n + |Delimiter| <= |line| && line[start..n] == line[start..][..j]
      && line[n..][..|Delimiter|] == Delimiter
      && Text.IndexOf(line[start..][..j], Delimiter).None?
  {
    var rest := line[start..];
    PieceBeforeFirstFree(rest, j);
    assert line[start + j..][..|Delimiter|] == rest[j..j + |Delimiter|];
  }

  /** The text before the first marker holds no marker. */
  lemma PieceBeforeFirstFree(s: string, j: nat)
    requires Text.IndexOf(s, Delimiter) == Some(j)
    ensures Text.IndexOf(s[..j], Delimiter).None?
  {
    var head := s[..j];
    if Text.IndexOf(head, Delimiter).Some? {
      var k := Text.IndexOf(head, Delimiter).value;
      assert head[k..k + |Delimiter|] == s[k..k + |Delimiter|];
      assert Text.OccursAt(s, Delimiter, k);
      assert false;
    }
  }

  /** With a marker, the split has a second piece, and it is `AttributePiece`. */
  lemma SecondPieceIsAttribute(line: string)
    requires Text.IndexOf(line, Delimiter).Some?
    ensures var p := Text.Split(line, Delimiter);
      |p| >= 2 && AttributePiece(line) == Some(p[1])
  {
    var i := Text.IndexOf(line, Delimiter).value;
    var rest := line[i + |Delimiter|..];
    assert Text.Split(line, Delimiter) == [line[..i]] + Text.Split(rest, Delimiter);
    match Text.IndexOf(rest, Delimiter)
    case None =>
    case Some(j) =>
      assert Text.Split(rest, Delimiter) == [rest[..j]] + Text.Split(rest[j + |Delimiter|..], Delimiter);
  }

  /**
   * One iteration of the loop over the split lines: the prompt is piece 0,
   * the attribute piece 1 (IndexError when the line has no marker), and the
   * control code is the table entry at `int(piece 1)`: a ValueError when
   * piece 1 is not a decimal, the lookup's exception when the entry is missing.
   */
  function ParseLine(line: string, table: Option<seq<string>>): (r: Result<Prompt>)
    ensures Text.IndexOf(line, Delimiter).None? ==> r == Err(IndexError)
    ensures table.None? ==> r.Err?
    ensures r.Ok? ==> Text.IndexOf(r.value.input, Delimiter).None?
    ensures r.Ok? ==> var n := |r.value.input| + |Delimiter| + |r.value.attribute|;
      n <= |line| && line[..n] == r.value.input + Delimiter + r.value.attribute
    ensures r.Ok? ==> Text.ParseInt(r.value.attribute).Some? &&
                      ControlCodeAt(table, Text.ParseInt(r.value.attribute).value) == Ok(r.value.controlCode)
    ensures match AttributePiece(line)
      case None => r == Err(IndexError)
      case Some(a) =>
        match Text.ParseInt(a)
        case None => r == Err(ValueError(IntLiteralMessage))
        case Some(index) =>
          match ControlCodeAt(table, index)
          case Err(e) => r == Err(e)
          case Ok(code) => r.Ok? && r.value.attribute == a && r.value.controlCode == code
  {
    SplitLeadingPieces(line, Delimiter);
    var pieces := Text.Split(line, Delimiter);
    if |pieces| < 2 then Err(IndexError)
    else
      SecondPieceIsAttribute(line);
      match Text.ParseInt(pieces[1])
      case None => Err(ValueError(IntLiteralMessage))
      case Some(index) =>
        match ControlCodeAt(table, index)
        case Err(e) => Err(e)
        case Ok(code) => Ok(Prompt(pieces[0], pieces[1], code))
  }

  /** An input line as the prompt file holds it: the prompt, the marker, the attribute number. */
  function FormatLine(input: string, attribute: int): string
  {
    input + Delimiter + Text.IntToString(attribute)
  }

  /**
   * Reading a line back: a prompt without `|` and any attribute number come
   * back unchanged, with the control code the table holds for that number.
   */
  lemma FormatThenParse(input: string, attribute: int, table: Option<seq<string>>)
    requires '|' !in input
    ensures ParseLine(FormatLine(input, attribute), table) ==
            match ControlCodeAt(table, attribute)
            case Err(e) => Err(e)
            case Ok(code) => Ok(Prompt(input, Text.IntToString(attribute), code))
  {
    var a := Text.IntToString(attribute);
    Text.SplitAfterPrefix(input, Delimiter, a);
    assert '|' !in a by {
      if attribute < 0 {
        assert a == "-" + Text.NatToString(-attribute);
        Text.NatToStringDigits(-attribute);
      } else {
        Text.NatToStringDigits(attribute);
      }
    }
    Text.SplitWithoutSeparator(a, Delimiter);
    Text.IntToStringRoundTrip(attribute);
  }

  // ---------------------------------------------------------------------------
  // All input lines
  // ---------------------------------------------------------------------------

  /** The lists `inputs`, `dst_attributes` and `control_code_strings`. */
  datatype Prompts = Prompts(inputs: seq<string>, attributes: seq<string>, controlCodes: seq<string>)

  function ParseStep(prev: Result<Prompts>, line: string, table: Option<seq<string>>): Result<Prompts>
  {
    if prev.Err? then prev
    else
      match ParseLine(line, table)
      case Err(e) => Err(e)
      case Ok(p) => Ok(Prompts(prev.value.inputs + [p.input], prev.value.attributes + [p.attribute],
                               prev.value.controlCodes + [p.controlCode]))
  }

  /** The loop over all lines: the first line that raises ends it with that exception. */
  function ParseAll(lines: seq<string>, table: Option<seq<string>>): (r: Result<Prompts>)
    ensures r.Ok? ==> |r.value.inputs| == |lines| && |r.value.attributes| == |lines| &&
                      |r.value.controlCodes| == |lines|
  {
    if lines == [] then Ok(Prompts([], [], []))
    else ParseStep(ParseAll(lines[..|lines| - 1], table), lines[|lines| - 1], table)
  }

  lemma ParseAllExtend(lines: seq<string>, i: nat, table: Option<seq<string>>)
    requires i < |lines|
    ensures ParseAll(lines[..i + 1], table) == ParseStep(ParseAll(lines[..i], table), lines[i], table)
  {
    assert lines[..i + 1][..i] == lines[..i];
  }

  /** Once a prefix of the lines raises, the whole loop raises the same exception. */
  lemma {:induction false} ParseAllStops(lines: seq<string>, i: nat, table: Option<seq<string>>)
    requires i <= |lines| && ParseAll(lines[..i], table).Err?
    ensures ParseAll(lines, table) == ParseAll(lines[..i], table)
    decreases |lines| - i
  {
    if i == |lines| {
      assert lines[..i] == lines;
    } else {
      ParseAllExtend(lines, i, table);
      ParseAllStops(lines, i + 1, table);
    }
  }

  /** The file is read in full exactly when every one of its lines parses. */
  lemma {:induction false} ParseAllOkIff(lines: seq<string>, table: Option<seq<string>>)
    ensures ParseAll(lines, table).Ok? <==> forall i :: 0 <= i < |lines| ==> ParseLine(lines[i], table).Ok?
  {
    if ParseAll(lines, table).Ok? {
      forall i | 0 <= i < |lines| ensures ParseLine(lines[i], table).Ok? {
        ParseAllAt(lines, table, i);
      }
    } else if forall i :: 0 <= i < |lines| ==> ParseLine(lines[i], table).Ok? {
      ParseAllOkWhenAllParse(lines, table);
    }
  }

  lemma {:induction false} ParseAllOkWhenAllParse(lines: seq<string>, table: Option<seq<string>>)
    requires forall i :: 0 <= i < |lines| ==> ParseLine(lines[i], table).Ok?
    ensures ParseAll(lines, table).Ok?
    decreases |lines|
  {
    if lines != [] {
      var init := lines[..|lines| - 1];
      assert forall i :: 0 <= i < |init| ==> init[i] == lines[i];
      ParseAllOkWhenAllParse(init, table);
      assert ParseLine(lines[|lines| - 1], table).Ok?;
    }
  }

  /** Entry `i` of each of the three lists is what line `i` contributes. */
  lemma {:induction false} ParseAllAt(lines: seq<string>, table: Option<seq<string>>, i: nat)
    requires ParseAll(lines, table).Ok? && i < |lines|
    ensures var p := ParseAll(lines, table).value;
      ParseLine(lines[i], table) == Ok(Prompt(p.inputs[i], p.attributes[i], p.controlCodes[i]))
    decreases |lines|
  {
    var n := |lines| - 1;
    var init := lines[..n];
    ParseStepOk(ParseAll(init, table), lines[n], table);
    var before, p := ParseAll(init, table).value, ParseAll(lines, table).value;
    var here := Prompt(p.inputs[i], p.attributes[i], p.controlCodes[i]);
    if i < n {
      ParseAllAt(init, table, i);
      assert init[i] == lines[i];
      assert here == Prompt(before.inputs[i], before.attributes[i], before.controlCodes[i]);
    } else {
      var last := ParseLine(lines[n], table).value;
      assert here == Prompt(last.input, last.attribute, last.controlCode);
    }
    assert ParseLine(lines[i], table) == Ok(here);
  }

  lemma ParseStepOk(prev: Result<Prompts>, line: string, table: Option<seq<string>>)
    requires ParseStep(prev, line, table).Ok?
    ensures prev.Ok? && ParseLine(line, table).Ok?
    ensures var p := ParseLine(line, table).value;
      ParseStep(prev, line, table).value ==
        Prompts(prev.value.inputs + [p.input], prev.value.attributes + [p.attribute],
                prev.value.controlCodes + [p.controlCode])
  {
  }

  /** The exception raised is that of the first line that fails. */
  lemma {:induction false} ParseAllFirstError(lines: seq<string>, table: Option<seq<string>>, i: nat)
    requires i < |lines| && ParseLine(lines[i], table).Err?
    requires forall j :: 0 <= j < i ==> ParseLine(lines[j], table).Ok?
    ensures ParseAll(lines, table) == Err(ParseLine(lines[i], table).error)
  {
    var before := lines[..i];
    ParseAllOkIff(before, table);
    assert forall j :: 0 <= j < |before| ==> before[j] == lines[j];
    ParseAllExtend(lines, i, table);
    ParseAllStops(lines, i + 1, table);
  }

  /** Without a control-code table only an empty prompt file gets past the loop. */
  lemma NoTableOnlyEmptyFile(lines: seq<string>)
    ensures ParseAll(lines, None).Ok? <==> lines == []
  {
    ParseAllOkIff(lines, None);
    if lines != [] {
      assert ParseLine(lines[0], None).Err?;
    }
  }

  /** The loop of `decode_from_file_ll` over the split lines. */
  method ParseLines(lines: seq<string>, table: Option<seq<string>>) returns (r: Result<Prompts>)
    ensures r == ParseAll(lines, table)
  {
    var inputs: seq<string> := [];
    var attributes: seq<string> := [];
    var controlCodes: seq<string> := [];
    var i := 0;
    while i < |lines|
      invariant 0 <= i <= |lines|
      invariant ParseAll(lines[..i], table) == Ok(Prompts(inputs, attributes, controlCodes))
    {
      ParseAllExtend(lines, i, table);
      var pieces := Text.Split(lines[i], Delimiter);
      inputs := inputs + [pieces[0]];
      if |pieces| < 2 {
        ParseAllStops(lines, i + 1, table);
        return Err(IndexError);
      }
      attributes := attributes + [pieces[1]];
      var index := Text.ParseInt(pieces[1]);
      if index.None? {
        ParseAllStops(lines, i + 1, table);
        return Err(ValueError(IntLiteralMessage));
      }
      var code := ControlCodeAt(table, index.value);
      if code.Err? {
        ParseAllStops(lines, i + 1, table);
        return Err(code.error);
      }
      controlCodes := controlCodes + [code.value];
      i := i + 1;
    }
    assert lines[..i] == lines;
    r := Ok(Prompts(inputs, attributes, controlCodes));
  }

  // ---------------------------------------------------------------------------
  // The decode input pipeline
  // ---------------------------------------------------------------------------

  /** `if control_codes_decode:`: the table is present and non-empty. */
  predicate TableTruthy(table: Option<seq<string>>) {
    table.Some? && |table.value| > 0
  }

  /** The feature keys `input_fn` feeds; a table is fed only when it is truthy (present and non-empty). */
  function FedKeys(attributeEmbedding: bool, table: Option<seq<string>>): (keys: set<string>)
    ensures "inputs" in keys
    ensures "attribute" in keys <==> attributeEmbedding
    ensures "controlcode" in keys <==> TableTruthy(table)
  {
    {"inputs"} + (if attributeEmbedding then {"attribute"} else {}) +
    (if TableTruthy(table) then {"controlcode"} else {})
  }

  /** A non-empty prompt file that reads in full always has its control codes fed to the model. */
  lemma ReadFileFeedsControlCodes(lines: seq<string>, table: Option<seq<string>>, attributeEmbedding: bool)
    requires ParseAll(lines, table).Ok? && lines != []
    ensures "controlcode" in FedKeys(attributeEmbedding, table)
  {
    ParseAllAt(lines, table, 0);
  }

  /** `flat_map(lambda x: from_tensors(x).repeat(repeats))`: each row `repeats` times in a row. */
  function RepeatEach<T>(xs: seq<T>, repeats: nat): (ys: seq<T>)
    ensures |ys| == |xs| * repeats
  {
    if xs == [] then []
    else
      var rest := RepeatEach(xs[1..], repeats);
      assert |xs| * repeats == repeats + (|xs| - 1) * repeats;
      seq(repeats, _ => xs[0]) + rest
  }

  lemma PositiveProduct(a: nat, b: nat)
    requires a * b > 0
    ensures a > 0 && b > 0
  {
  }

  lemma MulMonotone(a: nat, b: nat, c: nat)
    requires a <= b
    ensures a * c <= b * c
  {
  }

  /** Row `i` of the repeated stream is copy `i % repeats` of input `i // repeats`. */
  lemma {:induction false} RepeatEachAt<T>(xs: seq<T>, repeats: nat, i: nat)
    requires i < |xs| * repeats
    ensures repeats > 0 && 0 <= i / repeats < |xs|
    ensures RepeatEach(xs, repeats)[i] == xs[i / repeats]
  {
    PositiveProduct(|xs|, repeats);
    QuotientBelow(i, |xs|, repeats);
    var j, k := i / repeats, i % repeats;
    assert i == j * repeats + k;
    RepeatCopies(xs, repeats, j, k);
  }

  lemma QuotientBelow(i: nat, n: nat, d: nat)
    requires d > 0 && i < n * d
    ensures 0 <= i / d < n
  {
    if i / d >= n {
      MulMonotone(n, i / d, d);
    }
  }

  /** Copy `k` of input `j` sits at row `j * repeats + k`. */
  lemma {:induction false} RepeatCopies<T>(xs: seq<T>, repeats: nat, j: nat, k: nat)
    requires j < |xs| && k < repeats
    ensures j * repeats + k < |xs| * repeats
    ensures RepeatEach(xs, repeats)[j * repeats + k] == xs[j]
    decreases j
  {
    var rest := RepeatEach(xs[1..], repeats);
    assert RepeatEach(xs, repeats) == seq(repeats, _ => xs[0]) + rest;
    MulMonotone(j + 1, |xs|, repeats);
    if j > 0 {
      RepeatCopies(xs[1..], repeats, j - 1, k);
      assert j * repeats + k == repeats + ((j - 1) * repeats + k);
    }
  }

  /** The batches the model decodes: the repeated rows, in full batches, the short tail dropped. */
  function DecodeStream<T>(rows: seq<T>, repeats: nat, batchSize: nat): (batches: seq<seq<T>>)
    requires batchSize > 0
  {
    TrainSetup.BatchDropRemainder(RepeatEach(rows, repeats), batchSize)
  }

  /** Row `m` of batch `j` is one of the copies of input `(j * batch_size + m) // repeats`. */
  lemma StreamRowAt<T>(rows: seq<T>, repeats: nat, batchSize: nat, j: nat, m: nat) returns (input: nat)
    requires batchSize > 0 && j < |DecodeStream(rows, repeats, batchSize)| && m < batchSize
    ensures repeats > 0 && input == (j * batchSize + m) / repeats && input < |rows|
    ensures m < |DecodeStream(rows, repeats, batchSize)[j]| && DecodeStream(rows, repeats, batchSize)[j][m] == rows[input]
  {
    var xs := RepeatEach(rows, repeats);
    TrainSetup.BatchIsSlice(xs, batchSize, j);
    var i := j * batchSize + m;
    assert i < |xs| && DecodeStream(rows, repeats, batchSize)[j][m] == xs[i];
    RepeatEachAt(rows, repeats, i);
    input := i / repeats;
  }

  /**
   * When the rows fill whole batches, the batching drops none of the
   * repeated rows, whatever the number of repeats.
   */
  lemma NoRepeatedRowDropped<T>(rows: seq<T>, repeats: nat, batchSize: nat)
    requires batchSize > 0 && |rows| % batchSize == 0
    ensures |DecodeStream(rows, repeats, batchSize)| * batchSize == |rows| * repeats
  {
    var k := |rows| / batchSize;
    assert |rows| == batchSize * k;
    assert |rows| * repeats == batchSize * (k * repeats);
    Arithmetic.MulMod(batchSize, k * repeats);
  }

  // ---------------------------------------------------------------------------
  // Output
  // ---------------------------------------------------------------------------

  /** `decodes[:len(inputs) * repeats]`, which drops the decodes of padding rows. */
  function KeptDecodes(decodes: seq<string>, inputCount: nat, repeats: nat): (kept: seq<string>)
    ensures |kept| == Min(|decodes|, inputCount * repeats)
    ensures forall i :: 0 <= i < |kept| ==> kept[i] == decodes[i]
  {
    if inputCount * repeats <= |decodes| then decodes[..inputCount * repeats] else decodes
  }

  /**
   * When the model answers every streamed row and the (padded) rows fill
   * whole batches, the output holds exactly `len(inputs) * repeats` lines and
   * line `i` answers input `i // repeats`.
   */
  lemma OutputLineAnswersItsInput<T>(rows: seq<T>, inputCount: nat, repeats: nat, batchSize: nat,
                                     decodes: seq<string>, answer: T -> string, i: nat)
    returns (input: nat)
    requires batchSize > 0 && inputCount <= |rows| && |rows| % batchSize == 0
    requires |decodes| == |DecodeStream(rows, repeats, batchSize)| * batchSize
    requires forall k :: 0 <= k < |decodes| && k < |RepeatEach(rows, repeats)| ==>
               decodes[k] == answer(RepeatEach(rows, repeats)[k])
    requires i < inputCount * repeats
    ensures |KeptDecodes(decodes, inputCount, repeats)| == inputCount * repeats
    ensures repeats > 0 && input == i / repeats && input < inputCount
    ensures KeptDecodes(decodes, inputCount, repeats)[i] == answer(rows[input])
  {
    NoRepeatedRowDropped(rows, repeats, batchSize);
    MulMonotone(inputCount, |rows|, repeats);
    RepeatEachAt(rows[..inputCount], repeats, i);
    RepeatEachAt(rows, repeats, i);
    input := i / repeats;
    assert i < |decodes| && i < |RepeatEach(rows, repeats)|;
    assert decodes[i] == answer(RepeatEach(rows, repeats)[i]);
  }

  /**
   * `"{}-{}".format(output_filename, checkpoint_step)`: the name, a dash, and
   * the step written as `str` writes it, so the step reads back.
   */
  function OutputFilename(name: string, step: int): (path: string)
    ensures |path| > |name| && path[..|name|] == name && path[|name|] == '-'
    ensures Text.ParseInt(path[|name| + 1..]) == Some(step)
    ensures Text.CanonicalInt(path[|name| + 1..])
  {
    Text.IntToStringRoundTrip(step);
    Text.IntToStringCanonical(step);
    var path := name + "-" + Text.IntToString(step);
    assert path[|name| + 1..] == Text.IntToString(step);
    path
  }

  /** The model's decoding, a parameter: the decodes for the prompts as read from the file. */
  type Decoder = Prompts -> seq<string>

  /**
   * `decode_from_file_ll` as a value: the exception the reading loop or the
   * sequence-length lookups raise, or the output path and the lines handed
   * to the library writer. After the file is read, `sequence_length["inputs"]`
   * is looked up, then `sequence_length["controlcode"]` when the table is
   * truthy.
   */
  function DecodeFromFileSpec(lines: seq<string>, table: Option<seq<string>>, sequenceLength: map<string, nat>,
                              repeats: nat, step: int, outputName: string, decoder: Decoder)
    : (r: Result<(string, seq<string>)>)
    ensures r.Ok? <==> (ParseAll(lines, table).Ok? && "inputs" in sequenceLength &&
                        (TableTruthy(table) ==> "controlcode" in sequenceLength))
    ensures ParseAll(lines, table).Err? ==> r == Err(ParseAll(lines, table).error)
    ensures ParseAll(lines, table).Ok? && "inputs" !in sequenceLength ==> r == Err(KeyError("inputs"))
    ensures (ParseAll(lines, table).Ok? && "inputs" in sequenceLength && TableTruthy(table) &&
             "controlcode" !in sequenceLength) ==> r == Err(KeyError("controlcode"))
    ensures r.Ok? ==> r.value.0 == OutputFilename(outputName, step) && |r.value.1| <= |lines| * repeats
  {
    match ParseAll(lines, table)
    case Err(e) => Err(e)
    case Ok(p) =>
      if "inputs" !in sequenceLength then Err(KeyError("inputs"))
      else if TableTruthy(table) && "controlcode" !in sequenceLength then Err(KeyError("controlcode"))
      else Ok((OutputFilename(outputName, step), KeptDecodes(decoder(p), |p.inputs|, repeats)))
  }

  /**
   * A non-empty prompt file that reads in full still raises KeyError when the
   * sequence-length table has no `controlcode` entry, before anything is decoded.
   */
  lemma MissingControlcodeLengthRaises(lines: seq<string>, table: Option<seq<string>>,
                                       sequenceLength: map<string, nat>, repeats: nat, step: int,
                                       outputName: string, decoder: Decoder)
    requires lines != [] && ParseAll(lines, table).Ok?
    requires "inputs" in sequenceLength && "controlcode" !in sequenceLength
    ensures DecodeFromFileSpec(lines, table, sequenceLength, repeats, step, outputName, decoder)
            == Err(KeyError("controlcode"))
  {
    ReadFileFeedsControlCodes(lines, table, false);
  }

  /** Without a control-code table, any non-empty prompt file makes decoding raise before anything is written. */
  lemma DecodeWithoutTableRaises(lines: seq<string>, sequenceLength: map<string, nat>, repeats: nat, step: int,
                                 outputName: string, decoder: Decoder)
    requires lines != []
    ensures DecodeFromFileSpec(lines, None, sequenceLength, repeats, step, outputName, decoder).Err?
  {
    NoTableOnlyEmptyFile(lines);
  }

  /** A line without the marker raises IndexError when every line before it parses. */
  lemma MissingMarkerRaises(lines: seq<string>, table: Option<seq<string>>, sequenceLength: map<string, nat>, i: nat,
                            repeats: nat, step: int, outputName: string, decoder: Decoder)
    requires i < |lines| && Text.IndexOf(lines[i], Delimiter).None?
    requires forall j :: 0 <= j < i ==> ParseLine(lines[j], table).Ok?
    ensures DecodeFromFileSpec(lines, table, sequenceLength, repeats, step, outputName, decoder) == Err(IndexError)
  {
    ParseAllFirstError(lines, table, i);
  }

  /**
   * `decode_from_file_ll`: read the prompts, decode them, keep one decode per
   * repeated input and write them with the library writer to
   * `<output_filename>-<step>`. Nothing is written when reading raises.
   */
  method DecodeFromFile(store: FileWriting.FileStore, lines: seq<string>, table: Option<seq<string>>,
                        sequenceLength: map<string, nat>, repeats: nat, step: int, outputName: string,
                        decoder: Decoder)
    returns (r: Result<()>)
    modifies store
    ensures var spec := DecodeFromFileSpec(lines, table, sequenceLength, repeats, step, outputName, decoder);
      && (r.Err? <==> spec.Err?)
      && (spec.Err? ==> r.error == spec.error && store.files == old(store.files))
      && (spec.Ok? ==> store.files == old(store.files)[spec.value.0 := FileWriting.LibraryLines(spec.value.1)])
  {
    var prompts := ParseLines(lines, table);
    if prompts.Err? {
      return Err(prompts.error);
    }
    if "inputs" !in sequenceLength {
      return Err(KeyError("inputs"));
    }
    if TableTruthy(table) && "controlcode" !in sequenceLength {
      return Err(KeyError("controlcode"));
    }
    var decodes := decoder(prompts.value);
    var kept := KeptDecodes(decodes, |prompts.value.inputs|, repeats);
    var path := OutputFilename(outputName, step);
    assert DecodeFromFileSpec(lines, table, sequenceLength, repeats, step, outputName, decoder) == Ok((path, kept));
    store.WriteLinesLibrary(kept, path);
    r := Ok(());
  }
}
