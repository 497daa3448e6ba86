/** Recovering the JSON array from the summary text (src/main.rs:63-72):
    the text from the first '[' to the last ']' is parsed and must be an
    array. The JSON parser (`serde_json::from_str`) is a parameter. */
module Extract {
  import opened Wrappers
  import opened Text
  import opened Json

  datatype ExtractError = MissingDelimiters | InvalidJson(reason: string) | NotAnArray

  /** The messages of src/main.rs:66, 68 and 71. */
  function ErrorMessage(e: ExtractError): string {
    match e
    case MissingDelimiters => "xAI summary missing JSON array delimiters."
    case InvalidJson(reason) => "xAI summary is not valid JSON array. Parsing failed: " + reason
    case NotAnArray => "xAI summary must be a JSON array."
  }

  /** Outcomes of the slicing expression at src/main.rs:63-66 as written. */
  datatype SliceOutcome = Slice(text: string) | NoDelimiters | SlicePanic

  /** `summary.find('[')` and `summary.rfind(']')`, then `&summary[start..=end]`.
      Rust panics on that slice when `start > end + 1`; when `start == end + 1`
      (the text "][") the range is empty and the slice is "". */
  function ArraySliceAsWritten(s: string): (r: SliceOutcome)
    ensures r == NoDelimiters <==> '[' !in s || ']' !in s
    ensures r == SlicePanic <==> '[' in s && ']' in s && Find(s, '[').value > RFind(s, ']').value + 1
  {
    match Find(s, '[')
    case None => NoDelimiters
    case Some(start) =>
      match RFind(s, ']')
      case None => NoDelimiters
      case Some(end) => if start <= end + 1 then Slice(s[start..end + 1]) else SlicePanic
  }

  /** As written, the text "] [" has both delimiters, yet the slice panics
      instead of reporting an error; and the text "][" yields the empty slice. */
  lemma AsWrittenPanicsOnReversedDelimiters()
    ensures ArraySliceAsWritten("] [") == SlicePanic
    ensures ArraySliceAsWritten("][") == Slice("")
  {
    assert Find("] [", '[') == Some(2);
    assert RFind("] [", ']') == Some(0);
    assert Find("][", '[') == Some(1);
    assert RFind("][", ']') == Some(0);
  }

  /** The slice with the reversed case reported as missing delimiters
      rather than panicking or parsing the empty text. */
  function ArraySlice(s: string): Result<string, ExtractError> {
    match Find(s, '[')
    case None => Err(MissingDelimiters)
    case Some(start) =>
      match RFind(s, ']')
      case None => Err(MissingDelimiters)
      case Some(end) => if start <= end then Ok(s[start..end + 1]) else Err(MissingDelimiters)
  }

  /** Some '[' comes before some ']' in `s`. */
  predicate HasBracketPair(s: string) {
    exists i, j :: 0 <= i < j < |s| && s[i] == '[' && s[j] == ']'
  }

  /** The corrected slice fails exactly when no '[' precedes a ']'. */
  lemma ArraySliceFailsIffNoPair(s: string)
    ensures ArraySlice(s).Err? <==> !HasBracketPair(s)
    ensures ArraySlice(s).Err? ==> ArraySlice(s) == Err(MissingDelimiters)
  {
    if ArraySlice(s).Ok? {
      var start, end := Find(s, '[').value, RFind(s, ']').value;
      assert start != end && s[start] == '[' && s[end] == ']';
    }
  }

  /** A successful slice runs from the first '[' to the last ']' inclusive:
      it starts with '[' and ends with ']'; no '[' comes before the start
      and no ']' after the end (the contracts of `Find` and `RFind`). */
  lemma ArraySliceBounds(s: string)
    requires ArraySlice(s).Ok?
    ensures Find(s, '[').Some? && RFind(s, ']').Some?
    ensures var start, end := Find(s, '[').value, RFind(s, ']').value;
      var t := ArraySlice(s).value;
      && start < end && t == s[start..end + 1]
      && t[0] == '[' && t[|t| - 1] == ']'
  {
    var start, end := Find(s, '[').value, RFind(s, ']').value;
    assert start != end;
    var t := s[start..end + 1];
    assert t[0] == s[start] && t[|t| - 1] == s[end];
  }

  /** Text wrapped around a bracketed block, with no '[' before the block
      and no ']' after it, yields exactly that block. */
  lemma ArraySliceOfWrapped(before: string, block: string, after: string)
    requires |block| >= 2 && block[0] == '[' && block[|block| - 1] == ']'
    requires '[' !in before && ']' !in after
    ensures ArraySlice(before + block + after) == Ok(block)
  {
    var s := before + block + after;
    var start, end := |before|, |before| + |block| - 1;
    assert s[start] == block[0] && s[end] == block[|block| - 1];
    forall k | 0 <= k < start ensures s[k] != '[' {
      assert s[k] == before[k];
    }
    forall k | end < k < |s| ensures s[k] != ']' {
      assert s[k] == after[k - end - 1];
    }
    FindAt(s, '[', start);
    RFindAt(s, ']', end);
    assert s[start..end + 1] == block;
  }

  /** A text that starts with '[' and ends with ']' is its own slice. */
  lemma ArraySliceOfBracketed(s: string)
    requires |s| >= 2 && s[0] == '[' && s[|s| - 1] == ']'
    ensures ArraySlice(s) == Ok(s)
  {
    FindAt(s, '[', 0);
    RFindAt(s, ']', |s| - 1);
    assert s[0..|s|] == s;
  }

  /** The extraction examples: a block inside prose is found; a JSON object
      has no delimiters; two blocks give one slice spanning both, which the
      parser then has to reject. */
  lemma ArraySliceExamples()
    ensures ArraySlice("prefix " + "[1,2,3]" + " suffix") == Ok("[1,2,3]")
    ensures ArraySlice("{\"a\":1}") == Err(MissingDelimiters)
    ensures ArraySlice("[1,2]" + " and also " + "[3,4]") == Ok("[1,2]" + " and also " + "[3,4]")
  {
    ArraySliceOfWrapped("prefix ", "[1,2,3]", " suffix");
    assert '[' !in "{\"a\":1}";
    var both := "[1,2]" + " and also " + "[3,4]";
    assert both[0] == '[' && both[|both| - 1] == ']';
    ArraySliceOfBracketed(both);
  }

  /** Where the original does not panic and does not produce the empty
      slice, the corrected slice is the same. */
  lemma ArraySliceAgreesWithAsWritten(s: string)
    ensures ArraySliceAsWritten(s) == NoDelimiters ==> ArraySlice(s) == Err(MissingDelimiters)
    ensures ArraySliceAsWritten(s).Slice? && ArraySliceAsWritten(s).text != []
      ==> ArraySlice(s) == Ok(ArraySliceAsWritten(s).text)
    ensures ArraySlice(s).Ok? ==> ArraySliceAsWritten(s) == Slice(ArraySlice(s).value)
  {
  }

  /** What the extraction of src/main.rs:63-72 produces: the array, one of
      the three errors, or a panic of the slicing expression, which ends the
      program without an error value. */
  datatype Extraction = Parsed(entries: Value) | Rejected(error: ExtractError) | PanicOnSlice

  /** Slice as written, parse, and check the shape. The delimiter error
      comes exactly when a delimiter is missing, the panic exactly when the
      first '[' lies more than one place after the last ']', and a parsed
      result is always an array. */
  function ParseSummary(summary: string, parse: string -> Result<Value, string>): (r: Extraction)
    ensures r == Rejected(MissingDelimiters) <==> '[' !in summary || ']' !in summary
    ensures r == PanicOnSlice
      <==> '[' in summary && ']' in summary && Find(summary, '[').value > RFind(summary, ']').value + 1
    ensures r.Parsed? ==> r.entries.Array?
  {
    match ArraySliceAsWritten(summary)
    case NoDelimiters => Rejected(MissingDelimiters)
    case SlicePanic => PanicOnSlice
    case Slice(slice) =>
      match parse(slice)
      case Err(reason) => Rejected(InvalidJson(reason))
      case Ok(v) => if v.Array? then Parsed(v) else Rejected(NotAnArray)
  }

  /** When the slice does not panic, the text from the first '[' to the last
      ']' goes to the parser, and the outcome is the parser's error, the
      shape error, or the parsed array. That text is the corrected slice
      whenever some '[' precedes some ']', and is empty otherwise (the
      text "][" adjacent). */
  lemma ParseSummaryOutcomes(summary: string, parse: string -> Result<Value, string>)
    ensures '[' in summary && ']' in summary && Find(summary, '[').value <= RFind(summary, ']').value + 1 ==>
      var slice := summary[Find(summary, '[').value..RFind(summary, ']').value + 1];
      && (parse(slice).Err? ==> ParseSummary(summary, parse) == Rejected(InvalidJson(parse(slice).error)))
      && (parse(slice).Ok? && !parse(slice).value.Array? ==> ParseSummary(summary, parse) == Rejected(NotAnArray))
      && (parse(slice).Ok? && parse(slice).value.Array? ==> ParseSummary(summary, parse) == Parsed(parse(slice).value))
      && (HasBracketPair(summary) ==> ArraySlice(summary) == Ok(slice))
      && (!HasBracketPair(summary) ==> slice == [])
  {
    if '[' in summary && ']' in summary && Find(summary, '[').value <= RFind(summary, ']').value + 1 {
      var start, end := Find(summary, '[').value, RFind(summary, ']').value;
      assert ArraySliceAsWritten(summary) == Slice(summary[start..end + 1]);
      ArraySliceFailsIffNoPair(summary);
      if !HasBracketPair(summary) {
        assert start == end + 1;
      }
    }
  }

  /** The program as written panics on "] [" and hands the empty text to
      the parser on "][". */
  lemma ParseSummaryExamples(parse: string -> Result<Value, string>)
    ensures ParseSummary("] [", parse) == PanicOnSlice
    ensures parse("").Err? ==> ParseSummary("][", parse) == Rejected(InvalidJson(parse("").error))
  {
    AsWrittenPanicsOnReversedDelimiters();
  }

  /** The three messages are told apart, and the parser's reason can be
      read back from the parse-failure message. */
  lemma ErrorMessageIdentifiesError(e1: ExtractError, e2: ExtractError)
    ensures ErrorMessage(e1) == ErrorMessage(e2) ==> e1 == e2
  {
    var m1, m2 := ErrorMessage(e1), ErrorMessage(e2);
    if m1 == m2 {
      assert m1[12] == m2[12] && m1[13] == m2[13];
      if e1.InvalidJson? && e2.InvalidJson? {
        var n := |"xAI summary is not valid JSON array. Parsing failed: "|;
        assert e1.reason == m1[n..] == m2[n..] == e2.reason;
      }
    }
  }
}
