/** The stream aggregation of `summarize_with_xai` (src/main.rs:354-382):
    the response stream is consumed chunk by chunk, every delta's content is
    appended to one growing summary, tool calls are only announced, a stream
    error ends the attempt, and a blank summary is an error. */
module Stream {
  import opened Wrappers
  import opened Text
  import opened Errors

  /** A function-style tool invocation: its name and serialized arguments. */
  datatype FunctionCall = FunctionCall(name: string, arguments: string)

  /** A tool-call event: the tool type's debug name and, for a
      function-style tool, the function called. */
  datatype ToolCall = ToolCall(kind: string, call: Option<FunctionCall>)

  /** Incremental content with the tool calls that came with it. */
  datatype Delta = Delta(toolCalls: seq<ToolCall>, content: string)

  datatype Output = Output(delta: Option<Delta>)

  datatype Chunk = Chunk(outputs: seq<Output>)

  /** One item the stream yields: a chunk, or a status error (src/main.rs:357). */
  datatype StreamItem = Received(chunk: Chunk) | Failed(status: string)

  /** What the loop prints for a tool call (src/main.rs:362-367). */
  datatype Notice = Running(kind: string) | Calling(name: string, arguments: string)

  // ---------------------------------------------------------------------
  // Specification: text and notices of the consumed part of a stream.
  // Each sequence function is defined by its last element, the order in
  // which the loop meets them.
  // ---------------------------------------------------------------------

  function OutputText(o: Output): string {
    if o.delta.Some? then o.delta.value.content else ""
  }

  function OutputsText(outs: seq<Output>): string {
    if outs == [] then "" else OutputsText(outs[..|outs| - 1]) + OutputText(outs[|outs| - 1])
  }

  /** The text of a sequence of chunks: every delta's content, in order. */
  function ChunksText(cs: seq<Chunk>): string {
    if cs == [] then "" else ChunksText(cs[..|cs| - 1]) + OutputsText(cs[|cs| - 1].outputs)
  }

  function CallNotices(t: ToolCall): seq<Notice> {
    [Running(t.kind)] + if t.call.Some? then [Calling(t.call.value.name, t.call.value.arguments)] else []
  }

  function ToolNotices(calls: seq<ToolCall>): seq<Notice> {
    if calls == [] then [] else ToolNotices(calls[..|calls| - 1]) + CallNotices(calls[|calls| - 1])
  }

  function OutputNotices(o: Output): seq<Notice> {
    if o.delta.Some? then ToolNotices(o.delta.value.toolCalls) else []
  }

  function OutputsNotices(outs: seq<Output>): seq<Notice> {
    if outs == [] then [] else OutputsNotices(outs[..|outs| - 1]) + OutputNotices(outs[|outs| - 1])
  }

  function ChunksNotices(cs: seq<Chunk>): seq<Notice> {
    if cs == [] then [] else ChunksNotices(cs[..|cs| - 1]) + OutputsNotices(cs[|cs| - 1].outputs)
  }

  /** How far a stream gets: the chunks received before the first status
      error, and that error if there is one. */
  datatype Consumption = Consumption(chunks: seq<Chunk>, failure: Option<string>)

  function Consume(items: seq<StreamItem>): (c: Consumption) {
    if items == [] then Consumption([], None)
    else
      var before := Consume(items[..|items| - 1]);
      if before.failure.Some? then before
      else match items[|items| - 1]
        case Received(c) => Consumption(before.chunks + [c], None)
        case Failed(status) => Consumption(before.chunks, Some(status))
  }

  /** The attempt's result: the mapped status error, the blank-summary
      error, or the summary. */
  function Summarize(items: seq<StreamItem>): (r: Result<string, string>) {
    var c := Consume(items);
    if c.failure.Some? then Err(MapErrorMessage(c.failure.value))
    else if Trim(ChunksText(c.chunks)) == [] then Err(MissingCompletionText)
    else Ok(ChunksText(c.chunks))
  }

  /** The notices printed before the attempt ends. */
  function StreamNotices(items: seq<StreamItem>): seq<Notice> {
    ChunksNotices(Consume(items).chunks)
  }

  // ---------------------------------------------------------------------
  // The loop.
  // ---------------------------------------------------------------------

  /** The `while let` loop of src/main.rs:354-382. */
  method Aggregate(items: seq<StreamItem>) returns (r: Result<string, string>, notices: seq<Notice>)
    ensures r == Summarize(items)
    ensures notices == StreamNotices(items)
  {
    var summary: string := "";
    notices := [];
    ghost var done: seq<Chunk> := [];
    var i := 0;
    while i < |items|
      invariant 0 <= i <= |items|
      invariant Consume(items[..i]) == Consumption(done, None)
      invariant summary == ChunksText(done)
      invariant notices == ChunksNotices(done)
    {
      assert items[..i + 1][..i] == items[..i];
      match items[i]
      case Failed(status) =>
        ConsumeStopsAtFailure(items, i + 1);
        r := Err(MapErrorMessage(status));
        return;
      case Received(chunk) =>
        summary, notices := ConsumeChunk(chunk, summary, notices);
        assert (done + [chunk])[..|done|] == done;
        done := done + [chunk];
        i := i + 1;
    }
    assert items[..|items|] == items;
    if Trim(summary) == [] {
      r := Err(MissingCompletionText);
    } else {
      r := Ok(summary);
    }
  }

  /** The body of the `while let` loop for one chunk (src/main.rs:359-375):
      announce every tool call, then append the delta's content. */
  method ConsumeChunk(chunk: Chunk, summary: string, notices: seq<Notice>)
    returns (summary': string, notices': seq<Notice>)
    ensures summary' == summary + OutputsText(chunk.outputs)
    ensures notices' == notices + OutputsNotices(chunk.outputs)
  {
    var outs := chunk.outputs;
    summary', notices' := summary, notices;
    for j := 0 to |outs|
      invariant summary' == summary + OutputsText(outs[..j])
      invariant notices' == notices + OutputsNotices(outs[..j])
    {
      OutputsStep(outs, j);
      AppendAssoc(summary, OutputsText(outs[..j]), OutputText(outs[j]));
      AppendAssoc(notices, OutputsNotices(outs[..j]), OutputNotices(outs[j]));
      if outs[j].delta.Some? {
        var delta := outs[j].delta.value;
        notices' := AnnounceToolCalls(delta.toolCalls, notices');
        if delta.content != [] {
          summary' := summary' + delta.content;
        }
      }
    }
    assert outs[..|outs|] == outs;
  }

  lemma AppendAssoc<T>(a: seq<T>, b: seq<T>, c: seq<T>)
    ensures a + (b + c) == a + b + c
  {
  }

  /** How the text and the notices of the outputs grow by one output. */
  lemma OutputsStep(outs: seq<Output>, j: int)
    requires 0 <= j < |outs|
    ensures OutputsText(outs[..j + 1]) == OutputsText(outs[..j]) + OutputText(outs[j])
    ensures OutputsNotices(outs[..j + 1]) == OutputsNotices(outs[..j]) + OutputNotices(outs[j])
  {
    assert outs[..j + 1][..j] == outs[..j];
  }

  /** The `for tool_call in delta.tool_calls` loop (src/main.rs:361-369). */
  method AnnounceToolCalls(calls: seq<ToolCall>, notices: seq<Notice>) returns (notices': seq<Notice>)
    ensures notices' == notices + ToolNotices(calls)
  {
    notices' := notices;
    for k := 0 to |calls|
      invariant notices' == notices + ToolNotices(calls[..k])
    {
      assert calls[..k + 1][..k] == calls[..k];
      notices' := notices' + [Running(calls[k].kind)];
      if calls[k].call.Some? {
        var f := calls[k].call.value;
        notices' := notices' + [Calling(f.name, f.arguments)];
      }
    }
    assert calls[..|calls|] == calls;
  }

  /** Once a status error has been met, nothing later in the stream matters. */
  lemma {:induction false} ConsumeStopsAtFailure(items: seq<StreamItem>, k: nat)
    requires k <= |items| && Consume(items[..k]).failure.Some?
    ensures Consume(items) == Consume(items[..k])
    decreases |items|
  {
    if k < |items| {
      var n := |items|;
      assert items[..n - 1][..k] == items[..k];
      ConsumeStopsAtFailure(items[..n - 1], k);
    } else {
      assert items[..k] == items;
    }
  }

  // ---------------------------------------------------------------------
  // What the specification means.
  // ---------------------------------------------------------------------

  predicate AllReceived(items: seq<StreamItem>) {
    forall i :: 0 <= i < |items| ==> items[i].Received?
  }

  /** The chunks of a stream that holds no status error. */
  function ReceivedChunks(items: seq<StreamItem>): (cs: seq<Chunk>)
    requires AllReceived(items)
    ensures |cs| == |items| && forall i :: 0 <= i < |items| ==> cs[i] == items[i].chunk
  {
    seq(|items|, i requires 0 <= i < |items| => items[i].chunk)
  }

  /** Item `k` is the stream's first status error. */
  predicate FirstFailureAt(items: seq<StreamItem>, k: int) {
    0 <= k < |items| && items[k].Failed? && AllReceived(items[..k])
  }

  /** A stream without status errors is consumed completely. */
  lemma {:induction false} ConsumeAllReceived(items: seq<StreamItem>)
    requires AllReceived(items)
    ensures Consume(items) == Consumption(ReceivedChunks(items), None)
    decreases |items|
  {
    if items != [] {
      var n := |items|;
      assert AllReceived(items[..n - 1]);
      ConsumeAllReceived(items[..n - 1]);
      assert ReceivedChunks(items) == ReceivedChunks(items[..n - 1]) + [items[n - 1].chunk];
    }
  }

  /** Consumption fails exactly when the stream holds a status error. */
  lemma {:induction false} ConsumeFailsIffFailed(items: seq<StreamItem>)
    ensures Consume(items).failure.None? <==> AllReceived(items)
    decreases |items|
  {
    if items != [] {
      var n := |items|;
      ConsumeFailsIffFailed(items[..n - 1]);
      if AllReceived(items) {
        assert AllReceived(items[..n - 1]);
      }
      if Consume(items).failure.None? {
        forall i | 0 <= i < n ensures items[i].Received? {
          if i < n - 1 { assert items[i] == items[..n - 1][i]; }
        }
      }
    }
  }

  /** A stream is consumed up to its first status error and ends with it. */
  lemma ConsumeFirstFailure(items: seq<StreamItem>, k: int)
    requires FirstFailureAt(items, k)
    ensures Consume(items) == Consumption(ReceivedChunks(items[..k]), Some(items[k].status))
  {
    ConsumeAllReceived(items[..k]);
    assert items[..k + 1][..k] == items[..k];
    ConsumeStopsAtFailure(items, k + 1);
  }

  /** An attempt whose stream has a status error fails with that error,
      mapped; whatever follows it in the stream is never looked at. */
  lemma SummarizeOnFailure(items: seq<StreamItem>, k: int)
    requires FirstFailureAt(items, k)
    ensures Summarize(items) == Err(MapErrorMessage(items[k].status))
  {
    ConsumeFirstFailure(items, k);
  }

  /** On a stream without status errors the attempt fails with the
      missing-completion error exactly when the text is all whitespace, and
      otherwise returns the text. The empty stream is such a stream. */
  lemma SummarizeCompleteStream(items: seq<StreamItem>)
    requires AllReceived(items)
    ensures var text := ChunksText(ReceivedChunks(items));
      && (Summarize(items).Err? <==> IsBlank(text))
      && (IsBlank(text) ==> Summarize(items) == Err(MissingCompletionText))
      && (!IsBlank(text) ==> Summarize(items) == Ok(text))
  {
    ConsumeAllReceived(items);
  }

  /** The text of consecutive stretches of a stream is the concatenation of
      their texts: chunk boundaries do not matter. */
  lemma {:induction false} ChunksTextAppend(a: seq<Chunk>, b: seq<Chunk>)
    ensures ChunksText(a + b) == ChunksText(a) + ChunksText(b)
    decreases |b|
  {
    if b != [] {
      var n := |b|;
      assert (a + b)[..|a + b| - 1] == a + b[..n - 1];
      ChunksTextAppend(a, b[..n - 1]);
    } else {
      assert a + b == a;
    }
  }

  lemma {:induction false} OutputsTextAppend(a: seq<Output>, b: seq<Output>)
    ensures OutputsText(a + b) == OutputsText(a) + OutputsText(b)
    decreases |b|
  {
    if b != [] {
      var n := |b|;
      assert (a + b)[..|a + b| - 1] == a + b[..n - 1];
      OutputsTextAppend(a, b[..n - 1]);
    } else {
      assert a + b == a;
    }
  }

  // An independent reading of "the in-order concatenation of every delta's
  // content": list the contents of the deltas that exist, front to back,
  // and join them.

  function OutputsContents(outs: seq<Output>): seq<string> {
    if outs == [] then []
    else (if outs[0].delta.Some? then [outs[0].delta.value.content] else []) + OutputsContents(outs[1..])
  }

  function DeltaContents(cs: seq<Chunk>): seq<string> {
    if cs == [] then [] else OutputsContents(cs[0].outputs) + DeltaContents(cs[1..])
  }

  function Concat(ss: seq<string>): string {
    if ss == [] then "" else ss[0] + Concat(ss[1..])
  }

  lemma {:induction false} ConcatAppend(a: seq<string>, b: seq<string>)
    ensures Concat(a + b) == Concat(a) + Concat(b)
    decreases |a|
  {
    if a != [] {
      assert (a + b)[1..] == a[1..] + b;
      ConcatAppend(a[1..], b);
    } else {
      assert a + b == b;
    }
  }

  lemma {:induction false} OutputsTextIsConcat(outs: seq<Output>)
    ensures OutputsText(outs) == Concat(OutputsContents(outs))
    decreases |outs|
  {
    if outs != [] {
      var o, rest := outs[0], outs[1..];
      var head := if o.delta.Some? then [o.delta.value.content] else [];
      OutputsTextIsConcat(rest);
      assert outs == [o] + rest;
      OutputsTextAppend([o], rest);
      assert [o][..0] == [];
      assert OutputsText([o]) == OutputText(o);
      assert Concat(head) == OutputText(o);
      ConcatAppend(head, OutputsContents(rest));
    }
  }

  /** The summary text is the in-order concatenation of every delta's
      content; outputs without a delta contribute nothing. */
  lemma {:induction false} ChunksTextIsConcat(cs: seq<Chunk>)
    ensures ChunksText(cs) == Concat(DeltaContents(cs))
    decreases |cs|
  {
    if cs != [] {
      var c, rest := cs[0], cs[1..];
      ChunksTextIsConcat(rest);
      OutputsTextIsConcat(c.outputs);
      assert cs == [c] + rest;
      ChunksTextAppend([c], rest);
      assert [c][..0] == [];
      assert ChunksText([c]) == OutputsText(c.outputs);
      ConcatAppend(OutputsContents(c.outputs), DeltaContents(rest));
    }
  }

  /** The same chunks with every tool call removed. */
  function WithoutToolCalls(cs: seq<Chunk>): (r: seq<Chunk>)
    ensures |r| == |cs|
  {
    seq(|cs|, i requires 0 <= i < |cs| =>
      Chunk(seq(|cs[i].outputs|, j requires 0 <= j < |cs[i].outputs| =>
        var o := cs[i].outputs[j];
        if o.delta.Some? then Output(Some(Delta([], o.delta.value.content))) else o)))
  }

  /** Tool calls never change the summary text. */
  lemma {:induction false} ToolCallsDoNotChangeText(cs: seq<Chunk>)
    ensures ChunksText(WithoutToolCalls(cs)) == ChunksText(cs)
    decreases |cs|
  {
    if cs != [] {
      var n := |cs|;
      var w := WithoutToolCalls(cs);
      assert w[..n - 1] == WithoutToolCalls(cs[..n - 1]);
      ToolCallsDoNotChangeText(cs[..n - 1]);
      var outs, stripped := cs[n - 1].outputs, w[n - 1].outputs;
      forall j | 0 <= j < |outs| ensures OutputText(stripped[j]) == OutputText(outs[j]) {
      }
      OutputsTextOfStripped(outs, stripped);
      assert ChunksText(w) == ChunksText(w[..n - 1]) + OutputsText(stripped);
    }
  }

  lemma {:induction false} OutputsTextOfStripped(outs: seq<Output>, stripped: seq<Output>)
    requires |stripped| == |outs|
    requires forall j :: 0 <= j < |outs| ==> OutputText(stripped[j]) == OutputText(outs[j])
    ensures OutputsText(stripped) == OutputsText(outs)
    decreases |outs|
  {
    if outs != [] {
      var n := |outs|;
      OutputsTextOfStripped(outs[..n - 1], stripped[..n - 1]);
    }
  }

  /** A stream whose every delta content is whitespace ends with the
      missing-completion error. */
  lemma BlankDeltasAreMissing(items: seq<StreamItem>)
    requires AllReceived(items)
    requires forall i, j :: 0 <= i < |items| && 0 <= j < |items[i].chunk.outputs| ==>
      IsBlank(OutputText(items[i].chunk.outputs[j]))
    ensures Summarize(items) == Err(MissingCompletionText)
  {
    BlankChunks(ReceivedChunks(items));
    SummarizeCompleteStream(items);
  }

  lemma BlankAppend(a: string, b: string)
    requires IsBlank(a) && IsBlank(b)
    ensures IsBlank(a + b)
  {
    forall i | 0 <= i < |a + b| ensures IsWhitespace((a + b)[i]) {
      if i >= |a| { assert (a + b)[i] == b[i - |a|]; }
    }
  }

  lemma {:induction false} BlankOutputs(outs: seq<Output>)
    requires forall j :: 0 <= j < |outs| ==> IsBlank(OutputText(outs[j]))
    ensures IsBlank(OutputsText(outs))
    decreases |outs|
  {
    if outs != [] {
      var n := |outs|;
      BlankOutputs(outs[..n - 1]);
      BlankAppend(OutputsText(outs[..n - 1]), OutputText(outs[n - 1]));
    }
  }

  lemma {:induction false} BlankChunks(cs: seq<Chunk>)
    requires forall i, j :: 0 <= i < |cs| && 0 <= j < |cs[i].outputs| ==> IsBlank(OutputText(cs[i].outputs[j]))
    ensures IsBlank(ChunksText(cs))
    decreases |cs|
  {
    if cs != [] {
      var n := |cs|;
      BlankChunks(cs[..n - 1]);
      BlankOutputs(cs[n - 1].outputs);
      BlankAppend(ChunksText(cs[..n - 1]), OutputsText(cs[n - 1].outputs));
    }
  }
}
