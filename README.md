# grokipedia-x pipeline core, modelled in Dafny

grokipedia-x is a one-file Rust program (`src/main.rs`). It fetches a batch
of posts for a query as a JSON payload. It asks an xAI completion model,
which has web search, site search and code execution tools, to turn that
payload into a JSON array of suggested Grokipedia edits. It aggregates the
streamed answer, extracts and checks the array, then writes
`{"model", "summary"}` to `summary.json` and mirrors it into MongoDB when
a store is configured.

This project models the logic around that glue:

- **Text** (`text.dfy`): the `str` methods the program relies on:
  - `contains` (src/main.rs:398-399, 418, 428);
  - `find` and `rfind` for one character (src/main.rs:64-65);
  - `trim` and `is_empty` with Rust's Unicode White_Space set (src/main.rs:371, 378).
  - `StartsWith`, `EndsWith` and `OccursAt` are the model's own helpers for
    stating what those methods mean.
- **Errors** (`errors.dfy`): the gateway-abort test and the wrapping done
  by `map_client_error`/`map_status_message`, plus the retry test of
  `summarize_with_retry`. An error is modelled by its Display text.
- **Stream** (`stream.dfy`): the aggregation loop of `summarize_with_xai`.
  - The stream is a sequence of items. Each item is a chunk, or a status
    error that ends the attempt.
  - `Aggregate` and its two inner loops are methods proved against the
    specification functions `Summarize` and `StreamNotices`.
  - Lemmas state what those functions mean.
- **Request** (`request.dfy`): `expected_entries` and the entry directive it
  selects.
- **Retry** (`retry.dfy`): one attempt (`summarize_with_xai`) and the
  bounded retry loop (`summarize_with_retry`).
  - What the completion service does on attempt i is given as
    `transports[i - 1]`: the client fails, or the client opens a stream.
- **Extract** (`extract.dfy`): slicing from the first `[` to the last `]`,
  parsing, and the array check in `main`.
  - The run uses the slice as written, which panics on some inputs; the
    panic is an outcome of its own.
  - A corrected slice is kept beside it for the finding below.
  - The JSON parser is a function parameter.
- **Persist** (`persist.dfy`): the saved record, the model identifier with
  its fallback, the document id `model-timestamp`, and the upsert target.
  - The formatted clock value is a parameter.
- **Pipeline** (`pipeline.dfy`): the steps of `main` after the payload is
  fetched.
  - The file-write and store failures are parameters.
  - A store failure is only reported and never fails the run.
- **Json** (`json.dfy`) and **Wrappers** (`wrappers.dfy`): an abstract
  `serde_json::Value` with stand-ins for `get`/`as_array`/`as_str`, and
  `Option`/`Result`.

The program always extracts the array before saving, and it always keys the
stored document by `model-timestamp`. The retry loop's final
`Err(last_error.unwrap())` (src/main.rs:413) can never run, because the last
attempt always returns; `Retry.SummarizeWithRetry` has no path past its loop.

## Model

| member | source | states |
|---|---|---|
| Stream.Aggregate | src/main.rs:354-382 | the loop returns exactly `Summarize(items)`: the mapped status error of the first failing item, else the missing-completion error when the text is blank, else the text; its notices are those of the chunks consumed before it stops |
| Stream.ConsumeChunk | src/main.rs:359-375 | one chunk appends exactly the content of its deltas to the summary and exactly its tool-call notices to the notices |
| Stream.AnnounceToolCalls | src/main.rs:361-369 | each tool call prints a "Running" notice, then, for a function tool, a "Calling" notice with its name and arguments, in order |
| Stream.Consume | src/main.rs:355-357 | how far a stream gets; its lemmas below state that it takes every chunk before the first status error, in order, and ends with that error |
| Stream.Summarize | src/main.rs:354-382 | one attempt's result on an opened stream; `Aggregate` computes it, and the lemmas below fix it case by case |
| Stream.ConsumeStopsAtFailure | src/main.rs:356-357 | once a status error has been consumed, later items change nothing |
| Stream.ConsumeAllReceived | src/main.rs:355-376 | a stream without status errors is consumed completely, chunk by chunk |
| Stream.ConsumeFailsIffFailed | src/main.rs:355-357 | consumption ends with a failure exactly when the stream holds a status error |
| Stream.ConsumeFirstFailure | src/main.rs:355-357 | the stream is consumed up to its first status error and ends with that error |
| Stream.SummarizeOnFailure | src/main.rs:357 | an attempt whose stream has a status error fails with that error after `map_status_message` |
| Stream.SummarizeCompleteStream | src/main.rs:378-382 | without status errors: error iff the text is all whitespace, that error is "xAI response missing completion text", otherwise the text itself; this includes the empty stream |
| Stream.ChunksTextAppend | src/main.rs:354-376 | the text of two consecutive stretches of a stream is the concatenation of their texts |
| Stream.OutputsTextAppend | src/main.rs:359-374 | the same for consecutive outputs of a chunk |
| Stream.ConcatAppend | src/main.rs:371-373 | joining two lists of contents is joining each and concatenating |
| Stream.OutputsTextIsConcat | src/main.rs:359-374 | the text of a chunk's outputs is the in-order join of the contents of the deltas present |
| Stream.ChunksTextIsConcat | src/main.rs:354-376 | the summary is the in-order concatenation of every delta's content, defined front to back independently of the loop's order; outputs without a delta contribute nothing |
| Stream.ToolCallsDoNotChangeText | src/main.rs:361-373 | removing every tool call from the stream leaves the summary unchanged |
| Stream.OutputsTextOfStripped | src/main.rs:359-374 | outputs with pairwise equal texts have equal joined text |
| Stream.BlankDeltasAreMissing | src/main.rs:371-382 | a stream whose every delta content is whitespace ends with the missing-completion error |
| Stream.BlankAppend | src/main.rs:378 | two whitespace-only strings concatenate to a whitespace-only string |
| Stream.BlankOutputs | src/main.rs:371-373 | whitespace-only delta contents give a whitespace-only chunk text |
| Stream.BlankChunks | src/main.rs:354-376 | whitespace-only delta contents give a whitespace-only summary |
| Stream.OutputsStep | src/main.rs:359-374 | the text and notices of the outputs grow by exactly one output per iteration |
| Text.TrimStart | src/main.rs:378 | the result is a suffix of the input; what was dropped is all whitespace; the result does not start with whitespace; it is empty iff the input is all whitespace |
| Text.TrimEnd | src/main.rs:378 | the mirror image of `TrimStart` at the end of the string |
| Text.Trim | src/main.rs:378 | the result is no longer than the input and has no whitespace at either end; it is empty iff the input is all whitespace, so `trim().is_empty()` means "all whitespace" |
| Text.Contains | src/main.rs:398-399 | `contains` on string patterns, recursive; `ContainsIffOccurrence` states that it holds exactly when the pattern occurs at some index |
| Text.ContainsIffOccurrence | src/main.rs:398-399 | `contains` holds exactly when the pattern occurs at some index |
| Text.ContainsTransitive | src/main.rs:398-399 | a string containing `p` contains everything `p` contains |
| Text.ContainsAfterPrefix | src/main.rs:418 | an occurrence that cannot start inside a prefix lies in the rest |
| Text.HeadAbsent | src/main.rs:398-399 | a pattern whose first character does not occur in a string is not contained in it |
| Text.Find | src/main.rs:64 | `find`: `None` iff the character is absent; otherwise an index holding it with no earlier occurrence |
| Text.RFind | src/main.rs:65 | `rfind`: `None` iff the character is absent; otherwise an index holding it with no later occurrence |
| Text.FindAt | src/main.rs:64 | the first occurrence is the result of `find` |
| Text.RFindAt | src/main.rs:65 | the last occurrence is the result of `rfind` |
| Errors.MapKeepsRawMessage | src/main.rs:416-435 | the mapped message ends with the raw message; it differs from it exactly when the raw message contains both "invalid compression flag" and "504", and then starts with the abort prefix |
| Errors.MapErrorMessage | src/main.rs:416-435 | `map_client_error`/`map_status_message`; `MapKeepsRawMessage` states that the result ends with the raw message and that it differs from it exactly for a gateway abort, which gets the abort prefix |
| Errors.IsGatewayAbort | src/main.rs:418 | the mappers' test, "invalid compression flag" and "504" both contained; `GatewayTimeoutIsAbort` and `PrefixHidesPatterns` relate it to the retry test |
| Errors.IsGatewayTimeout | src/main.rs:398-399 | the retry test, "invalid compression flag" and "504 Gateway Timeout" both contained; `MapPreservesGatewayTimeout` states that wrapping never changes it |
| Errors.GatewayTimeoutIsAbort | src/main.rs:398-399 | every message the retry controller retries is one the mappers wrap |
| Errors.AbortPrefixAt | src/main.rs:420 | the abort prefix contains no '5' and no "in" |
| Errors.HeadAt | src/main.rs:420 | the same for the first half of the prefix |
| Errors.TailAt | src/main.rs:420 | the same for the second half of the prefix |
| Errors.PrefixHidesPatterns | src/main.rs:398-399 | neither retry pattern can begin inside the abort prefix, whatever follows it |
| Errors.MapPreservesGatewayTimeout | src/main.rs:398-399 | wrapping never changes whether the retry controller retries a message |
| Errors.MissingCompletionTextAt | src/main.rs:379 | the blank-completion error contains no '5' |
| Errors.MissingCompletionTextIsFatal | src/main.rs:379 | the blank-completion error is never retried |
| Request.ExpectedEntries | src/main.rs:313-317 | the length of `payload.data` when that is an array, and 0 otherwise (a missing `data`, a non-object payload, a non-array `data`) |
| Request.Directive | src/main.rs:318-324 | the "at most n" directive, with n the length of `data`, is chosen iff `data` is a non-empty array; the empty-array directive is chosen otherwise |
| Request.DirectiveExamples | src/main.rs:313-324 | two entries give "at most 2"; a payload without `data` and a bare array give the empty-array directive |
| Retry.SummarizeWithXai | src/main.rs:304-382 | one attempt: a client failure gives the mapped error and prints nothing; an opened stream gives `Summarize` of its items |
| Retry.Attempt | src/main.rs:304-382 | one attempt's result on a transport; `FailureCases` and `RetriedErrorsAreWrapped` state how its errors drive the retry controller |
| Retry.Outcomes | src/main.rs:393-394 | one outcome per transport; `OutcomeAt` states that entry i is the outcome of the transport of attempt i + 1 |
| Retry.CallAttempt | src/main.rs:394 | the call of attempt i + 1 yields entry i of `Outcomes` |
| Retry.OutcomeAt | src/main.rs:393-394 | entry i of `Outcomes` is the outcome of the transport of attempt i + 1 |
| Retry.MapAllAt | src/main.rs:393-394 | entry i of a mapped sequence is the function applied to entry i |
| Retry.SummarizeWithRetry | src/main.rs:385-414 | the controller stops at the first attempt that succeeds, fails with an error that is not a gateway timeout, or is the third; it returns that attempt's outcome unchanged and prints a retry notice for each earlier attempt |
| Retry.RetriedAttemptsAre | src/main.rs:405-407 | attempt k is preceded by exactly k - 1 retry notices, for attempts 1, ..., k - 1 |
| Retry.StopsAt | src/main.rs:393-404 | an attempt that stops after attempts that did not is the stopping attempt |
| Retry.StopIsUnique | src/main.rs:393-404 | the stopping attempt is unique, so the contract of `SummarizeWithRetry` fixes its result |
| Retry.StopExists | src/main.rs:390-404 | some attempt among the first three always stops the controller |
| Retry.SuccessAfterRetries | src/main.rs:393-409 | success on attempt k comes after exactly k - 1 retry notices, each for an attempt that failed with a gateway timeout |
| Retry.FailureCases | src/main.rs:397-404 | an error that is not a gateway timeout on attempt 1 ends the run there; gateway timeouts on all three attempts end it with the third error |
| Retry.RetriedErrorsAreWrapped | src/main.rs:348-435 | every retried error carries the abort prefix, and no blank-summary error is ever retried |
| Extract.ArraySliceAsWritten | src/main.rs:63-66 | as written: the delimiter error iff there is no '[' or no ']'; a panic iff the first '[' lies more than one place after the last ']' |
| Extract.ArraySlice | src/main.rs:63-66 | the corrected slice; `ArraySliceFailsIffNoPair` and `ArraySliceBounds` state when it fails and where it starts and ends |
| Extract.AsWrittenPanicsOnReversedDelimiters | src/main.rs:63-66 | as written, "] [" panics and "][" yields the empty slice |
| Extract.ArraySliceFailsIffNoPair | src/main.rs:63-66 | the corrected slice fails iff no '[' comes before a ']', and then with the delimiter error |
| Extract.ArraySliceBounds | src/main.rs:63-66 | a successful slice runs from the first '[' to the last ']' inclusive, starts with '[' and ends with ']' |
| Extract.ArraySliceOfWrapped | src/main.rs:63-66 | a bracketed block with no '[' before it and no ']' after it is exactly the slice |
| Extract.ArraySliceOfBracketed | src/main.rs:63-66 | text that starts with '[' and ends with ']' is its own slice |
| Extract.ArraySliceExamples | src/main.rs:63-66 | prose around "[1,2,3]" gives "[1,2,3]"; a JSON object has no delimiters; two blocks give one slice spanning both |
| Extract.ArraySliceAgreesWithAsWritten | src/main.rs:63-66 | wherever the original neither panics nor yields the empty slice, the corrected slice gives the same result |
| Extract.ParseSummary | src/main.rs:63-72 | the extraction as written: the delimiter error iff a '[' or a ']' is missing; a panic iff the first '[' lies more than one place after the last ']'; a parsed result is always an array |
| Extract.ParseSummaryExamples | src/main.rs:63-72 | the program panics on "] [" and hands the empty text to the parser on "][" |
| Extract.ErrorMessage | src/main.rs:66-71 | the three messages of the extraction; `ErrorMessageIdentifiesError` states that they tell the three errors apart |
| Extract.ErrorMessageIdentifiesError | src/main.rs:66-71 | equal messages come from equal errors: the three kinds are distinct and the parser's reason can be read back |
| Extract.ParseSummaryOutcomes | src/main.rs:63-72 | when the slice does not panic, the text from the first '[' to the last ']' is parsed, and the outcome is the parser's error, the shape error for a non-array, or the parsed array; that text is the corrected slice when some '[' precedes some ']', and empty otherwise |
| Persist.ModelIdentifier | src/main.rs:106-109 | the record's `model` string, or "latest-summary" when `model` is missing or not a string |
| Persist.SummaryRecord | src/main.rs:74-77 | the record's model identifier is the configured model and its `summary` member is the extracted value |
| Persist.DocumentId | src/main.rs:110-114 | the id starts with the model identifier and "-", ends with the timestamp, and has exactly that combined length |
| Persist.RecordDocumentId | src/main.rs:74-114 | the id of the saved record is the configured model, "-", then the timestamp |
| Persist.DocumentIdDeterminesParts | src/main.rs:110-114 | with fixed-width timestamps, an id determines both its model part and its timestamp |
| Persist.PlanUpsert | src/main.rs:92-114 | no upsert iff `MONGO_URI` is unset; otherwise the database and collection fall back to "grokipedia" and "summaries", and the id is `DocumentId` |
| Pipeline.FinishRunOutcomes | src/main.rs:63-88 | a run completes iff the summary was obtained, extraction found an array and the file was written; the record then holds the model and that array, and its id is `model-timestamp`; it panics iff the summary was obtained and its slice panics; a failed summary, a rejected extraction and a failed write end it with their own messages; a store failure is reported, with its message, exactly when the run completed, `MONGO_URI` is set and the store failed; neither the URI nor the store changes the outcome |
| Pipeline.FinishRun | src/main.rs:63-88 | the steps after summarization: a store failure is reported only for a completed run with `MONGO_URI` set, never when it is unset; a completed run had its summary and wrote its file, and its record holds an array |
| Pipeline.StoreFailureHasTarget | src/main.rs:84-114 | a reported store failure always has an upsert target from `PlanUpsert`, whose document id is `model-timestamp` |
| Pipeline.Run | src/main.rs:60-88 | the run stops at the controller's stopping attempt and ends as `FinishRun` of that attempt's outcome, a panic of the slice included |

## Left out

- The `fetch_*` functions (src/main.rs:133-302) are left out: they are HTTP GET plumbing with fixed URLs. The payload is an input to the model.
- The xAI `AsyncClient`, the network transport and the client library are left out. What each attempt receives is the `Transport` parameter.
- The prompt wording is dropped. The directive is kept as a tag carrying n.
- Retry.SummarizeWithXai: does not model a failure of `serde_json::to_string(payload)`. That is a serializer failure of a library call.
- The MongoDB client, `to_document`, `update_one` with upsert and the `updated_at` field from `DateTime::now()` are external store I/O. Only the upsert target is modelled. `MONGO_URI` is an `Option<string>` parameter, and the failure of the store client once it is set is another.
- `Utc::now().format(...)` is a timestamp parameter: the clock and chrono formatting are not modelled.
- `fs::write` and `serde_json::to_string_pretty` of the record are left out. A failure of either is the `fileError` parameter.
- `env::var` and `dotenv` are left out. The missing-`BEARER` and missing-`XAI_API_KEY` errors (src/main.rs:42-47) are not modelled. `XAI_MODEL` and its default `DEFAULT_XAI_MODEL` (src/main.rs:37, 48) are not modelled either: the model is a plain `string` parameter with no default. Only `MONGO_URI`, `MONGO_DB` and `MONGO_COLLECTION` appear, as `Option<string>` parameters.
- `println!`/`eprintln!` output is left out, with three exceptions. The tool-call notices of the aggregation loop and the retry notices are modelled as sequences. The store-failure report of src/main.rs:85 is `RunReport.storeFailure`.
- `serde_json::from_str` is a function parameter. JSON numbers keep their text, because no arithmetic is done on them.
- Async scheduling is left out: the logic is sequential.
- `build_request`, the system and user prompts, the tool list and the parallel-tool-call flag (src/main.rs:326-346) are left out: they only configure the client library's request, which the `Transport` parameter stands for.
- `Json.Get`, `Json.AsArray` and `Json.AsStr` are stand-ins for the `serde_json` accessors, not a model of the library.
- Retry.SummarizeWithRetry: requires `|transports| >= 3`, which supplies one scripted outcome per possible attempt. Each attempt calls the same service afresh; the requirement only makes that call's result available to the model.
- Retry.SummarizeWithRetry: the notices printed inside each attempt are discarded. `Stream.Aggregate` states them per attempt.
- Errors.MapErrorMessage: `map_client_error` and `map_status_message` are one function, because they box errors whose Display text is the same. Which boxed type is returned is not modelled.
- Text.Find and Text.RFind count characters where Rust counts UTF-8 bytes. The slice between the two positions is the same.

## Findings

| source | as written | input that shows it | evidently intended | confidence | as-written member | corrected member |
|---|---|---|---|---|---|---|
| src/main.rs:63-66 | the slice `&summary[start..=end]` is taken whenever both a '[' and a ']' exist, even when the last ']' comes before the first '['; it panics when start > end + 1, and for start == end + 1 it yields "" and so a parse error | "] [" (panic) and "][" (empty slice) | report "xAI summary missing JSON array delimiters." whenever no '[' precedes a ']' | not executed | Extract.ParseSummaryExamples | Extract.ArraySliceFailsIffNoPair |

The run itself (`Extract.ParseSummary`, `Pipeline.FinishRun`, `Pipeline.Run`)
follows the code as written, panic included. `Extract.ArraySliceAgreesWithAsWritten`
and `Extract.ParseSummaryOutcomes` state that the corrected slice differs
from it only on the inputs of this finding.
