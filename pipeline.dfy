/** One run of `main` after the payload is fetched (src/main.rs:60-88):
    summarize with retries, extract the array, write the record to the file,
    then try the store, whose failure is only reported. */
module Pipeline {
  import opened Wrappers
  import opened Json
  import opened Stream
  import opened Retry
  import opened Extract
  import opened Persist

  /** How a run ends: the record written to `summary.json`, the fatal
      error `main` returns, or the panic of the slicing expression. */
  datatype RunOutcome = Completed(record: Value) | Fatal(message: string) | Panicked

  /** A run's outcome and the message printed if the store upsert failed. */
  datatype RunReport = RunReport(outcome: RunOutcome, storeFailure: Option<string>)

  /** The steps after summarization. `fileError` is the failure of
      `fs::write`, if any; `mongoUri` the value of `MONGO_URI`; `storeError`
      the failure of the store client once a URI is set. The store is
      consulted only after the file was written and only when a URI is set
      (src/main.rs:92-95), and a completed record always holds an array. */
  function FinishRun(summary: Result<string, string>, model: string,
                     parse: string -> Result<Value, string>,
                     fileError: Option<string>, mongoUri: Option<string>,
                     storeError: Option<string>): (report: RunReport)
    ensures report.storeFailure.Some? ==> report.outcome.Completed? && mongoUri.Some? && storeError.Some?
    ensures mongoUri.None? ==> report.storeFailure.None?
    ensures report.outcome.Completed? ==> summary.Ok? && fileError.None?
    ensures report.outcome.Completed? ==>
      var record := report.outcome.record;
      record.Object? && "summary" in record.fields && record.fields["summary"].Array?
  {
    match summary
    case Err(e) => RunReport(Fatal(e), None)
    case Ok(text) =>
      match ParseSummary(text, parse)
      case PanicOnSlice => RunReport(Panicked, None)
      case Rejected(x) => RunReport(Fatal(ErrorMessage(x)), None)
      case Parsed(entries) =>
        if fileError.Some? then RunReport(Fatal(fileError.value), None)
        else RunReport(Completed(SummaryRecord(model, entries)),
                       if mongoUri.Some? && storeError.Some? then Some("Failed to upsert summary in MongoDB: " + storeError.value) else None)
  }

  /** Every way a run ends. It completes exactly when the summary was
      obtained, the extraction found an array and the file was written; the
      record then holds the model and that array, and its store identifier
      is built from the model. It panics exactly when the summary was
      obtained and its slice panics. A failed summary, a rejected extraction
      and a failed write end the run with their own messages. The store's
      failure is reported with its message and never changes the outcome. */
  lemma FinishRunOutcomes(summary: Result<string, string>, model: string,
                          parse: string -> Result<Value, string>,
                          fileError: Option<string>, mongoUri: Option<string>,
                          storeError: Option<string>, timestamp: string)
    ensures var report := FinishRun(summary, model, parse, fileError, mongoUri, storeError);
      && (report.outcome.Completed? <==>
            summary.Ok? && ParseSummary(summary.value, parse).Parsed? && fileError.None?)
      && (report.outcome.Completed? ==>
            && report.outcome.record == SummaryRecord(model, ParseSummary(summary.value, parse).entries)
            && DocumentId(report.outcome.record, timestamp) == model + "-" + timestamp)
      && (report.outcome == Panicked <==> summary.Ok? && ParseSummary(summary.value, parse) == PanicOnSlice)
      && (summary.Err? ==> report.outcome == Fatal(summary.error))
      && (summary.Ok? && ParseSummary(summary.value, parse).Rejected? ==>
            report.outcome == Fatal(ErrorMessage(ParseSummary(summary.value, parse).error)))
      && (summary.Ok? && ParseSummary(summary.value, parse).Parsed? && fileError.Some? ==>
            report.outcome == Fatal(fileError.value))
      && (report.storeFailure.Some? <==> report.outcome.Completed? && mongoUri.Some? && storeError.Some?)
      && (report.storeFailure.Some? ==>
            report.storeFailure.value == "Failed to upsert summary in MongoDB: " + storeError.value)
    ensures forall u, e :: FinishRun(summary, model, parse, fileError, u, e).outcome
                             == FinishRun(summary, model, parse, fileError, mongoUri, storeError).outcome
  {
    if summary.Ok? && ParseSummary(summary.value, parse).Parsed? && fileError.None? {
      RecordDocumentId(model, ParseSummary(summary.value, parse).entries, timestamp);
    }
  }

  /** A store failure is only ever reported for a run whose upsert has a
      target, and that target's document id is `model-timestamp`. */
  lemma StoreFailureHasTarget(summary: Result<string, string>, model: string,
                              parse: string -> Result<Value, string>, fileError: Option<string>,
                              mongoUri: Option<string>, db: Option<string>, collection: Option<string>,
                              storeError: Option<string>, timestamp: string)
    ensures var report := FinishRun(summary, model, parse, fileError, mongoUri, storeError);
      report.storeFailure.Some? ==>
        var target := PlanUpsert(mongoUri, db, collection, report.outcome.record, timestamp);
        target.Some? && target.value.id == model + "-" + timestamp
  {
    var report := FinishRun(summary, model, parse, fileError, mongoUri, storeError);
    if report.storeFailure.Some? {
      FinishRunOutcomes(summary, model, parse, fileError, mongoUri, storeError, timestamp);
    }
  }

  /** The run: `summarize_with_retry`, then the remaining steps. */
  method Run(transports: seq<Transport>, model: string, parse: string -> Result<Value, string>,
             fileError: Option<string>, mongoUri: Option<string>, storeError: Option<string>)
    returns (report: RunReport, attempts: nat)
    requires |transports| >= MaxAttempts
    ensures StopsFirstAt(Outcomes(transports), attempts)
    ensures report == FinishRun(Outcomes(transports)[attempts - 1], model, parse, fileError, mongoUri, storeError)
  {
    var summary, retries;
    summary, attempts, retries := SummarizeWithRetry(transports);
    report := FinishRun(summary, model, parse, fileError, mongoUri, storeError);
  }
}
