/** One summarization attempt and the retry controller around it
    (`summarize_with_xai` and `summarize_with_retry`, src/main.rs:304-414).
    The completion service is outside the model: what it does for an
    attempt is given as a `Transport` value. */
module Retry {
  import opened Wrappers
  import opened Text
  import opened Errors
  import opened Stream

  /** `MAX_ATTEMPTS` (src/main.rs:390). */
  const MaxAttempts: nat := 3

  /** What the service does for one attempt: the client cannot connect or
      open the stream (the `?`s at src/main.rs:309-311 and 348-351, both
      through `map_client_error`), or it opens a stream of items. */
  datatype Transport = ClientFailed(message: string) | Opened(items: seq<StreamItem>)

  /** The result of one attempt. */
  function Attempt(t: Transport): (r: Result<string, string>) {
    match t
    case ClientFailed(message) => Err(MapErrorMessage(message))
    case Opened(items) => Summarize(items)
  }

  /** `summarize_with_xai` for one attempt. */
  method SummarizeWithXai(t: Transport) returns (r: Result<string, string>, notices: seq<Notice>)
    ensures r == Attempt(t)
    ensures notices == if t.Opened? then StreamNotices(t.items) else []
  {
    match t
    case ClientFailed(message) =>
      r, notices := Err(MapErrorMessage(message)), [];
    case Opened(items) =>
      r, notices := Aggregate(items);
  }

  /** The controller returns after this outcome of attempt number `attempt`:
      a success, an error that is not a gateway timeout, or any error on the
      last attempt (src/main.rs:395, 401). */
  predicate Stops(outcome: Result<string, string>, attempt: nat) {
    outcome.Ok? || !IsGatewayTimeout(outcome.error) || attempt == MaxAttempts
  }

  /** Attempt `k` (1-based) is the first one after which the controller
      returns; all before it failed with a gateway timeout. */
  predicate StopsFirstAt(outcomes: seq<Result<string, string>>, k: int) {
    && 1 <= k <= MaxAttempts && k <= |outcomes|
    && Stops(outcomes[k - 1], k)
    && forall j :: 0 <= j < k - 1 ==> !Stops(outcomes[j], j + 1)
  }

  /** The numbers 1, ..., k - 1: the attempts that printed a retry notice
      when attempt k is the last. */
  function RetriedAttempts(k: nat): seq<nat> {
    if k <= 1 then [] else RetriedAttempts(k - 1) + [k - 1]
  }

  /** Retry notices name the attempts 1, ..., k - 1 in order. */
  lemma {:induction false} RetriedAttemptsAre(k: nat)
    requires k >= 1
    ensures |RetriedAttempts(k)| == k - 1
    ensures forall j :: 0 <= j < k - 1 ==> RetriedAttempts(k)[j] == j + 1
  {
    if k > 1 {
      RetriedAttemptsAre(k - 1);
    }
  }

  /** `f` applied to every element of `s`, in order. */
  function MapAll<A, B>(f: A -> B, s: seq<A>): (r: seq<B>)
    ensures |r| == |s|
  {
    if s == [] then [] else MapAll(f, s[..|s| - 1]) + [f(s[|s| - 1])]
  }

  lemma {:induction false} MapAllAt<A, B>(f: A -> B, s: seq<A>, i: int)
    requires 0 <= i < |s|
    ensures MapAll(f, s)[i] == f(s[i])
    decreases |s|
  {
    var n := |s|;
    if i < n - 1 {
      MapAllAt(f, s[..n - 1], i);
    }
  }

  /** The outcome of every attempt, in order. */
  function Outcomes(transports: seq<Transport>): (o: seq<Result<string, string>>)
    ensures |o| == |transports|
  {
    MapAll(Attempt, transports)
  }

  /** Entry i of `Outcomes` is the outcome of attempt i + 1. */
  lemma OutcomeAt(transports: seq<Transport>, i: int)
    requires 0 <= i < |transports|
    ensures Outcomes(transports)[i] == Attempt(transports[i])
  {
    MapAllAt(Attempt, transports, i);
  }

  /** The call `summarize_with_xai(...)` of attempt number `i + 1`
      (src/main.rs:394); the notices it prints are not kept. */
  method CallAttempt(transports: seq<Transport>, i: int) returns (outcome: Result<string, string>)
    requires 0 <= i < |transports|
    ensures outcome == Outcomes(transports)[i]
  {
    var notices;
    outcome, notices := SummarizeWithXai(transports[i]);
    OutcomeAt(transports, i);
  }

  /** `summarize_with_retry`: `transports[i]` is what the service does on
      attempt i + 1. Returns the result, the number of attempts made and the
      attempts that printed "failed due to gateway timeout, retrying". */
  method SummarizeWithRetry(transports: seq<Transport>)
    returns (r: Result<string, string>, attempts: nat, retries: seq<nat>)
    requires |transports| >= MaxAttempts
    ensures StopsFirstAt(Outcomes(transports), attempts)
    ensures r == Outcomes(transports)[attempts - 1]
    ensures retries == RetriedAttempts(attempts)
  {
    ghost var outcomes := Outcomes(transports);
    retries := [];
    var attempt: nat := 1;
    while true
      invariant 1 <= attempt <= MaxAttempts
      invariant forall j :: 0 <= j < attempt - 1 ==> !Stops(outcomes[j], j + 1)
      invariant retries == RetriedAttempts(attempt)
      decreases MaxAttempts - attempt
    {
      var outcome := CallAttempt(transports, attempt - 1);
      match outcome
      case Ok(summary) =>
        StopsAt(outcomes, attempt);
        r, attempts := outcome, attempt;
        assert r == outcomes[attempts - 1];
        return;
      case Err(message) =>
        if !IsGatewayTimeout(message) || attempt == MaxAttempts {
          StopsAt(outcomes, attempt);
          r, attempts := outcome, attempt;
          assert r == outcomes[attempts - 1];
          return;
        }
        retries := retries + [attempt];
        attempt := attempt + 1;
    }
    // The loop never ends normally: the last attempt always returns, so
    // the `Err(last_error.unwrap())` of src/main.rs:413 is unreachable.
  }

  /** The controller stops at attempt `k` when it did not stop before. */
  lemma StopsAt(outcomes: seq<Result<string, string>>, k: int)
    requires 1 <= k <= MaxAttempts && k <= |outcomes|
    requires forall j :: 0 <= j < k - 1 ==> !Stops(outcomes[j], j + 1)
    requires Stops(outcomes[k - 1], k)
    ensures StopsFirstAt(outcomes, k)
  {
  }

  /** The stopping attempt is determined by the outcomes, so the contract of
      `SummarizeWithRetry` fixes its behaviour completely. */
  lemma StopIsUnique(outcomes: seq<Result<string, string>>, k1: int, k2: int)
    requires StopsFirstAt(outcomes, k1) && StopsFirstAt(outcomes, k2)
    ensures k1 == k2
  {
  }

  /** Some attempt is always the last one. */
  lemma StopExists(outcomes: seq<Result<string, string>>)
    requires |outcomes| >= MaxAttempts
    ensures exists k :: StopsFirstAt(outcomes, k)
  {
    if Stops(outcomes[0], 1) {
      assert StopsFirstAt(outcomes, 1);
    } else if Stops(outcomes[1], 2) {
      assert StopsFirstAt(outcomes, 2);
    } else {
      assert StopsFirstAt(outcomes, 3);
    }
  }

  /** Success on attempt k comes after exactly k - 1 retry notices, each
      for an attempt that failed with a gateway timeout. */
  lemma SuccessAfterRetries(outcomes: seq<Result<string, string>>, k: int)
    requires StopsFirstAt(outcomes, k) && outcomes[k - 1].Ok?
    ensures |RetriedAttempts(k)| == k - 1
    ensures forall j :: 0 <= j < k - 1 ==> RetriedAttempts(k)[j] == j + 1
    ensures forall j :: 0 <= j < k - 1 ==> outcomes[j].Err? && IsGatewayTimeout(outcomes[j].error)
  {
    RetriedAttemptsAre(k);
  }

  /** An error that is not a gateway timeout ends the run on the attempt
      that produced it; gateway timeouts on all three attempts end it with
      the third error. */
  lemma FailureCases(outcomes: seq<Result<string, string>>)
    requires |outcomes| >= MaxAttempts
    ensures outcomes[0].Err? && !IsGatewayTimeout(outcomes[0].error) ==> StopsFirstAt(outcomes, 1)
    ensures (forall j :: 0 <= j < 3 ==> outcomes[j].Err? && IsGatewayTimeout(outcomes[j].error))
      ==> StopsFirstAt(outcomes, 3)
  {
  }

  /** Every error the controller retries is a gateway abort wrapped by
      `map_client_error` or `map_status_message`: it carries the abort
      prefix. The blank-completion error is never retried. */
  lemma RetriedErrorsAreWrapped(t: Transport)
    requires Attempt(t).Err? && IsGatewayTimeout(Attempt(t).error)
    ensures StartsWith(Attempt(t).error, AbortPrefix)
  {
    var raw: string;
    if t.ClientFailed? {
      raw := t.message;
    } else {
      var c := Consume(t.items);
      if c.failure.None? {
        MissingCompletionTextIsFatal();
        assert false;
      }
      raw := c.failure.value;
    }
    assert Attempt(t).error == MapErrorMessage(raw);
    MapPreservesGatewayTimeout(raw);
    GatewayTimeoutIsAbort(raw);
    MapKeepsRawMessage(raw);
  }
}
