/** Error classification and wrapping (src/main.rs:398-399, 416-435).
    An error is modelled by its Display text, since the retry controller
    decides on `err.to_string()` alone. */
module Errors {
  import opened Text

  // The longer literals below are written as concatenations of short
  // pieces; each reads as one string ("invalid compression flag", ...), and
  // the pieces keep the verifier's reasoning about single characters cheap.

  /** The malformed-transport-encoding symptom. */
  const CompressionSymptom: string := "invalid co" + "mpression " + "flag"
  /** The status fragment `map_client_error`/`map_status_message` look for. */
  const GatewayStatus: string := "504"
  /** The status fragment the retry controller looks for. */
  const GatewayTimeoutStatus: string := "504 Gatewa" + "y Timeout"
  /** The text put in front of a recognised gateway abort. */
  const AbortPrefix: string := AbortPrefixHead + AbortPrefixTail
  // The two halves of the prefix, "xAI agentic stream aborted (gateway time"
  // and "out before first chunk). Raw error: ".
  const AbortPrefixHead: string := "xAI agenti" + "c stream a" + "borted (ga" + "teway time"
  const AbortPrefixTail: string := "out before" + " first chu" + "nk). Raw e" + "rror: "
  /** The aggregator's error for a blank completion (src/main.rs:379). */
  const MissingCompletionText: string :=
    "xAI respon" + "se missing" + " completio" + "n text"

  /** The condition of src/main.rs:418 and 428. */
  predicate IsGatewayAbort(msg: string) {
    Contains(msg, CompressionSymptom) && Contains(msg, GatewayStatus)
  }

  /** `map_client_error` and `map_status_message`: a gateway abort gets the
      fixed prefix in front of the raw text; any other message keeps its
      text. (The two Rust functions differ only in the error type they box,
      which has the same Display text.) */
  function MapErrorMessage(msg: string): (r: string) {
    if IsGatewayAbort(msg) then AbortPrefix + msg else msg
  }

  /** The retry test of src/main.rs:398-399. */
  predicate IsGatewayTimeout(msg: string) {
    Contains(msg, CompressionSymptom) && Contains(msg, GatewayTimeoutStatus)
  }

  /** The mapped message is the raw message, verbatim, after nothing or
      after exactly the abort prefix; it differs from the raw message
      exactly when the raw message is a gateway abort. */
  lemma MapKeepsRawMessage(msg: string)
    ensures EndsWith(MapErrorMessage(msg), msg)
    ensures MapErrorMessage(msg) == msg <==> !IsGatewayAbort(msg)
    ensures IsGatewayAbort(msg) ==> StartsWith(MapErrorMessage(msg), AbortPrefix)
    ensures |MapErrorMessage(msg)| == |msg| + (if IsGatewayAbort(msg) then |AbortPrefix| else 0)
  {
    if IsGatewayAbort(msg) {
      assert |AbortPrefix + msg| > |msg|;
    }
  }

  /** Every error the retry controller retries is one the mappers wrap. */
  lemma GatewayTimeoutIsAbort(msg: string)
    requires IsGatewayTimeout(msg)
    ensures IsGatewayAbort(msg)
  {
    assert StartsWith(GatewayTimeoutStatus, GatewayStatus);
    ContainsTransitive(msg, GatewayTimeoutStatus, GatewayStatus);
  }

  /** The characters of the abort prefix that matter to the retry patterns:
      it holds no '5', and none of its 'i's is followed by an 'n'. */
  lemma AbortPrefixAt(i: int)
    requires 0 <= i < |AbortPrefix|
    ensures AbortPrefix[i] != '5'
    ensures i + 1 < |AbortPrefix| ==> !(AbortPrefix[i] == 'i' && AbortPrefix[i + 1] == 'n')
    ensures i + 1 == |AbortPrefix| ==> AbortPrefix[i] != 'i'
  {
    var h := |AbortPrefixHead|;
    if i < h {
      HeadAt(i);
      assert AbortPrefix[i] == AbortPrefixHead[i];
      if i + 1 < h {
        assert AbortPrefix[i + 1] == AbortPrefixHead[i + 1];
      }
    } else {
      TailAt(i - h);
      assert AbortPrefix[i] == AbortPrefixTail[i - h];
      if i + 1 < |AbortPrefix| {
        assert AbortPrefix[i + 1] == AbortPrefixTail[i + 1 - h];
      }
    }
  }

  /** `AbortPrefixAt` for the first half. */
  lemma HeadAt(i: int)
    requires 0 <= i < |AbortPrefixHead|
    ensures AbortPrefixHead[i] != '5'
    ensures i + 1 < |AbortPrefixHead| ==> !(AbortPrefixHead[i] == 'i' && AbortPrefixHead[i + 1] == 'n')
    ensures i + 1 == |AbortPrefixHead| ==> AbortPrefixHead[i] != 'i'
  {
  }

  /** `AbortPrefixAt` for the second half. */
  lemma TailAt(i: int)
    requires 0 <= i < |AbortPrefixTail|
    ensures AbortPrefixTail[i] != '5'
    ensures i + 1 < |AbortPrefixTail| ==> !(AbortPrefixTail[i] == 'i' && AbortPrefixTail[i + 1] == 'n')
    ensures i + 1 == |AbortPrefixTail| ==> AbortPrefixTail[i] != 'i'
  {
  }

  /** Neither retry pattern can begin inside the abort prefix, whatever follows it. */
  lemma PrefixHidesPatterns(rest: string)
    ensures forall i :: 0 <= i < |AbortPrefix| ==> !StartsWith((AbortPrefix + rest)[i..], CompressionSymptom)
    ensures forall i :: 0 <= i < |AbortPrefix| ==> !StartsWith((AbortPrefix + rest)[i..], GatewayTimeoutStatus)
  {
    var s := AbortPrefix + rest;
    assert CompressionSymptom[0] == 'i' && CompressionSymptom[1] == 'n';
    assert GatewayTimeoutStatus[0] == '5';
    forall i | 0 <= i < |AbortPrefix|
      ensures !StartsWith(s[i..], CompressionSymptom)
      ensures !StartsWith(s[i..], GatewayTimeoutStatus)
    {
      AbortPrefixAt(i);
      assert s[i..][0] == AbortPrefix[i];
      if i + 1 < |AbortPrefix| {
        assert s[i..][1] == AbortPrefix[i + 1];
      }
    }
  }

  /** Wrapping never changes whether the retry controller retries. */
  lemma MapPreservesGatewayTimeout(msg: string)
    ensures IsGatewayTimeout(MapErrorMessage(msg)) <==> IsGatewayTimeout(msg)
  {
    if IsGatewayAbort(msg) {
      PrefixHidesPatterns(msg);
      ContainsAfterPrefix(AbortPrefix, msg, CompressionSymptom);
      ContainsAfterPrefix(AbortPrefix, msg, GatewayTimeoutStatus);
    }
  }

  /** No character of the blank-completion error is a '5'. */
  lemma MissingCompletionTextAt(i: int)
    requires 0 <= i < |MissingCompletionText|
    ensures MissingCompletionText[i] != '5'
  {
  }

  /** The aggregator's blank-completion error is never retried. */
  lemma MissingCompletionTextIsFatal()
    ensures !IsGatewayTimeout(MissingCompletionText)
  {
    assert GatewayTimeoutStatus[0] == '5';
    forall i | 0 <= i < |MissingCompletionText|
      ensures MissingCompletionText[i] != GatewayTimeoutStatus[0]
    {
      MissingCompletionTextAt(i);
    }
    HeadAbsent(MissingCompletionText, GatewayTimeoutStatus);
  }
}
