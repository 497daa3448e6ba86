/** The part of the request built in `summarize_with_xai` that depends on
    the payload (src/main.rs:313-324): how many output entries the prompt
    allows. The wording of the two prompts is not modelled; the directive
    is kept as a tag. */
module Request {
  import opened Wrappers
  import opened Json

  /** The output-cardinality directive appended to the user prompt:
      "at most n objects, one per payload.data[i]" or "return []". */
  datatype EntryDirective = AtMostEntries(n: nat) | EmptyArrayOnly

  /** The payload has a top-level `data` member that is an array. */
  predicate HasDataArray(payload: Value) {
    payload.Object? && "data" in payload.fields && payload.fields["data"].Array?
  }

  /** `payload.get("data").and_then(as_array).map(len).unwrap_or(0)`. */
  function ExpectedEntries(payload: Value): (n: nat)
    ensures HasDataArray(payload) ==> n == |payload.fields["data"].items|
    ensures !HasDataArray(payload) ==> n == 0
  {
    match Get(payload, "data")
    case None => 0
    case Some(data) =>
      match AsArray(data)
      case None => 0
      case Some(entries) => |entries|
  }

  /** The directive chosen at src/main.rs:318-324: "at most n", with n the
      length of `data`, exactly when `data` is a non-empty array; the
      empty-array directive otherwise. */
  function Directive(payload: Value): (d: EntryDirective)
    ensures d.AtMostEntries? <==> HasDataArray(payload) && |payload.fields["data"].items| > 0
    ensures d.AtMostEntries? ==> d.n == |payload.fields["data"].items|
    ensures d == EmptyArrayOnly <==> !HasDataArray(payload) || payload.fields["data"].items == []
  {
    var n := ExpectedEntries(payload);
    if n > 0 then AtMostEntries(n) else EmptyArrayOnly
  }

  /** A payload whose `data` holds two entries gets the directive capping
      the output at two; one without `data` gets the empty-array directive. */
  lemma DirectiveExamples(a: Value, b: Value)
    ensures Directive(Object(map["data" := Array([a, b])])) == AtMostEntries(2)
    ensures Directive(Object(map["meta" := Array([a, b])])) == EmptyArrayOnly
    ensures Directive(Array([a, b])) == EmptyArrayOnly
  {
  }
}
