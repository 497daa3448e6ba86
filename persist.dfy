/** The persisted record and its document-store key (src/main.rs:74-77,
    91-114). The store client and the clock are outside the model: the
    formatted UTC timestamp is a parameter. */
module Persist {
  import opened Wrappers
  import opened Text
  import opened Json

  /** `DEFAULT_MONGO_DB`, `DEFAULT_MONGO_COLLECTION` (src/main.rs:32-33). */
  const DefaultDatabase: string := "grokipedia"
  const DefaultCollection: string := "summaries"
  /** The fallback model identifier of src/main.rs:109. */
  const DefaultModelIdentifier: string := "latest-summary"

  /** `json!({"model": model, "summary": summary})` (src/main.rs:74-77):
      the record's model identifier is the model, and its `summary` member
      is the extracted value. */
  function SummaryRecord(model: string, summary: Value): (r: Value)
    ensures ModelIdentifier(r) == model
    ensures r.Object? && "summary" in r.fields && r.fields["summary"] == summary
  {
    Object(map["model" := Str(model), "summary" := summary])
  }

  /** `record.get("model").and_then(as_str).unwrap_or("latest-summary")`. */
  function ModelIdentifier(record: Value): (m: string)
    ensures record.Object? && "model" in record.fields && record.fields["model"].Str?
      ==> m == record.fields["model"].s
    ensures !(record.Object? && "model" in record.fields && record.fields["model"].Str?)
      ==> m == DefaultModelIdentifier
  {
    match Get(record, "model")
    case None => DefaultModelIdentifier
    case Some(v) =>
      match AsStr(v)
      case None => DefaultModelIdentifier
      case Some(m) => m
  }

  /** `format!("{}-{}", model_identifier, timestamp)` (src/main.rs:110-114). */
  function DocumentId(record: Value, timestamp: string): (id: string)
    ensures StartsWith(id, ModelIdentifier(record) + "-")
    ensures EndsWith(id, timestamp)
    ensures |id| == |ModelIdentifier(record)| + 1 + |timestamp|
  {
    ModelIdentifier(record) + "-" + timestamp
  }

  /** The identifier of the record the program builds is the configured model,
      a dash and the timestamp. */
  lemma RecordDocumentId(model: string, summary: Value, timestamp: string)
    ensures DocumentId(SummaryRecord(model, summary), timestamp) == model + "-" + timestamp
  {
  }

  /** The timestamp format `%Y%m%dT%H%M%S%.3fZ` has a fixed width, so an
      identifier determines both its model part and its timestamp. */
  lemma DocumentIdDeterminesParts(r1: Value, t1: string, r2: Value, t2: string)
    requires |t1| == |t2| && DocumentId(r1, t1) == DocumentId(r2, t2)
    ensures ModelIdentifier(r1) == ModelIdentifier(r2) && t1 == t2
  {
    var id := DocumentId(r1, t1);
    var m1, m2 := ModelIdentifier(r1), ModelIdentifier(r2);
    assert |m1| == |m2|;
    assert m1 == id[..|m1|] == m2;
    assert t1 == id[|m1| + 1..] == t2;
  }

  /** Where the upsert goes (src/main.rs:92-114). */
  datatype UpsertTarget = UpsertTarget(database: string, collection: string, id: string)

  /** The upsert is skipped without error when `MONGO_URI` is unset; the
      database and collection names fall back to their defaults. The three
      options are the values of `MONGO_URI`, `MONGO_DB`, `MONGO_COLLECTION`. */
  function PlanUpsert(uri: Option<string>, db: Option<string>, collection: Option<string>,
                      record: Value, timestamp: string): (r: Option<UpsertTarget>)
    ensures r.None? <==> uri.None?
    ensures r.Some? ==> r.value.database == (if db.Some? then db.value else DefaultDatabase)
    ensures r.Some? ==> r.value.collection == (if collection.Some? then collection.value else DefaultCollection)
    ensures r.Some? ==> r.value.id == DocumentId(record, timestamp)
  {
    match uri
    case None => None
    case Some(_) =>
      var dbName := match db case Some(d) => d case None => DefaultDatabase;
      var collectionName := match collection case Some(c) => c case None => DefaultCollection;
      Some(UpsertTarget(dbName, collectionName, DocumentId(record, timestamp)))
  }
}
