/** Sync mode of `submitQuery`: on HTTP 200 the decoded body gets the
    caller's context metadata written into its top-level `data` object;
    any other status is reported with the raw body. */
module Sync {
  import opened Wrappers
  import opened Json

  /** `dataMap["contextMetadata"] = contextMetadata` when `original["data"]`
      is an object, performed on the value of the document. */
  function InjectMetadata(original: Object, metadata: Value): (r: Object)
    ensures r.Keys == original.Keys
    ensures forall k :: k in original && k != "data" ==> r[k] == original[k]
    ensures ObjectField(original, "data").Some? ==>
      var before := ObjectField(original, "data").value;
      && r["data"].Obj?
      && r["data"].fields.Keys == before.Keys + {"contextMetadata"}
      && r["data"].fields["contextMetadata"] == metadata
      && forall k :: k in before && k != "contextMetadata" ==> r["data"].fields[k] == before[k]
    ensures ObjectField(original, "data").None? ==> r == original
  {
    match ObjectField(original, "data")
    case Some(dataMap) => original["data" := Obj(dataMap["contextMetadata" := metadata])]
    case None => original
  }

  /** Injecting the same metadata twice is the same as injecting it once. */
  lemma InjectMetadataIdempotent(original: Object, metadata: Value)
    ensures InjectMetadata(InjectMetadata(original, metadata), metadata)
         == InjectMetadata(original, metadata)
  {
    var once := InjectMetadata(original, metadata);
    if ObjectField(original, "data").Some? {
      var inner := once["data"].fields;
      assert inner["contextMetadata" := metadata] == inner;
    }
  }

  /** What sync mode prints: the re-encoded document (`None` is the nil map
      `encoding/json` leaves behind when the body is not a JSON object, which
      prints as `null`), or an error with the status and the raw body. */
  datatype SyncReply =
    | SyncPrinted(document: Option<Object>)
    | SyncRejected(status: int, body: string)

  function SyncResponse(status: int, body: string, parse: Parser,
                        contextMetadata: seq<ContextField>): (r: SyncReply)
    ensures r.SyncRejected? <==> status != 200
    ensures r.SyncRejected? ==> r.status == status && r.body == body
    ensures r.SyncPrinted? ==> (r.document.Some? <==> parse(body).document.Some?)
    ensures r.SyncPrinted? && r.document.Some? ==>
      var original := parse(body).document.value;
      && r.document.value.Keys == original.Keys
      && (forall k :: k in original && k != "data" ==> r.document.value[k] == original[k])
      && (ObjectField(original, "data").Some? ==>
            && ObjectField(r.document.value, "data").Some?
            && "contextMetadata" in ObjectField(r.document.value, "data").value
            && ObjectField(r.document.value, "data").value["contextMetadata"]
               == MetadataValue(contextMetadata))
      && (ObjectField(original, "data").Some? ==>
            r.document.value == InjectMetadata(original, MetadataValue(contextMetadata)))
      && (ObjectField(original, "data").None? ==> r.document.value == original)
  {
    // the decoder's error is discarded: whatever it filled in is printed
    if status == 200 then
      match parse(body).document
      case Some(original) => SyncPrinted(Some(InjectMetadata(original, MetadataValue(contextMetadata))))
      case None => SyncPrinted(None)
    else SyncRejected(status, body)
  }

  /** A 200 reply `{"data": {"answer": "hi"}}` keeps its answer and gains the
      caller's metadata; any other status yields the error report. */
  lemma SyncExample(parse: Parser, body: string)
    requires parse(body).document == Some(map["data" := Obj(map["answer" := Str("hi")])])
    ensures SyncResponse(200, body, parse, [ContextField("userId", "1")])
         == SyncPrinted(Some(map["data" := Obj(map["answer" := Str("hi"),
              "contextMetadata" := MetadataValue([ContextField("userId", "1")])])]))
    ensures SyncResponse(500, body, parse, [ContextField("userId", "1")]) == SyncRejected(500, body)
  {
    var original := map["data" := Obj(map["answer" := Str("hi")])];
    var metadata := MetadataValue([ContextField("userId", "1")]);
    var updated := map["answer" := Str("hi"), "contextMetadata" := metadata];
    assert original["data" := Obj(updated)] == map["data" := Obj(updated)];
  }
}
