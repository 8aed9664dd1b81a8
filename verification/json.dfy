/** An abstract view of the JSON documents the client decodes with
    `encoding/json` into `map[string]interface{}`. Numbers keep their literal
    text: the client never computes with them. */
module Json {
  import opened Wrappers

  datatype Value =
    | Null
    | Bool(b: bool)
    | Num(literal: string)
    | Str(s: string)
    | Arr(items: seq<Value>)
    | Obj(fields: Object)

  /** A decoded JSON object (`map[string]interface{}` in the source). */
  type Object = map<string, Value>

  /** `v, ok := obj[key].(string)`: the key is present and holds a string. */
  function StringField(obj: Object, key: string): (r: Option<string>)
    ensures r.Some? <==> key in obj && obj[key].Str?
    ensures r.Some? ==> obj[key] == Str(r.value)
  {
    if key in obj && obj[key].Str? then Some(obj[key].s) else None
  }

  /** `m, ok := obj[key].(map[string]interface{})`: the key holds an object. */
  function ObjectField(obj: Object, key: string): (r: Option<Object>)
    ensures r.Some? <==> key in obj && obj[key].Obj?
    ensures r.Some? ==> obj[key] == Obj(r.value)
  {
    if key in obj && obj[key].Obj? then Some(obj[key].fields) else None
  }

  /** What `json.Unmarshal` into a `map[string]interface{}` leaves behind:
      the map it filled (`None` for the nil map: after a syntax error, for a
      non-object document, or for `null`) and whether it returned an error.
      Both can be present at once: a number out of `float64` range is stored
      as `null` in a filled map and still reported as an error. */
  datatype Decoding = Decoding(document: Option<Object>, failed: bool)

  /** The JSON decoder, an abstract function of the text. */
  type Parser = string -> Decoding

  /** One `{"key": ..., "value": ...}` entry of the caller's context metadata. */
  datatype ContextField = ContextField(key: string, value: string)

  /** The JSON array a `[]map[string]string` of context fields marshals to. */
  function MetadataValue(metadata: seq<ContextField>): (r: Value)
    ensures r.Arr? && |r.items| == |metadata|
    ensures forall i :: 0 <= i < |metadata| ==>
      r.items[i] == Obj(map["key" := Str(metadata[i].key), "value" := Str(metadata[i].value)])
  {
    Arr(seq(|metadata|, i requires 0 <= i < |metadata| =>
      Obj(map["key" := Str(metadata[i].key), "value" := Str(metadata[i].value)])))
  }
}
