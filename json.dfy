/** The already-decoded JSON the task tool prints for `export`. */
module Json {
  import opened Wrappers

  /** A JSON value as far as the parser looks into it. */
  datatype JsonValue =
    | JString(s: string)
    | JNumber(n: real)
    | JArray(items: seq<JsonValue>)
    | JOther

  /** One decoded JSON object (Swift's `[String: Any]`). */
  type Record = map<string, JsonValue>

  /** What an output text decodes to: an array of objects; a top-level array
      or object that is not an array of objects (which `as! [[String: Any]]`
      traps on); or text that `JSONSerialization` rejects. The parser is
      called without `.fragmentsAllowed`, so a top-level string, number,
      boolean or null is rejected too and counts as `Unparseable`. */
  datatype Payload =
    | Records(records: seq<Record>)
    | NotRecordArray
    | Unparseable(text: string)

  /** `dict[key] as? String`. */
  function AsString(rec: Record, key: string): (r: Option<string>)
    ensures r.Some? <==> key in rec && rec[key].JString?
    ensures r.Some? ==> rec[key] == JString(r.value)
  {
    if key in rec && rec[key].JString? then Some(rec[key].s) else None
  }

  /** The items of an array when every one of them is a string. */
  function Strings(items: seq<JsonValue>): (r: Option<seq<string>>)
    ensures r.Some? <==> forall i | 0 <= i < |items| :: items[i].JString?
    ensures r.Some? ==> |r.value| == |items| && forall i | 0 <= i < |items| :: items[i] == JString(r.value[i])
  {
    if items == [] then Some([])
    else if !items[0].JString? then None
    else match Strings(items[1..])
      case None => None
      case Some(rest) => Some([items[0].s] + rest)
  }

  /** `dict[key] as? [String]`. */
  function AsStringArray(rec: Record, key: string): (r: Option<seq<string>>)
    ensures r.Some? <==> key in rec && rec[key].JArray? && Strings(rec[key].items).Some?
    ensures r.Some? ==> |r.value| == |rec[key].items| && forall i | 0 <= i < |r.value| :: rec[key].items[i] == JString(r.value[i])
  {
    if key in rec && rec[key].JArray? then Strings(rec[key].items) else None
  }
}
