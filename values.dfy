/** The JSON-like values that the ledgers store in their blocks: block
    payloads are dictionaries from field name to value. */
module Values {

  datatype Value =
    | Null
    | Bool(b: bool)
    | Int(i: int)
    | Real(r: real)
    | Str(s: string)
    | Obj(fields: map<string, Value>)

  /** A metrics dictionary (metric name to number) as a JSON object. */
  function MetricsValue(metrics: map<string, real>): (v: Value)
    ensures v.Obj? && v.fields.Keys == metrics.Keys
    ensures forall k :: k in metrics ==> v.fields[k] == Real(metrics[k])
  {
    Obj(map k | k in metrics :: Real(metrics[k]))
  }
}
