/**
 * The values a request body or a JSON model field can carry once Python has
 * decoded them, with the two Python judgements the views and serializers make
 * of them: truthiness (`not x`) and `isinstance(x, (int, float))`.
 */
module JsonValue {

  datatype Json =
    | JNull
    | JBool(b: bool)
    | JInt(i: int)
    | JFloat(f: real)
    | JStr(s: string)
    | JList(items: seq<Json>)
    | JObject(entries: seq<(string, Json)>)

  /** Python truthiness: None, False, 0, 0.0, "" and empty containers are false. */
  predicate Truthy(j: Json) {
    match j
    case JNull => false
    case JBool(b) => b
    case JInt(i) => i != 0
    case JFloat(f) => f != 0.0
    case JStr(s) => s != ""
    case JList(items) => items != []
    case JObject(entries) => entries != []
  }

  /** `isinstance(j, (int, float))`; a Python bool is an int, so it passes too. */
  predicate IsNumber(j: Json) {
    j.JBool? || j.JInt? || j.JFloat?
  }

  /** `isinstance(j, list) and all(isinstance(t, (int, float)) for t in j)`. */
  predicate IsTimestampList(j: Json) {
    j.JList? && forall k :: 0 <= k < |j.items| ==> IsNumber(j.items[k])
  }

  /** The number Python computes with: True is 1 and False is 0. */
  function NumberValue(j: Json): real
    requires IsNumber(j)
  {
    match j
    case JBool(b) => if b then 1.0 else 0.0
    case JInt(i) => i as real
    case JFloat(f) => f
  }

  /** The timestamps of a timestamp list, in order. */
  function Timestamps(j: Json): seq<real>
    requires IsTimestampList(j)
  {
    seq(|j.items|, k requires 0 <= k < |j.items| => NumberValue(j.items[k]))
  }
}
