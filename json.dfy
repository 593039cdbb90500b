/** The values `json.loads` can produce. */
module Json {

  datatype Json =
    | JNull
    | JBool(b: bool)
    | JNumber(n: real)
    | JString(str: string)
    | JArray(items: seq<Json>)
    | JObject(fields: map<string, Json>)

  /** Whether `j` is a JSON array whose every element is a string. */
  predicate IsStringArray(j: Json)
  {
    j.JArray? && forall i :: 0 <= i < |j.items| ==> j.items[i].JString?
  }

  /** The strings of a string array, in order. */
  function StringItems(j: Json): (r: seq<string>)
    requires IsStringArray(j)
    ensures |r| == |j.items|
    ensures forall i :: 0 <= i < |r| ==> j.items[i] == JString(r[i])
  {
    seq(|j.items|, i requires 0 <= i < |j.items| => j.items[i].str)
  }
}
