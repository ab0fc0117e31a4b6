/** The JSON documents the upstream API returns and the snapshot files hold. */
module JsonData {
  import opened Wrappers

  datatype Json =
    | JNull
    | JBool(b: bool)
    | JNum(x: real)
    | JStr(s: string)
    | JArr(items: seq<Json>)
    | JObj(fields: map<string, Json>)

  /** Why reading an item failed: `item[key]` raised KeyError or TypeError. */
  datatype LookupError = MissingKey(key: string)

  /** `j[key]`: only an object with that key answers; anything else raises. */
  function Get(j: Json, key: string): (r: Result<Json, LookupError>)
    ensures r.Success? <==> j.JObj? && key in j.fields
    ensures r.Success? ==> r.value == j.fields[key]
    ensures r.Failure? ==> r.error == MissingKey(key)
  {
    if j.JObj? && key in j.fields then Success(j.fields[key]) else Failure(MissingKey(key))
  }

  /** `j[k1][k2]...`, the nested lookups of the loader. */
  function Path(j: Json, keys: seq<string>): (r: Result<Json, LookupError>)
    ensures keys == [] ==> r == Success(j)
    decreases |keys|
  {
    if keys == [] then Success(j)
    else
      var next :- Get(j, keys[0]);
      Path(next, keys[1..])
  }
}
