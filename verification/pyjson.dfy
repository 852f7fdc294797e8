/**
  Decoded JSON values and the few Python operations the client applies to
  them: `d[key]`, `d.get(key)`, `x[0]`, `x == n` and `x >= n`.  Each access
  either yields a value or raises a `Fault`, the model of a built-in Python
  exception (KeyError, IndexError, TypeError, AttributeError) or of a failure
  reported by the HTTP layer.
*/
module PyJson {
  import opened Results

  datatype Json =
    | JNull
    | JBool(b: bool)
    | JInt(i: int)
    | JStr(s: string)
    | JArr(items: seq<Json>)
    | JObj(fields: map<string, Json>)

  /** The empty mapping `{}`. */
  const EmptyObject: Json := JObj(map[])

  /** Python's name for the type a JSON value decodes to. */
  function TypeName(j: Json): string {
    match j
    case JNull => "NoneType"
    case JBool(_) => "bool"
    case JInt(_) => "int"
    case JStr(_) => "str"
    case JArr(_) => "list"
    case JObj(_) => "dict"
  }

  /** A non-API exception raised while one request is being handled. */
  datatype Fault =
    | TransportFault(text: string)        // failed POST, non-2xx status or undecodable body
    | MissingKey(key: string)             // KeyError on a dict
    | MissingZeroKey                      // KeyError on `d[0]` for a dict d
    | IndexOutOfRange(container: string)  // IndexError on an empty list or string
    | NotSubscriptable(typeName: string)  // TypeError on `x[...]`
    | NoGetMethod(typeName: string)       // AttributeError on `x.get(...)`
    | NotOrderable(typeName: string)      // TypeError on `x >= n`

  /** `str(e)` for the exception a fault stands for. */
  function FaultText(f: Fault): string {
    match f
    case TransportFault(text) => text
    case MissingKey(key) => "'" + key + "'"
    case MissingZeroKey => "0"
    case IndexOutOfRange(container) => container + " index out of range"
    case NotSubscriptable(typeName) =>
      if typeName == "list" then "list indices must be integers or slices, not str"
      else if typeName == "str" then "string indices must be integers, not 'str'"
      else "'" + typeName + "' object is not subscriptable"
    case NoGetMethod(typeName) => "'" + typeName + "' object has no attribute 'get'"
    case NotOrderable(typeName) =>
      "'>=' not supported between instances of '" + typeName + "' and 'int'"
  }

  /** `j[key]` with a string key. */
  function Subscript(j: Json, key: string): (r: Result<Json, Fault>)
    ensures r.Success? <==> j.JObj? && key in j.fields
    ensures r.Success? ==> r.value == j.fields[key]
  {
    match j
    case JObj(fields) => if key in fields then Success(fields[key]) else Failure(MissingKey(key))
    case _ => Failure(NotSubscriptable(TypeName(j)))
  }

  /** `j[0]`: the first element of a list or the first character of a string. */
  function First(j: Json): (r: Result<Json, Fault>)
    ensures r.Success? <==> (j.JArr? && |j.items| > 0) || (j.JStr? && |j.s| > 0)
    ensures r.Success? && j.JArr? ==> r.value == j.items[0]
  {
    match j
    case JArr(items) => if |items| > 0 then Success(items[0]) else Failure(IndexOutOfRange("list"))
    case JStr(s) => if |s| > 0 then Success(JStr(s[..1])) else Failure(IndexOutOfRange("string"))
    case JObj(_) => Failure(MissingZeroKey)
    case _ => Failure(NotSubscriptable(TypeName(j)))
  }

  /**
    `j.get(key)`: Some(value) when the key is present and not `null`
    (Python's `is not None` test), None otherwise.
  */
  function DictGet(j: Json, key: string): (r: Result<Option<Json>, Fault>)
    ensures r.Success? <==> j.JObj?
    ensures r.Success? && r.value.Some? ==> key in j.fields && r.value.value == j.fields[key] != JNull
  {
    match j
    case JObj(fields) =>
      if key in fields && fields[key] != JNull then Success(Some(fields[key])) else Success(None)
    case _ => Failure(NoGetMethod(TypeName(j)))
  }

  /** The integer a value stands for in Python arithmetic (`bool` is an `int`). */
  function AsInt(j: Json): Option<int> {
    match j
    case JInt(i) => Some(i)
    case JBool(b) => Some(if b then 1 else 0)
    case _ => None
  }

  /** Python's `j == n`: never raises, false for anything that is not a number. */
  predicate PyEquals(j: Json, n: int) {
    AsInt(j) == Some(n)
  }

  /** Python's `sep.join(parts)`. */
  function Join(sep: string, parts: seq<string>): (r: string)
    ensures |parts| == 1 ==> r == parts[0]
  {
    if |parts| == 0 then ""
    else if |parts| == 1 then parts[0]
    else parts[0] + sep + Join(sep, parts[1..])
  }

  /** A list of strings as a JSON array. */
  function Strings(parts: seq<string>): (r: seq<Json>)
    ensures |r| == |parts|
    ensures forall i :: 0 <= i < |parts| ==> r[i] == JStr(parts[i])
  {
    if |parts| == 0 then [] else [JStr(parts[0])] + Strings(parts[1..])
  }
}
