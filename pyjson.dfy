/** JSON documents as Python holds them after `json.loads`, the handful of
    Python operations the resolution chain applies to them (subscript, `[0]`,
    `in`, truthiness, iteration, `str()`), and the exceptions those operations
    and the registry layer raise. */
module PyJson {

  datatype Option<+T> = None | Some(value: T)

  /** A decoded JSON value. Registry identifiers arrive as strings, so JSON
      numbers are not represented. */
  datatype Value =
    | Null
    | Bool(b: bool)
    | Str(s: string)
    | List(items: seq<Value>)
    | Obj(fields: map<string, Value>)

  /** The exceptions that can leave a step of the resolution chain. */
  datatype Error =
    | FailedRequestError(message: string)  // raised by the request wrapper
    | NoUserData(message: string)          // the host framework's "no user data" signal
    | KeyError(key: string)                // a missing dict key
    | IndexError                           // `[0]` of an empty list or string
    | TypeError                            // an operation applied to the wrong kind of value
    | JsonDecodeError                      // a 200 response whose body is not JSON

  /** Errors that come from the shape of a JSON document rather than from the
      registry connection; none of them is caught anywhere in the module. */
  predicate IsLookupError(e: Error) {
    e.KeyError? || e.IndexError? || e.TypeError?
  }

  /** The outcome of a Python expression: its value, or the exception it raised. */
  datatype Result<+T> = Ok(value: T) | Raise(error: Error) {
    predicate IsFailure() {
      Raise?
    }

    function PropagateFailure<U>(): Result<U>
      requires Raise?
    {
      Raise(error)
    }

    function Extract(): T
      requires Ok?
    {
      value
    }
  }

  /** Python truthiness (`if x:`): exactly the empty values and None/False are false. */
  function Truthy(v: Value): (t: bool)
    ensures !t <==> v == Null || v == Bool(false) || v == Str("") || v == List([]) || v == Obj(map[])
  {
    match v
    case Null => false
    case Bool(b) => b
    case Str(s) => |s| > 0
    case List(items) => |items| > 0
    case Obj(fields) => |fields| > 0
  }

  /** `v[key]` for a string key: only a dict can be subscripted by a string. */
  function Subscript(v: Value, key: string): (r: Result<Value>)
    ensures r.Ok? <==> v.Obj? && key in v.fields
    ensures r.Ok? ==> r.value == v.fields[key] && r.value < v
    ensures r.Raise? ==> r.error == if v.Obj? then KeyError(key) else TypeError
  {
    match v
    case Obj(fields) => if key in fields then Ok(fields[key]) else Raise(KeyError(key))
    case _ => Raise(TypeError)
  }

  /** `v[0]`: the head of a list or the first character of a string; a dict
      is looked up with the integer key 0, which a JSON object never has. */
  function Index0(v: Value): (r: Result<Value>)
    ensures r.Raise? ==> IsLookupError(r.error)
    ensures v.List? && v.items != [] ==> r == Ok(v.items[0])
  {
    match v
    case List(items) => if items != [] then Ok(items[0]) else Raise(IndexError)
    case Str(s) => if s != "" then Ok(Str([s[0]])) else Raise(IndexError)
    case Obj(_) => Raise(KeyError("0"))
    case _ => Raise(TypeError)
  }

  /** `needle` occurs as a contiguous part of `hay`. */
  predicate IsSubstring(needle: string, hay: string)
    decreases |hay|
  {
    (|needle| <= |hay| && hay[..|needle|] == needle)
    || (|hay| > 0 && IsSubstring(needle, hay[1..]))
  }

  /** `key in v`: dict membership, list element equality, or substring. */
  function Contains(v: Value, key: string): (r: Result<bool>)
    ensures v.Obj? ==> r == Ok(key in v.fields)
    ensures r.Raise? ==> r.error == TypeError
  {
    match v
    case Obj(fields) => Ok(key in fields)
    case List(items) => Ok(Str(key) in items)
    case Str(s) => Ok(IsSubstring(key, s))
    case _ => Raise(TypeError)
  }

  /** The elements a `for` loop visits. A string yields its characters. A
      non-empty dict yields its keys, which are strings; every loop in the
      module subscripts each element by a string key before doing anything
      else, which raises TypeError at the first key, so the model raises it
      at the loop instead of fixing an order on the keys. */
  function Iterate(v: Value): (r: Result<seq<Value>>)
    ensures v.List? ==> r == Ok(v.items)
    ensures r.Raise? ==> r.error == TypeError
    ensures r.Ok? ==> forall k :: 0 <= k < |r.value| ==> r.value[k] < v || r.value[k].Str?
  {
    match v
    case List(items) => Ok(items)
    case Str(s) => Ok(seq(|s|, i requires 0 <= i < |s| => Str([s[i]])))
    case Obj(fields) => if fields == map[] then Ok([]) else Raise(TypeError)
    case _ => Raise(TypeError)
  }

  /** `str(v)`, as used by `str.format` and `urlencode`. */
  function PyStr(v: Value): string
    decreases v, 1, 0
  {
    match v
    case Null => "None"
    case Bool(b) => if b then "True" else "False"
    case Str(s) => s
    case List(items) => "[" + ReprItems(v, 0) + "]"
    case Obj(fields) => if fields == map[] then "{}" else "{...}"
  }

  /** `repr(v)`: strings are quoted, everything else prints as `str`. */
  function PyRepr(v: Value): string
    decreases v, 2, 0
  {
    if v.Str? then "'" + v.s + "'" else PyStr(v)
  }

  /** The comma-separated reprs of the elements of list `v` from index `i` on. */
  function ReprItems(v: Value, i: nat): string
    requires v.List? && i <= |v.items|
    decreases v, 0, |v.items| - i
  {
    if i == |v.items| then ""
    else if i + 1 == |v.items| then PyRepr(v.items[i])
    else PyRepr(v.items[i]) + ", " + ReprItems(v, i + 1)
  }
}
