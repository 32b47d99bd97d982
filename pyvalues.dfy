/** The Python values the core passes around untyped: configuration
    documents, boto3 replies, template values.  `Truthy` is Python's
    truth test for them. */
module PyValues {
  import opened Wrappers

  type byte = x: int | 0 <= x < 256

  datatype Value =
    | PyNone
    | PyBool(b: bool)
    | PyInt(i: int)
    | PyStr(s: string)
    | PyBytes(data: seq<byte>)
      /** a botocore StreamingBody: an object without __bool__ or __len__ */
    | PyStream(body: seq<byte>)
    | PyList(items: seq<Value>)
    | PyDict(entries: map<string, Value>)

  predicate Truthy(v: Value)
  {
    match v
    case PyNone => false
    case PyBool(b) => b
    case PyInt(i) => i != 0
    case PyStr(s) => s != ""
    case PyBytes(d) => d != []
    case PyStream(_) => true
    case PyList(xs) => xs != []
    case PyDict(m) => m != map[]
  }

  /** Truth test of an `Optional[str]` attribute. */
  predicate IsSet(o: Option<string>)
  {
    o.Some? && o.value != ""
  }

  /** `f"{x}"` for an `Optional[str]`: None is rendered as "None". */
  function Format(o: Option<string>): (r: string)
    ensures o.Some? ==> r == o.value
    ensures o.None? ==> r == "None"
  {
    match o
    case Some(s) => s
    case None => "None"
  }

  /** The value of an `Optional[str]` as a Python value. */
  function OptStr(o: Option<string>): (r: Value)
    ensures o.None? <==> r.PyNone?
    ensures o.Some? ==> r == PyStr(o.value)
  {
    match o
    case Some(s) => PyStr(s)
    case None => PyNone
  }

  /** `v[key]` for a string key: a dict lookup, a KeyError for a missing
      key, a TypeError for anything that is not a dict. */
  function GetItem(v: Value, key: string): (r: Result<Value>)
    ensures r.Success? <==> v.PyDict? && key in v.entries
    ensures r.Success? ==> r.value == v.entries[key]
  {
    match v
    case PyDict(m) => if key in m then Success(m[key]) else Failure(Raised("KeyError", key))
    case _ => Failure(Raised("TypeError", "object is not subscriptable by a string"))
  }

  /** `v[i]` for an integer index on a list, negative indices counting
      from the end; an IndexError outside `-len(v) <= i < len(v)`. */
  function GetIndex(v: Value, i: int): (r: Result<Value>)
    ensures r.Success? <==> v.PyList? && -|v.items| <= i < |v.items|
    ensures r.Success? && 0 <= i ==> r.value == v.items[i]
    ensures r.Success? && i < 0 ==> r.value == v.items[|v.items| + i]
  {
    match v
    case PyList(xs) =>
      if 0 <= i < |xs| then Success(xs[i])
      else if -|xs| <= i < 0 then Success(xs[|xs| + i])
      else Failure(Raised("IndexError", "list index out of range"))
    case _ => Failure(Raised("TypeError", "object is not subscriptable by an integer"))
  }
}
