/** JSON documents as the crawler receives them, the exceptions that can leave a
    job, and the scalar parameters that job keys are built from. */
module Values {

  /** A JSON document as `json.loads` returns it. An object keeps its fields in
      document order; its keys are taken to be distinct, as in a Python dict. */
  datatype Value =
    | Null
    | Bool(b: bool)
    | Int(i: int)
    | Str(s: string)
    | Arr(items: seq<Value>)
    | Obj(fields: seq<(string, Value)>)

  /** The Python exceptions that the modelled code raises or lets through. */
  datatype Exc =
    | KeyError(key: string)       // `d[k]` on a dict without `k`
    | TypeError                   // subscripting or iterating a value of the wrong type
    | AssertionError              // a response failed its shape check
    | HttpStatusError             // the response hook raised on a status >= 400
    | UnboundLocalError           // `pp` read before assignment in `get_value`
    | CacheNotFound               // no cache file for the key
    | AttributeError              // `.values()` on something that is not a dict
    | OtherError(name: string)    // any other exception, e.g. `httpx.ConnectError`

  datatype Result<T> = Ok(value: T) | Err(error: Exc)

  /** What a call does: it returns a value or raises. */
  datatype Outcome = Returned(value: Value) | Raised(error: Exc)

  /** A keyword argument value; `f"{v}"` renders it. */
  datatype Param = PInt(n: int) | PStr(text: string) | PBool(flag: bool) | PNone

  /** Python's `==` on two such values, which a set also uses to tell its
      elements apart: `True == 1` and `False == 0`. */
  predicate PyEq(a: Param, b: Param)
  {
    match (a, b)
    case (PBool(x), PInt(n)) => n == (if x then 1 else 0)
    case (PInt(n), PBool(x)) => n == (if x then 1 else 0)
    case _ => a == b
  }

  predicate HasKey(fields: seq<(string, Value)>, k: string)
  {
    exists i :: 0 <= i < |fields| && fields[i].0 == k
  }

  /** The value of the first field named `k`. */
  function FieldValue(fields: seq<(string, Value)>, k: string): (r: Value)
    requires HasKey(fields, k)
    ensures exists i :: 0 <= i < |fields| && fields[i] == (k, r)
  {
    if fields[0].0 == k then fields[0].1 else FieldValue(fields[1..], k)
  }

  /** `v[k]` for a string key. */
  function Get(v: Value, k: string): (r: Result<Value>)
    ensures r.Ok? <==> v.Obj? && HasKey(v.fields, k)
    ensures v.Obj? && !HasKey(v.fields, k) ==> r == Err(KeyError(k))
    ensures !v.Obj? ==> r == Err(TypeError)
  {
    if !v.Obj? then Err(TypeError)
    else if HasKey(v.fields, k) then Ok(FieldValue(v.fields, k))
    else Err(KeyError(k))
  }

  predicate IsSubstring(p: string, s: string)
  {
    exists i :: 0 <= i <= |s| && p <= s[i..]
  }

  /** `k in v`: key membership for a dict, element membership for a list,
      substring for a string. */
  function Contains(v: Value, k: string): (r: Result<bool>)
    ensures v.Obj? ==> r == Ok(HasKey(v.fields, k))
    ensures (v.Null? || v.Bool? || v.Int?) <==> r.Err?
  {
    match v
    case Obj(fields) => Ok(HasKey(fields, k))
    case Arr(items) => Ok(Str(k) in items)
    case Str(s) => Ok(IsSubstring(k, s))
    case _ => Err(TypeError)
  }

  /** The elements `for x in v` visits: list items, dict keys, or characters. */
  function Iterate(v: Value): (r: Result<seq<Value>>)
    ensures v.Arr? ==> r == Ok(v.items)
    ensures v.Obj? ==> r.Ok? && |r.value| == |v.fields|
    ensures (v.Null? || v.Bool? || v.Int?) <==> r.Err?
  {
    match v
    case Arr(items) => Ok(items)
    case Obj(fields) => Ok(seq(|fields|, i requires 0 <= i < |fields| => Str(fields[i].0)))
    case Str(s) => Ok(seq(|s|, i requires 0 <= i < |s| => Str([s[i]])))
    case _ => Err(TypeError)
  }

  /** `v.values()`: the values of a dict, in key order. */
  function DictValues(v: Value): (r: Result<seq<Value>>)
    ensures r.Ok? <==> v.Obj?
    ensures r.Ok? ==> |r.value| == |v.fields|
  {
    if v.Obj? then Ok(seq(|v.fields|, i requires 0 <= i < |v.fields| => v.fields[i].1))
    else Err(AttributeError)
  }

  /** A JSON field used as an already-typed integer. */
  function AsInt(v: Value): (r: Result<int>)
    ensures r.Ok? <==> v.Int?
    ensures v.Int? ==> r.value == v.i
  {
    if v.Int? then Ok(v.i) else Err(TypeError)
  }

  /** A JSON field passed on as a keyword argument. */
  function AsParam(v: Value): (r: Result<Param>)
    ensures r.Ok? <==> !(v.Arr? || v.Obj?)
    ensures v.Int? ==> r == Ok(PInt(v.i))
    ensures v.Str? ==> r == Ok(PStr(v.s))
  {
    match v
    case Int(i) => Ok(PInt(i))
    case Str(s) => Ok(PStr(s))
    case Bool(b) => Ok(PBool(b))
    case Null => Ok(PNone)
    case _ => Err(TypeError)
  }

  function Digit(d: nat): (c: char)
    requires d < 10
    ensures '0' <= c <= '9'
  {
    "0123456789"[d]
  }

  function NatToDecimal(n: nat): (r: string)
    ensures |r| > 0
    ensures forall i :: 0 <= i < |r| ==> '0' <= r[i] <= '9'
  {
    if n < 10 then [Digit(n)] else NatToDecimal(n / 10) + [Digit(n % 10)]
  }

  /** `str(n)` for a Python int. */
  function IntToDecimal(n: int): (r: string)
    ensures |r| > 0 && r[|r| - 1] != '/'
    ensures (r[0] == '-') <==> n < 0
  {
    if n < 0 then "-" + NatToDecimal(-n) else NatToDecimal(n)
  }

  /** `f"{p}"`. */
  function Render(p: Param): string
  {
    match p
    case PInt(n) => IntToDecimal(n)
    case PStr(s) => s
    case PBool(b) => if b then "True" else "False"
    case PNone => "None"
  }
}
