/** Python values as the API layer passes them around in dictionaries: JSON-like data,
    Python truthiness, `dict.get` and `str()` of a scalar. */
module PyValue {
  import opened Wrappers
  import PyText

  datatype Value =
    | VNone
    | VBool(b: bool)
    | VInt(i: int)
    | VStr(s: string)
    | VList(items: seq<Value>)
    | VDict(entries: map<string, Value>)

  /** A Python `dict` with string keys. */
  type Dict = map<string, Value>

  /** `bool(v)` in Python: None, False, 0 and empty containers are false. */
  predicate Truthy(v: Value) {
    match v
    case VNone => false
    case VBool(b) => b
    case VInt(i) => i != 0
    case VStr(s) => s != ""
    case VList(xs) => xs != []
    case VDict(m) => m != map[]
  }

  predicate IsScalar(v: Value) {
    v.VNone? || v.VBool? || v.VInt? || v.VStr?
  }

  /** A value whose `str()` is modelled. */
  type Scalar = v: Value | IsScalar(v) witness VNone

  /** `str(v)` for a scalar. */
  function Str(v: Scalar): (s: string)
    ensures v.VStr? ==> s == v.s
    ensures v.VInt? ==> PyText.ParseInt(s) == Some(v.i)
  {
    match v
    case VNone => "None"
    case VBool(b) => if b then "True" else "False"
    case VInt(i) => PyText.IntToStringRoundTrip(i); PyText.IntToString(i)
    case VStr(s) => s
  }

  /** `d.get(k)`. */
  function Get(d: Dict, k: string): Value {
    if k in d then d[k] else VNone
  }

  /** `d.get(k, default)`. */
  function GetOr(d: Dict, k: string, default: Value): Value {
    if k in d then d[k] else default
  }

  /** Python's `a or b`: the first operand when it is truthy, otherwise the second. */
  function Or(a: Value, b: Value): Value {
    if Truthy(a) then a else b
  }

  /** An optional string column as Python sees it: the string or None. */
  function OptStr(o: Option<string>): Value {
    match o
    case Some(s) => VStr(s)
    case None => VNone
  }

  /** Truthiness of an optional string setting. */
  predicate TruthyStr(o: Option<string>) {
    o.Some? && o.value != ""
  }

  /** An optional string inside an f-string: `None` prints as "None". */
  function Fmt(o: Option<string>): string {
    match o
    case Some(s) => s
    case None => "None"
  }
}
