/**
 * Decoded JSON values as the Python code sees them, and the handful of
 * Python operations the action engine applies to them: truthiness, `dict.get`,
 * subscripting, `in`, `len`, `+` with a string, and f-string rendering.
 * Each operation that can raise in Python returns an `Outcome` that carries the
 * exception kind and the text `str(e)` would give (Python 3.11 wording).
 */
module PyJson {

  datatype Option<+T> = None | Some(value: T)

  /** A value produced by `json.loads`: None, bool, int, str, list or dict. */
  datatype Json =
    | JNull
    | JBool(b: bool)
    | JInt(i: int)
    | JStr(s: string)
    | JList(items: seq<Json>)
    | JDict(fields: map<string, Json>)

  /** A Python dict with string keys, such as an action's `params`. */
  type Dict = map<string, Json>

  /** The exception classes the engine raises, catches or propagates. */
  datatype ExcKind = KeyError | IndexError | TypeError | AttributeError | ValueError | SessionError

  /** Either the value an expression returns or the exception it raises. */
  datatype Outcome<+T> = Returns(value: T) | Raises(kind: ExcKind, text: string) {
    predicate IsFailure() { Raises? }

    function PropagateFailure<U>(): Outcome<U>
      requires Raises?
    {
      Raises(kind, text)
    }

    function Extract(): T
      requires Returns?
    {
      value
    }
  }

  /** The `{"error": msg}` dict every handler returns on failure. */
  function ErrorDict(msg: string): (d: Dict)
    ensures "error" in d && d["error"] == JStr(msg) && |d| == 1
  {
    map["error" := JStr(msg)]
  }

  /** Python truthiness: None, False, 0, "", [] and {} are false. */
  predicate Truthy(j: Json) {
    match j
    case JNull => false
    case JBool(b) => b
    case JInt(i) => i != 0
    case JStr(s) => s != ""
    case JList(xs) => xs != []
    case JDict(m) => m != map[]
  }

  /** `d.get(k)`: None when the key is absent. */
  function Get(d: Dict, k: string): Json {
    if k in d then d[k] else JNull
  }

  /** `d.get(k, default)`. */
  function GetOr(d: Dict, k: string, default: Json): Json {
    if k in d then d[k] else default
  }

  /** The name `type(j).__name__` gives. */
  function TypeName(j: Json): string {
    match j
    case JNull => "NoneType"
    case JBool(_) => "bool"
    case JInt(_) => "int"
    case JStr(_) => "str"
    case JList(_) => "list"
    case JDict(_) => "dict"
  }

  /** The AttributeError raised by `j.get(...)` when `j` is not a dict. */
  function NoGet<T>(j: Json): Outcome<T> {
    Raises(AttributeError, "'" + TypeName(j) + "' object has no attribute 'get'")
  }

  /** `j.get(k, default)` on a value that may not be a dict. */
  function PyGet(j: Json, k: string, default: Json): (r: Outcome<Json>)
    ensures j.JDict? <==> r.Returns?
    ensures j.JDict? ==> r.value == GetOr(j.fields, k, default)
  {
    if j.JDict? then Returns(GetOr(j.fields, k, default)) else NoGet(j)
  }

  /** `j[key]` with a string key. */
  function Subscript(j: Json, key: string): (r: Outcome<Json>)
    ensures r.Returns? <==> j.JDict? && key in j.fields
    ensures r.Returns? ==> r.value == j.fields[key]
    ensures j.JDict? && key !in j.fields ==> r == Raises(KeyError, "'" + key + "'")
  {
    match j
    case JDict(m) => if key in m then Returns(m[key]) else Raises(KeyError, "'" + key + "'")
    case JList(_) => Raises(TypeError, "list indices must be integers or slices, not str")
    case JStr(_) => Raises(TypeError, "string indices must be integers, not 'str'")
    case _ => Raises(TypeError, "'" + TypeName(j) + "' object is not subscriptable")
  }

  /** `j[0]`. A JSON object has only string keys, so `d[0]` is a KeyError. */
  function Index0(j: Json): (r: Outcome<Json>)
    ensures j.JList? && j.items != [] ==> r == Returns(j.items[0])
    ensures j.JList? && j.items == [] ==> r == Raises(IndexError, "list index out of range")
    ensures j.JDict? ==> r == Raises(KeyError, "0")
  {
    match j
    case JList(xs) => if xs != [] then Returns(xs[0]) else Raises(IndexError, "list index out of range")
    case JStr(s) => if s != "" then Returns(JStr([s[0]])) else Raises(IndexError, "string index out of range")
    case JDict(_) => Raises(KeyError, "0")
    case _ => Raises(TypeError, "'" + TypeName(j) + "' object is not subscriptable")
  }

  /** `t` occurs in `s` starting at position `i`. */
  predicate OccursAt(t: string, s: string, i: nat) {
    i + |t| <= |s| && s[i..i + |t|] == t
  }

  /** `t` occurs as a contiguous part of `s`. */
  predicate IsSubstring(t: string, s: string) {
    exists i | 0 <= i <= |s| - |t| :: OccursAt(t, s, i)
  }

  /** `needle in j` with a string needle. */
  function Contains(j: Json, needle: string): (r: Outcome<bool>)
    ensures j.JDict? ==> r == Returns(needle in j.fields)
    ensures j.JStr? ==> r == Returns(IsSubstring(needle, j.s))
    ensures j.JList? ==> r == Returns(JStr(needle) in j.items)
  {
    match j
    case JStr(s) => Returns(IsSubstring(needle, s))
    case JList(xs) => Returns(JStr(needle) in xs)
    case JDict(m) => Returns(needle in m)
    case _ => Raises(TypeError, "argument of type '" + TypeName(j) + "' is not iterable")
  }

  /** `len(j)`. */
  function Len(j: Json): (r: Outcome<nat>)
    ensures j.JList? ==> r == Returns(|j.items|)
    ensures j.JDict? ==> r == Returns(|j.fields|)
    ensures j.JStr? ==> r == Returns(|j.s|)
    ensures r.Returns? <==> j.JList? || j.JDict? || j.JStr?
  {
    match j
    case JStr(s) => Returns(|s|)
    case JList(xs) => Returns(|xs|)
    case JDict(m) => Returns(|m|)
    case _ => Raises(TypeError, "object of type '" + TypeName(j) + "' has no len()")
  }

  /** `j + suffix` where `suffix` is a str. */
  function ConcatStr(j: Json, suffix: string): (r: Outcome<string>)
    ensures r.Returns? <==> j.JStr?
    ensures j.JStr? ==> r.value == j.s + suffix
  {
    match j
    case JStr(s) => Returns(s + suffix)
    case JList(_) => Raises(TypeError, "can only concatenate list (not \"str\") to list")
    case _ => Raises(TypeError, "unsupported operand type(s) for +: '" + TypeName(j) + "' and 'str'")
  }

  /** The decimal digit for `d < 10`. */
  function Digit(d: nat): char
    requires d < 10
  {
    "0123456789"[d]
  }

  /** `str(n)` for a natural number. */
  function NatToString(n: nat): (r: string)
    ensures r != []
    ensures forall k :: 0 <= k < |r| ==> '0' <= r[k] <= '9'
  {
    if n < 10 then [Digit(n)] else NatToString(n / 10) + [Digit(n % 10)]
  }

  /** The number a string of decimal digits denotes. */
  function DigitsValue(s: string): nat
    requires forall k :: 0 <= k < |s| ==> '0' <= s[k] <= '9'
  {
    if s == [] then 0 else 10 * DigitsValue(s[..|s| - 1]) + (s[|s| - 1] as int - '0' as int)
  }

  /** Reading back the digits `NatToString` writes gives the number again. */
  lemma {:induction false} NatToStringRoundTrip(n: nat)
    ensures DigitsValue(NatToString(n)) == n
  {
    var r := NatToString(n);
    if n >= 10 {
      NatToStringRoundTrip(n / 10);
      assert r[..|r| - 1] == NatToString(n / 10);
    }
  }

  /** `str(i)` for an integer. */
  function IntToString(i: int): string {
    if i < 0 then "-" + NatToString(-i) else NatToString(i)
  }

  /**
   * `f"{j}"`: the text a value contributes to an f-string. Scalars render as
   * Python renders them; lists and dicts render as fixed placeholders.
   */
  function Show(j: Json): (r: string)
    ensures j.JStr? ==> r == j.s
  {
    match j
    case JNull => "None"
    case JBool(b) => if b then "True" else "False"
    case JInt(i) => IntToString(i)
    case JStr(s) => s
    case JList(_) => "[...]"
    case JDict(_) => "{...}"
  }
}
