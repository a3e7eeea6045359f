/**
 * A decoded JSON value and the Python operations the connectors apply to it,
 * each either producing a value or raising the exception Python raises.
 */
module Json {
  import opened Wrappers
  import opened Errors
  import Numerals

  /** Numbers are integers; `JNull` also stands for Python's `None`. */
  datatype Json =
    | JNull
    | JBool(b: bool)
    | JNum(n: int)
    | JStr(s: string)
    | JArr(items: seq<Json>)
    | JObj(fields: map<string, Json>)

  /** Python's truth value: None, False, 0, "", [] and {} are false. */
  predicate Truthy(j: Json) {
    match j
    case JNull => false
    case JBool(b) => b
    case JNum(n) => n != 0
    case JStr(s) => s != ""
    case JArr(a) => a != []
    case JObj(m) => m != map[]
  }

  /** Values that may be added to a Python set. */
  predicate Hashable(j: Json) {
    !j.JArr? && !j.JObj?
  }

  /** `j[key]` for a string key. */
  function Field(j: Json, key: string): (r: Result<Json, Error>)
    ensures r.Ok? <==> j.JObj? && key in j.fields
    ensures r.Ok? ==> r.value == j.fields[key]
    ensures j.JObj? && key !in j.fields ==> r == Err(KeyError(key))
  {
    match j
    case JObj(m) => if key in m then Ok(m[key]) else Err(KeyError(key))
    case _ => Err(TypeError)
  }

  /** `d.get(key, default)` for a dict d. */
  function GetOr(fields: map<string, Json>, key: string, default: Json): Json {
    if key in fields then fields[key] else default
  }

  /** `j[i]` for a non-negative integer index. */
  function Index(j: Json, i: nat): (r: Result<Json, Error>)
    ensures j.JArr? ==> r == if i < |j.items| then Ok(j.items[i]) else Err(IndexError)
  {
    match j
    case JArr(a) => if i < |a| then Ok(a[i]) else Err(IndexError)
    case JStr(s) => if i < |s| then Ok(JStr([s[i]])) else Err(IndexError)
    case JObj(_) => Err(KeyError(Numerals.DecimalString(i)))
    case _ => Err(TypeError)
  }

  /**
   * The values `for x in j` visits. A string yields its characters. A dict
   * yields its keys, on which every loop of the connectors fails at once; the
   * model raises at the loop head instead (an empty dict yields nothing).
   */
  function Elements(j: Json): (r: Result<seq<Json>, Error>)
    ensures j.JArr? ==> r == Ok(j.items)
  {
    match j
    case JArr(a) => Ok(a)
    case JStr(s) => Ok(seq(|s|, i requires 0 <= i < |s| => JStr([s[i]])))
    case JObj(m) => if m == map[] then Ok([]) else Err(TypeError)
    case _ => Err(TypeError)
  }

  /** `k in s` for strings: k occurs in s at some position. */
  predicate IsSubstring(k: string, s: string) {
    k <= s || (s != [] && IsSubstring(k, s[1..]))
  }

  /** `key in j` */
  function Contains(j: Json, key: string): (r: Result<bool, Error>)
    ensures j.JObj? ==> r == Ok(key in j.fields)
  {
    match j
    case JObj(m) => Ok(key in m)
    case JArr(a) => Ok(JStr(key) in a)
    case JStr(s) => Ok(IsSubstring(key, s))
    case _ => Err(TypeError)
  }

  /** `j[n:]` */
  function DropPrefix(j: Json, n: nat): (r: Result<Json, Error>)
    ensures r.Ok? <==> j.JStr? || j.JArr?
  {
    match j
    case JStr(s) => Ok(JStr(if n < |s| then s[n..] else ""))
    case JArr(a) => Ok(JArr(if n < |a| then a[n..] else []))
    case _ => Err(TypeError)
  }

  /** `int(j)` */
  function IntValue(j: Json): (r: Result<int, Error>)
    ensures j.JNum? ==> r == Ok(j.n)
  {
    match j
    case JNum(n) => Ok(n)
    case JBool(b) => Ok(if b then 1 else 0)
    case JStr(s) =>
      (match Numerals.ParseDecimal(s)
       case Some(n) => Ok(n)
       case None => Err(ValueError))
    case _ => Err(TypeError)
  }
}
