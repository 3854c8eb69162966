/** A decoded JSON value as Python's `json` module hands it to the program (None,
    bool, number, str, list, dict), and the few Python operations the relay applies
    to such values, each with the exception Python raises when the value has the
    wrong kind. */
module PyJson {
  import opened PyStr

  datatype Json =
    | JNull
    | JBool(b: bool)
    | JNum(n: int)
    | JStr(s: string)
    | JArr(items: seq<Json>)
    | JObj(fields: map<string, Json>)

  /** Python's truth value of a decoded JSON value (`bool(v)`). */
  predicate Truthy(v: Json) {
    match v
    case JNull => false
    case JBool(b) => b
    case JNum(n) => n != 0
    case JStr(s) => s != []
    case JArr(items) => items != []
    case JObj(fields) => fields != map[]
  }

  /** The exceptions the relay's response handling can run into. */
  datatype Exc = KeyError | TypeError | IndexError | AttributeError

  /** The outcome of a Python expression: a value, or a raised exception that
      propagates (through `:-`) until something catches it. */
  datatype Py<+T> = Return(value: T) | Raise(exc: Exc) {
    predicate IsFailure() {
      Raise?
    }

    function PropagateFailure<U>(): Py<U>
      requires Raise?
    {
      Raise(exc)
    }

    function Extract(): T
      requires Return?
    {
      value
    }
  }

  /** `p` occurs in `s` as a contiguous substring. */
  predicate IsSubstring(p: string, s: string)
    decreases |s|
  {
    |p| <= |s| && (s[..|p|] == p || IsSubstring(p, s[1..]))
  }

  /** `key in v`: a key of a dict, an element of a list, a substring of a str;
      None, bool and numbers are not iterable. */
  function In(key: string, v: Json): Py<bool> {
    match v
    case JObj(fields) => Return(key in fields)
    case JArr(items) => Return(JStr(key) in items)
    case JStr(s) => Return(IsSubstring(key, s))
    case _ => Raise(TypeError)
  }

  /** `v[key]` with a str key: a dict lookup; lists and strs need integer indices and
      the other kinds are not subscriptable. */
  function GetItem(v: Json, key: string): Py<Json> {
    match v
    case JObj(fields) => if key in fields then Return(fields[key]) else Raise(KeyError)
    case _ => Raise(TypeError)
  }

  /** `len(v)`. */
  function Len(v: Json): Py<nat> {
    match v
    case JObj(fields) => Return(|fields|)
    case JArr(items) => Return(|items|)
    case JStr(s) => Return(|s|)
    case _ => Raise(TypeError)
  }

  /** `v[0]`: the first element of a list, the first character of a str; a dict
      decoded from JSON has only str keys, so the integer key 0 is never in it. */
  function First(v: Json): Py<Json> {
    match v
    case JArr(items) => if items != [] then Return(items[0]) else Raise(IndexError)
    case JStr(s) => if s != [] then Return(JStr(s[..1])) else Raise(IndexError)
    case JObj(_) => Raise(KeyError)
    case _ => Raise(TypeError)
  }

  /** `v.strip()`: only a str has the method. */
  function StripMethod(v: Json): Py<string> {
    match v
    case JStr(s) => Return(Strip(s))
    case _ => Raise(AttributeError)
  }
}
