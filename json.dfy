/** Decoded JSON values as Python's json module hands them to the scraper, and
    the few dynamic Python operations the scraper applies to them: truthiness,
    dict.get, subscripting and len. Each operation returns the exception Python
    would raise for an ill-typed operand instead of a value. */
module Json {

  /** A decoded JSON document. Numbers are finite; Python's int/float split only
      matters for str(), which the model does not render. */
  datatype Json =
    | JNull
    | JBool(b: bool)
    | JNum(n: real)
    | JStr(s: string)
    | JArr(items: seq<Json>)
    | JObj(fields: map<string, Json>)

  datatype Option<+T> = None | Some(value: T)

  /** The Python exceptions the scraper can meet. RequestError stands for any
      exception from the HTTP layer that is neither HTTPError nor Timeout
      (connection failures, undecodable bodies). */
  datatype Exc = KeyError | TypeError | AttributeError | IndexError | RequestError

  /** The outcome of evaluating a Python expression: a value, or a raised exception. */
  datatype Py<+T> = Ok(value: T) | Raise(exc: Exc) {
    predicate IsFailure() {
      Raise?
    }

    function PropagateFailure<U>(): Py<U>
      requires Raise?
    {
      Raise(exc)
    }

    function Extract(): T
      requires Ok?
    {
      value
    }
  }

  /** Python truthiness: None, False, zero, and empty str/list/dict are false. */
  predicate Falsy(j: Json) {
    match j
    case JNull => true
    case JBool(b) => !b
    case JNum(n) => n == 0.0
    case JStr(s) => s == []
    case JArr(xs) => xs == []
    case JObj(m) => m == map[]
  }

  /** `j.get(key, default)`: only a dict has a `get` method. */
  function Get(j: Json, key: string, default: Json): (r: Py<Json>)
    ensures r.Raise? <==> !j.JObj?
    ensures r.Raise? ==> r.exc == AttributeError
    ensures j.JObj? && key in j.fields ==> r == Ok(j.fields[key])
    ensures j.JObj? && key !in j.fields ==> r == Ok(default)
  {
    match j
    case JObj(m) => Ok(if key in m then m[key] else default)
    case _ => Raise(AttributeError)
  }

  /** `j[key]` with a string key: a dict raises KeyError for a missing key;
      lists and strings need integer indices and None, numbers and booleans
      are not subscriptable, all of which raise TypeError. */
  function Index(j: Json, key: string): (r: Py<Json>)
    ensures r.Ok? <==> j.JObj? && key in j.fields
    ensures r.Ok? ==> r.value == j.fields[key]
    ensures r == Raise(KeyError) <==> j.JObj? && key !in j.fields
    ensures r.Raise? ==> r.exc in {KeyError, TypeError}
  {
    match j
    case JObj(m) => if key in m then Ok(m[key]) else Raise(KeyError)
    case _ => Raise(TypeError)
  }

  /** `len(j)`: defined on str, list and dict. */
  function Length(j: Json): (r: Py<nat>)
    ensures r.Ok? <==> j.JStr? || j.JArr? || j.JObj?
    ensures j.JArr? ==> r == Ok(|j.items|)
    ensures r.Raise? ==> r.exc == TypeError
  {
    match j
    case JStr(s) => Ok(|s|)
    case JArr(xs) => Ok(|xs|)
    case JObj(m) => Ok(|m|)
    case _ => Raise(TypeError)
  }

  /** `j[i]` with a non-negative integer index. A string yields a
      one-character string; a decoded dict has only string keys, so an
      integer key is always missing. */
  function Item(j: Json, i: nat): (r: Py<Json>)
    ensures j.JArr? && i < |j.items| ==> r == Ok(j.items[i])
    ensures j.JObj? ==> r == Raise(KeyError)
    ensures j.JArr? && i >= |j.items| ==> r == Raise(IndexError)
    ensures j.JStr? && i < |j.s| ==> r == Ok(JStr([j.s[i]]))
    ensures j.JStr? && i >= |j.s| ==> r == Raise(IndexError)
    ensures !(j.JArr? || j.JStr? || j.JObj?) ==> r == Raise(TypeError)
  {
    match j
    case JArr(xs) => if i < |xs| then Ok(xs[i]) else Raise(IndexError)
    case JStr(s) => if i < |s| then Ok(JStr([s[i]])) else Raise(IndexError)
    case JObj(_) => Raise(KeyError)
    case _ => Raise(TypeError)
  }
}
