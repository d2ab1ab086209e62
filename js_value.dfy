/** JSON scalars as the survey server sends them, and the three JavaScript tests the
    flow applies to task properties: truthiness, strict equality with `true`, and
    "null or undefined". A property that is missing from a task object is `None`. */
module JsValue {

  datatype Option<+T> = None | Some(value: T)

  /** A JSON scalar. Numbers are integers here; the flow never does arithmetic on them. */
  datatype Value = Null | Bool(b: bool) | Num(n: int) | Str(s: string)

  /** `if (v)` on a property that may be missing. */
  predicate Truthy(v: Option<Value>) {
    match v
    case None => false
    case Some(Null) => false
    case Some(Bool(b)) => b
    case Some(Num(n)) => n != 0
    case Some(Str(s)) => s != ""
  }

  /** `v === true`: only the boolean `true` passes, not `1` or `"true"`. */
  predicate IsTrue(v: Option<Value>) {
    v == Some(Bool(true))
  }

  /** `v === null || v === undefined`. */
  predicate IsNullish(v: Option<Value>) {
    v == None || v == Some(Null)
  }

  /** The value of a property when `hasOwnProperty` finds it, else the fallback. */
  function Override<T>(o: Option<T>, fallback: T): (r: T)
    ensures o.None? ==> r == fallback
    ensures o.Some? ==> r == o.value
  {
    match o
    case None => fallback
    case Some(v) => v
  }
}
