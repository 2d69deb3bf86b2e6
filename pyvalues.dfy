/** The Python values that the nested-array container is built from and inspects. */
module PyValues {

  /** A Python object, as far as the container's type tests can tell objects apart.
      Booleans (a subclass of int in Python) are not distinguished from other objects here. */
  datatype PyVal =
    | PInt(i: int)              // an object whose type is exactly `int`
    | PFloat(f: real)           // a `float`; the container only ever tests its type
    | PStr(s: string)            // a `str`: subscriptable, but not a list
    | POther                     // any other object (None, a set, a function, ...): not subscriptable
    | PList(items: seq<PyVal>)   // a `list`
    | PTuple(items: seq<PyVal>)  // a `tuple`: subscriptable and iterable like a list, but no list

  /** A list or a tuple: a value that `v[0]`, `len(v)` and `for e in v` treat element-wise. */
  predicate IsSequence(v: PyVal) {
    v.PList? || v.PTuple?
  }

  /** The outcome of a Python call that either returns a value or raises one of the
      exceptions the interpreter itself raises (IndexError, TypeError, RecursionError). */
  datatype Result<T> = Ok(value: T) | Crash

  /** Python's `v[0]`: the first element of a non-empty list or tuple, the first character (a
      one-character str) of a non-empty str; anything else raises. */
  function Subscript0(v: PyVal): (r: Result<PyVal>)
    ensures r.Ok? <==> (IsSequence(v) && |v.items| > 0) || (v.PStr? && |v.s| > 0)
    ensures r.Ok? && IsSequence(v) ==> r.value == v.items[0]
    ensures r.Ok? && v.PStr? ==> r.value.PStr? && |r.value.s| == 1
  {
    match v
    case PList(xs) => if |xs| > 0 then Ok(xs[0]) else Crash
    case PTuple(xs) => if |xs| > 0 then Ok(xs[0]) else Crash
    case PStr(s) => if |s| > 0 then Ok(PStr([s[0]])) else Crash
    case _ => Crash
  }

  /** `all(type(element) == int for element in xs)` */
  predicate AllInts(xs: seq<PyVal>) {
    forall j :: 0 <= j < |xs| ==> xs[j].PInt?
  }

  /** `all(type(element) == float for element in xs)` */
  predicate AllFloats(xs: seq<PyVal>) {
    forall j :: 0 <= j < |xs| ==> xs[j].PFloat?
  }
}
