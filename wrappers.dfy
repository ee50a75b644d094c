/** Python's `Optional[T]` and the element type of Python `bytes`. */
module Wrappers {

  /** One element of a Python `bytes` object. */
  type Byte = b: int | 0 <= b < 256

  datatype Option<+T> = None | Some(value: T)

  /** Applies `f` to the value of `Some`, keeping `None`. */
  function MapOption<T, U>(o: Option<T>, f: T -> U): (r: Option<U>)
    ensures r.Some? <==> o.Some?
    ensures o.Some? ==> r.value == f(o.value)
  {
    match o
    case None => None
    case Some(v) => Some(f(v))
  }
}
