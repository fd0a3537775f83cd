/** Option and Result: the source's null values and thrown errors. */
module Wrappers {
  datatype Option<+T> = None | Some(value: T) {
    /** The `??` operator. */
    function GetOr(default: T): T {
      match this
      case Some(v) => v
      case None => default
    }
  }

  datatype Result<+T, +E> = Ok(value: T) | Err(error: E)

  /** `if (c) list.push(x)` */
  function PushIf<T(!new)>(list: seq<T>, c: bool, x: T): (r: seq<T>)
    ensures forall y :: y in r <==> y in list || (c && y == x)
  {
    if c then list + [x] else list
  }
}
