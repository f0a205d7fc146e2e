/** Swift's `T?`: a value that may be absent. */
module Optional {

  datatype Optional<T> = Absent | Present(value: T)

  /** Swift's nil-coalescing `x ?? fallback`: the present value, else the fallback. */
  function Coalesce<T>(x: Optional<T>, fallback: T): (r: T)
  {
    if x.Present? then x.value else fallback
  }
}
