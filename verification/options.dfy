/** Python's `Optional[...]`: a value that may be `None`. */
module Options {

  datatype Option<T> = None | Some(value: T)

  /** Python's `a or b` on an optional value: `a` when it is set, `b` otherwise. */
  function OrElse<T>(a: Option<T>, b: T): T
  {
    match a
    case Some(x) => x
    case None => b
  }
}
