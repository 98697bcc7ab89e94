/** Python's `Optional[T]`: a value that may be `None`. */
module Optional {

  datatype Option<+T> = None | Some(value: T) {

    /** `x or default` for an optional value that is never falsy itself. */
    function GetOr(default: T): T {
      match this
      case Some(v) => v
      case None => default
    }
  }
}
