/** The Option datatype: JavaScript's `null`/`undefined` versus a present value. */
module Optional {

  datatype Option<T> = None | Some(value: T) {

    /** The value, or `default` when there is none. */
    function GetOr(default: T): T {
      match this
      case Some(v) => v
      case None => default
    }
  }
}
