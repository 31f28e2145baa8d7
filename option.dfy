/** A value that may be absent: JavaScript's `undefined`/`null` next to a present value. */
module Optional {

  datatype Option<+T> = None | Some(value: T) {

    /** The value, or `default` when it is absent. */
    function GetOr(default: T): T
    {
      match this
      case Some(v) => v
      case None => default
    }
  }
}
