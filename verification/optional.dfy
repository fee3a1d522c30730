/** The Some/None wrapper used wherever Go returns a value together with an
    `ok` flag or an `error`, or leaves a pointer nil. */
module Optional {

  datatype Option<+T> = None | Some(value: T) {

    /** The wrapped value, or `default` when there is none. */
    function GetOr(default: T): T {
      match this
      case Some(v) => v
      case None => default
    }
  }
}
