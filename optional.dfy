/** A value that may be absent: JavaScript's `null`/`undefined` on a record field,
    or a `NaN` produced by a failed number conversion. */
module Optional {

  datatype Option<+T> = None | Some(value: T) {

    /** The wrapped value, or `default` when absent. */
    function GetOr(default: T): T {
      match this
      case Some(v) => v
      case None => default
    }
  }
}
