/** The optional value used wherever the source has `null` or `undefined`. */
module Options {

  datatype Option<+T> = None | Some(value: T) {

    /** The value in Some, or `default` for None (the source's `x || default` on a present, non-falsy value). */
    function GetOr(default: T): T {
      match this
      case Some(v) => v
      case None => default
    }
  }
}
