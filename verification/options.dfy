/** A value that may be absent: what a decoder returns when its input is
    not well formed, and what the widget holds for a parse that failed. */
module Options {

  datatype Option<+T> = None | Some(value: T) {

    /** The held value, or `fallback` when there is none. */
    function GetOr(fallback: T): T {
      match this
      case Some(v) => v
      case None => fallback
    }
  }
}
