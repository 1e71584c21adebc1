/** Absent-or-present values: JavaScript's `undefined` next to a real value. */
module Options {

  datatype Option<+T> = None | Some(value: T) {

    /** The value when present, the fallback otherwise (`x ?? fallback`). */
    function GetOr(fallback: T): T {
      match this
      case Some(v) => v
      case None => fallback
    }
  }
}
