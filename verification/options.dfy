/** The optional value used for the component's nullable state fields. */
module Options {
  datatype Option<+T> = None | Some(value: T) {
    /** The held value, or `default` when there is none (JavaScript's `x || default` on a list). */
    function GetOr(default: T): T {
      match this
      case Some(v) => v
      case None => default
    }
  }
}
