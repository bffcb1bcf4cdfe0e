/** The optional value used for the notification text and for a stage's
    optional log type. */
module Options {
  datatype Option<T> = None | Some(value: T) {
    function GetOr(default: T): T {
      match this
      case Some(v) => v
      case None => default
    }
  }
}
