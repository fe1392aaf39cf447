/** The optional value used for fields a JSON object may leave out. */
module Wrappers {

  /** `None` stands for an absent (undefined) field, `Some(v)` for a present one. */
  datatype Option<+T> = None | Some(value: T) {

    /** The carried value, or `default` when absent. */
    function GetOr(default: T): T {
      match this
      case Some(v) => v
      case None => default
    }
  }
}
