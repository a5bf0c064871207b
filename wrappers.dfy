/** The optional value used throughout the model: `None` stands for JavaScript's
    `null`, `undefined` and `NaN`, whichever the source produces at that point. */
module Wrappers {

  datatype Option<+T> = None | Some(value: T) {

    /** `value || default` for a value that is falsy only when absent. */
    function GetOr(default: T): T {
      match this
      case Some(v) => v
      case None => default
    }
  }
}
