/** The nullable values of the bot's tables and arguments. */
module Wrappers {

  /** `None` stands for JavaScript's `null`/`undefined` and SQL's NULL. */
  datatype Option<+T> = None | Some(value: T) {

    /** The value, or `default` when absent (the `??` operator). */
    function GetOr(default: T): T {
      match this
      case Some(v) => v
      case None => default
    }
  }
}
