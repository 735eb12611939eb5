/** The optional values of the source: `undefined` in TypeScript, `None` in Python. */
module Wrappers {

  datatype Option<+T> = None | Some(value: T)
  {
    /** The wrapped value, or `default` when there is none (JavaScript's `x || default` on a lookup). */
    function GetOr(default: T): T
    {
      match this
      case Some(v) => v
      case None => default
    }
  }
}
