/** Option type shared by the modules of this model: `None` stands for a
    JavaScript value that is absent (`undefined`, `null`), or for a number
    that is not a usable value (`NaN`, `Infinity`), as each use says. */
module Wrappers {

  datatype Option<+T> = None | Some(value: T) {

    function GetOr(default: T): T {
      match this
      case Some(v) => v
      case None => default
    }
  }
}
