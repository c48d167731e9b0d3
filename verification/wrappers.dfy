/** The optional value used for the source's optional fields (`folder?`,
    `code?`, `analysis?`) and for `null`-able state. */
module Wrappers {

  datatype Option<+T> = None | Some(value: T) {

    function GetOr(default: T): T {
      match this
      case Some(v) => v
      case None => default
    }
  }
}
