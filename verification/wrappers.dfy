/** Optional values: a JavaScript `undefined`/`null` result, a failed parse, a search with no hit. */
module Wrappers {

  datatype Option<+T> = None | Some(value: T) {

    /** The value carried by `Some`, or `default` for `None`. */
    function GetOr(default: T): T {
      match this
      case Some(v) => v
      case None => default
    }
  }
}
