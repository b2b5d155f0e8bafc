/** An optional value: the one wrapper the model needs. */
module Wrappers {

  /** `None` stands for the empty string the script uses for "no move" or
      "no result", and for a storage key that holds nothing. */
  datatype Option<+T> = None | Some(value: T) {

    /** The wrapped value, or `default` when there is none. */
    function GetOr(default: T): (r: T)
      ensures Some? ==> r == value
      ensures None? ==> r == default
    {
      match this
      case Some(v) => v
      case None => default
    }
  }
}
