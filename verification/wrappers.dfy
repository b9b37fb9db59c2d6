/** The optional-value datatype shared by the ratio stores and the lookups. */
module Wrappers {

  /** `None` stands for an absent value: a nil Go map, a missed lookup, a rule list with no match. */
  datatype Option<+T> = None | Some(value: T) {

    /** The value held, or `default` when there is none. */
    function GetOr(default: T): (r: T)
      ensures Some? ==> r == value
      ensures None? ==> r == default
    {
      match this
      case Some(v) => v
      case None => default
    }
  }
}
