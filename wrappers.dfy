/** Small failure-carrying datatypes shared by every module. */
module Wrappers {

  /** A value that may be absent (`undefined` / `null` in the JavaScript). */
  datatype Option<+T> = None | Some(value: T)
  {
    /** `this || fallback`: the value when present, the fallback otherwise. */
    function OrElse(fallback: T): T
    {
      match this
      case Some(v) => v
      case None => fallback
    }
  }

  /** Picks some element of a non-empty set: the next key a key-by-key loop visits. */
  method Choose<T>(s: set<T>) returns (x: T)
    requires s != {}
    ensures x in s
  {
    x :| x in s;
  }
}
