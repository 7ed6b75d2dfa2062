/** The null-or-value results of the Java code (a File that may be null, a
    getCanonicalFile that may throw, a findFirst that may find nothing). */
module Wrappers {

  datatype Option<+T> = None | Some(value: T) {

    /** The value, or `default` when there is none. */
    function GetOr(default: T): T {
      match this
      case Some(v) => v
      case None => default
    }
  }
}
