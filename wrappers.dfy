/** The optional-value type shared by every module of the model. */
module Wrappers {

  datatype Option<T> = None | Some(value: T) {
    /** The value as a sequence of at most one element. */
    function ToSeq(): seq<T> {
      match this
      case Some(v) => [v]
      case None => []
    }
  }
}
