/** The optional-value datatype used throughout the model: `None` stands for
    JavaScript's "nothing happens" / `undefined` outcomes. */
module Wrappers {

  datatype Option<+T> = None | Some(value: T) {

    /** The zero- or one-element sequence holding the value */
    function ToSeq(): (s: seq<T>)
      ensures |s| == (if Some? then 1 else 0)
      ensures Some? ==> s[0] == value
    {
      match this
      case Some(v) => [v]
      case None => []
    }
  }
}
