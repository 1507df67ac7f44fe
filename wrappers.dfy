/** Optional values: the model's stand-in for a C# reference that may be null. */
module Wrappers {

  datatype Option<+T> = None | Some(value: T)

  /** The elements an optional value holds, as a sequence of length zero or one. */
  function OptionToSeq<T>(o: Option<T>): seq<T>
  {
    match o
    case None => []
    case Some(v) => [v]
  }
}
