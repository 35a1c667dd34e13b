/** The optional value that stands for a C# nullable field: `None` is `null`. */
module Wrappers {

  datatype Option<+T> = None | Some(value: T) {

    /** Applies `f` to a present value and keeps an absent one absent. */
    function Map<U>(f: T -> U): (r: Option<U>)
      ensures r.Some? <==> Some?
      ensures Some? ==> r.value == f(value)
    {
      match this
      case None => None
      case Some(v) => Some(f(v))
    }
  }
}
