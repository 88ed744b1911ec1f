/** Optional values and small sequence helpers shared by every model. */
module Wrappers {

  /** A Go pointer or map lookup that may be absent. */
  datatype Option<+T> = None | Some(value: T)

  function ToSeq<T>(o: Option<T>): seq<T> {
    if o.Some? then [o.value] else []
  }

  function Last<T>(s: seq<T>): T
    requires s != []
  {
    s[|s| - 1]
  }
}
