/** Nullable references of the Java source, written as an option type. */
module Wrappers {

  datatype Option<+T> = None | Some(value: T)

  /** `ObjectUtil.coalesce(a, b)`: the first of the two values that is not null. */
  function Coalesce<T>(a: Option<T>, b: Option<T>): Option<T>
  {
    if a.Some? then a else b
  }

  /** `ObjectUtil.coalesce(a, b)` where `b` is known not to be null. */
  function OrElse<T>(a: Option<T>, b: T): T
  {
    if a.Some? then a.value else b
  }
}
