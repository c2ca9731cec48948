/** Octets and values that may be absent, used by every component. */
module Wrappers {

  newtype Byte = b: int | 0 <= b < 256

  type Bytes = seq<Byte>

  datatype Option<+T> = None | Some(value: T)

  /** The first value if present, otherwise the second. */
  function OrElse<T>(first: Option<T>, second: Option<T>): Option<T> {
    if first.Some? then first else second
  }

  /** The contained value, or `default` when there is none. */
  function GetOr<T>(option: Option<T>, default: T): T {
    if option.Some? then option.value else default
  }
}
