/** Optional values, for the source's `Option`, `null` and absent fields. */
module Wrappers {
  datatype Option<+T> = None | Some(value: T) {
    function GetOr(default: T): (r: T) {
      if Some? then value else default
    }
  }

  function Max(a: int, b: int): int {
    if a >= b then a else b
  }

  function Min(a: int, b: int): int {
    if a <= b then a else b
  }
}
