/** Small pieces shared by the models. */
module Basics {
  datatype Option<+T> = None | Some(value: T) {
    function GetOr(default: T): T {
      match this
      case Some(v) => v
      case None => default
    }
  }

  /** Instant::duration_since: saturates at zero when the clock reading is older than its argument. */
  function Since(now: int, earlier: int): nat {
    if now >= earlier then now - earlier else 0
  }

  const U64_MAX: nat := 0xFFFF_FFFF_FFFF_FFFF

  type U64 = x: nat | x <= U64_MAX

  function Last<T>(s: seq<T>): T
    requires s != []
  {
    s[|s| - 1]
  }

  lemma Regroup<T>(x: seq<T>, y: seq<T>, z: seq<T>)
    ensures x + y + z == x + (y + z)
  {
  }

  lemma NothingAdded<T>(x: seq<T>)
    ensures x + [] == x && [] + x == x
  {
  }
}
