// Shared vocabulary: optional values and instants.
module Prelude {
  datatype Option<+T> = None | Some(value: T) {
    function GetOr(default: T): T {
      if Some? then value else default
    }
  }

  // An instant is a number of microseconds; midnight of ordinal day n is Days(n).
  type Instant = int

  function Days(n: int): int {
    n * 86_400_000_000
  }

  // The number of whole days in a length of time, rounded down.
  function WholeDays(t: int): int {
    t / 86_400_000_000
  }
}
