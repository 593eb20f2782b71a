/** Small value types shared by the models. */
module Common {

  datatype Option<+T> = None | Some(value: T) {
    /** The value, or `other` when there is none. */
    function GetOr(other: T): T {
      if Some? then value else other
    }
  }

  /** Amounts of the two pool tokens, in raw units. */
  datatype Pair = Pair(a0: int, a1: int) {
    function Plus(other: Pair): Pair {
      Pair(a0 + other.a0, a1 + other.a1)
    }
  }

  const ZERO_PAIR := Pair(0, 0)

  /** Canonical chain position of a log: block number, transaction index, log index. */
  datatype Order = Order(block: int, tx: int, log: int)

  predicate Before(a: Order, b: Order) {
    || a.block < b.block
    || (a.block == b.block && a.tx < b.tx)
    || (a.block == b.block && a.tx == b.tx && a.log < b.log)
  }

  predicate AtOrBefore(a: Order, b: Order) {
    a == b || Before(a, b)
  }

  function Max(a: int, b: int): int {
    if a < b then b else a
  }

  function Min(a: int, b: int): int {
    if a < b then a else b
  }

  function Abs(a: int): int {
    if a < 0 then -a else a
  }
}
