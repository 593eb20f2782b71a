/** Fee growth accumulators wrap at 256 bits; the claims computed from them are exact all the same. */
module FeeGrowth {
  import opened Common

  const WRAP: int := 0x1_0000_0000_0000_0000_0000_0000_0000_0000_0000_0000_0000_0000_0000_0000_0000_0000
  const Q128: int := 0x1_0000_0000_0000_0000_0000_0000_0000_0000

  /** Wrapped growth converted to floor-rounded token units. */
  function FeeGrowthAmount(liquidity: nat, current: int, previous: int): int {
    liquidity * ((current - previous) % WRAP) / Q128
  }

  /** Growth inside a range, from the accumulators of the pool and of its two ticks. */
  function Inside(growth: int, lowerOutside: int, upperOutside: int, tick: int, lower: int, upper: int): int {
    var below := if tick >= lower then lowerOutside else (growth - lowerOutside) % WRAP;
    var above := if tick < upper then upperOutside else (growth - upperOutside) % WRAP;
    (growth - below - above) % WRAP
  }

  /** Total claim and still lazy fees of both tokens. */
  function FeeClaim(liquidity: nat, last: Pair, owed: Pair, growth: Pair, lowerOutside: Pair, upperOutside: Pair,
                    tick: int, lower: int, upper: int): (Pair, Pair)
  {
    var lazy := Pair(
      FeeGrowthAmount(liquidity, Inside(growth.a0, lowerOutside.a0, upperOutside.a0, tick, lower, upper), last.a0),
      FeeGrowthAmount(liquidity, Inside(growth.a1, lowerOutside.a1, upperOutside.a1, tick, lower, upper), last.a1));
    (owed.Plus(lazy), lazy)
  }

  // ---------------------------------------------------------------- the pool

  /** The accumulators of one token that concern one range, each below 2^256. */
  datatype Pool = Pool(growth: int, lowerOutside: int, upperOutside: int, tick: int)

  /** Fees accrue at the current tick, or the price moves and flips the ticks it crosses. */
  datatype Op = Accrue(amount: nat) | Move(tick: int)

  function Flip(growth: int, outside: int): int {
    (growth - outside) % WRAP
  }

  predicate Crosses(boundary: int, a: int, b: int) {
    (a < boundary) != (b < boundary)
  }

  function After(p: Pool, op: Op, lower: int, upper: int): Pool {
    match op
    case Accrue(amount) => p.(growth := (p.growth + amount) % WRAP)
    case Move(tick) =>
      Pool(p.growth,
           if Crosses(lower, p.tick, tick) then Flip(p.growth, p.lowerOutside) else p.lowerOutside,
           if Crosses(upper, p.tick, tick) then Flip(p.growth, p.upperOutside) else p.upperOutside,
           tick)
  }

  function Run(p: Pool, ops: seq<Op>, lower: int, upper: int): Pool {
    if |ops| == 0 then p else After(Run(p, ops[..|ops| - 1], lower, upper), ops[|ops| - 1], lower, upper)
  }

  /** The unbounded sum of what accrued while the price was inside the range. */
  function InRangeGrowth(p: Pool, ops: seq<Op>, lower: int, upper: int): nat {
    if |ops| == 0 then 0
    else
      var before := Run(p, ops[..|ops| - 1], lower, upper);
      var last := ops[|ops| - 1];
      InRangeGrowth(p, ops[..|ops| - 1], lower, upper)
      + if last.Accrue? && lower <= before.tick < upper then last.amount else 0
  }

  function InsideOf(p: Pool, lower: int, upper: int): int {
    Inside(p.growth, p.lowerOutside, p.upperOutside, p.tick, lower, upper)
  }

  // ---------------------------------------------------------------- exactness

  lemma {:induction false} ModPeriod(x: int, k: int)
    ensures (x + k * WRAP) % WRAP == x % WRAP
    decreases if k < 0 then -k else k
  {
    if k > 0 {
      ModPeriod(x, k - 1);
      assert (x + k * WRAP) == (x + (k - 1) * WRAP) + WRAP;
    } else if k < 0 {
      ModPeriod(x, k + 1);
      assert (x + k * WRAP) == (x + (k + 1) * WRAP) - WRAP;
    }
  }

  /** Reducing a part first makes no difference. */
  lemma ModParts(x: int, y: int, z: int)
    ensures (x - y % WRAP - z % WRAP) % WRAP == (x - y - z) % WRAP
    ensures (x - y % WRAP - z) % WRAP == (x - y - z) % WRAP
    ensures (x - y - z % WRAP) % WRAP == (x - y - z) % WRAP
  {
    var k, m := y / WRAP, z / WRAP;
    assert y % WRAP == y - k * WRAP && z % WRAP == z - m * WRAP;
    ModPeriod(x - y - z, k + m);
    ModPeriod(x - y - z, k);
    ModPeriod(x - y - z, m);
    assert (k + m) * WRAP == k * WRAP + m * WRAP;
  }

  /** Growth below the lower tick and above the upper one, before wrapping. */
  function BelowOf(p: Pool, lower: int): int {
    if p.tick >= lower then p.lowerOutside else p.growth - p.lowerOutside
  }

  function AboveOf(p: Pool, upper: int): int {
    if p.tick < upper then p.upperOutside else p.growth - p.upperOutside
  }

  lemma InsideUnwrapped(p: Pool, lower: int, upper: int)
    ensures InsideOf(p, lower, upper) == (p.growth - BelowOf(p, lower) - AboveOf(p, upper)) % WRAP
  {
    ModParts(p.growth, p.growth - p.lowerOutside, p.growth - p.upperOutside);
    ModParts(p.growth, p.growth - p.lowerOutside, p.upperOutside);
    ModParts(p.growth, p.lowerOutside, p.growth - p.upperOutside);
  }

  /** A flip changes what it means for the tick by whole wraps only. */
  lemma FlipWraps(growth: int, outside: int) returns (k: int)
    ensures Flip(growth, outside) == growth - outside - k * WRAP
  {
    k := (growth - outside) / WRAP;
  }

  /** Crossing a tick flips its outside value and leaves the inside growth as it was. */
  lemma CrossingKeepsInside(p: Pool, tick: int, lower: int, upper: int)
    ensures InsideOf(After(p, Move(tick), lower, upper), lower, upper) == InsideOf(p, lower, upper)
  {
    var q := After(p, Move(tick), lower, upper);
    InsideUnwrapped(p, lower, upper);
    InsideUnwrapped(q, lower, upper);
    var kl := FlipWraps(p.growth, p.lowerOutside);
    var ku := FlipWraps(p.growth, p.upperOutside);
    var a := if !Crosses(lower, p.tick, tick) then 0 else if tick >= lower then -kl else kl;
    var b := if !Crosses(upper, p.tick, tick) then 0 else if tick < upper then -ku else ku;
    assert BelowOf(q, lower) == BelowOf(p, lower) + a * WRAP;
    assert AboveOf(q, upper) == AboveOf(p, upper) + b * WRAP;
    ModPeriod(p.growth - BelowOf(p, lower) - AboveOf(p, upper), -(a + b));
    assert -(a + b) * WRAP == -(a * WRAP) - b * WRAP;
  }

  /** Fees accrued in range add to the inside growth; fees accrued elsewhere do not. */
  lemma AccrualAddsInside(p: Pool, amount: nat, lower: int, upper: int)
    requires lower < upper
    ensures InsideOf(After(p, Accrue(amount), lower, upper), lower, upper)
         == (InsideOf(p, lower, upper) + if lower <= p.tick < upper then amount else 0) % WRAP
  {
    var q := After(p, Accrue(amount), lower, upper);
    InsideUnwrapped(p, lower, upper);
    InsideUnwrapped(q, lower, upper);
    var k := (p.growth + amount) / WRAP;
    assert q.growth == p.growth + amount - k * WRAP;
    var x := p.growth - BelowOf(p, lower) - AboveOf(p, upper);
    var y := q.growth - BelowOf(q, lower) - AboveOf(q, upper);
    ModParts(amount, -x, 0);
    var m := (-x) / WRAP;
    if lower <= p.tick < upper {
      assert y == x + amount - k * WRAP;
      ModPeriod(x + amount, -k);
      ModOfSum(x, amount);
    } else {
      assert p.tick < lower || p.tick >= upper;
      assert y == x || y == x + amount - k * WRAP - (amount - k * WRAP);
      ModOfSum(x, 0);
    }
  }

  lemma ModOfSum(x: int, y: int)
    ensures (x % WRAP + y) % WRAP == (x + y) % WRAP
  {
    var k := x / WRAP;
    assert x % WRAP == x - k * WRAP;
    ModPeriod(x + y, -k);
  }

  /** Over any run, the inside growth moves by the growth in range, modulo the wrap. */
  lemma {:induction false} InsideTracksGrowth(p: Pool, ops: seq<Op>, lower: int, upper: int)
    requires lower < upper
    ensures InsideOf(Run(p, ops, lower, upper), lower, upper)
         == (InsideOf(p, lower, upper) + InRangeGrowth(p, ops, lower, upper)) % WRAP
  {
    if |ops| == 0 {
      InsideUnwrapped(p, lower, upper);
      ModOfSum(p.growth - BelowOf(p, lower) - AboveOf(p, upper), 0);
    } else {
      var init, last := ops[..|ops| - 1], ops[|ops| - 1];
      InsideTracksGrowth(p, init, lower, upper);
      var before := Run(p, init, lower, upper);
      hide InsideOf, Run;
      match last
      case Accrue(amount) =>
        AccrualAddsInside(before, amount, lower, upper);
        ModOfSum(InsideOf(p, lower, upper) + InRangeGrowth(p, init, lower, upper),
                 if lower <= before.tick < upper then amount else 0);
      case Move(tick) => CrossingKeepsInside(before, tick, lower, upper);
    }
  }

  lemma WrappedDifference(i: int, g: int)
    requires 0 <= g < WRAP
    ensures ((i + g) % WRAP - i) % WRAP == g
  {
    ModOfSum(i + g, -i);
  }

  /**
   However often the accumulators wrap, the lazy fee since a checkpoint is exactly the floor of
   the liquidity's share of the growth in range, as long as that growth is below one wrap.
   */
  lemma LazyFeeIsExact(p: Pool, ops: seq<Op>, lower: int, upper: int, liquidity: nat)
    requires lower < upper && InRangeGrowth(p, ops, lower, upper) < WRAP
    ensures FeeGrowthAmount(liquidity, InsideOf(Run(p, ops, lower, upper), lower, upper), InsideOf(p, lower, upper))
         == liquidity * InRangeGrowth(p, ops, lower, upper) / Q128
  {
    InsideTracksGrowth(p, ops, lower, upper);
    var i, g := InsideOf(p, lower, upper), InRangeGrowth(p, ops, lower, upper);
    WrappedDifference(i, g);
    hide InsideOf, Run, InRangeGrowth;
  }

  /** The whole claim: what was owed, plus the exact fees of both tokens since the checkpoints. */
  lemma ClaimIsExact(p0: Pool, ops0: seq<Op>, p1: Pool, ops1: seq<Op>, lower: int, upper: int, liquidity: nat,
                     owed: Pair)
    requires lower < upper
    requires InRangeGrowth(p0, ops0, lower, upper) < WRAP && InRangeGrowth(p1, ops1, lower, upper) < WRAP
    requires Run(p0, ops0, lower, upper).tick == Run(p1, ops1, lower, upper).tick
    ensures
      var now0, now1 := Run(p0, ops0, lower, upper), Run(p1, ops1, lower, upper);
      var earned := Pair(liquidity * InRangeGrowth(p0, ops0, lower, upper) / Q128,
                         liquidity * InRangeGrowth(p1, ops1, lower, upper) / Q128);
      FeeClaim(liquidity, Pair(InsideOf(p0, lower, upper), InsideOf(p1, lower, upper)), owed,
               Pair(now0.growth, now1.growth), Pair(now0.lowerOutside, now1.lowerOutside),
               Pair(now0.upperOutside, now1.upperOutside), now0.tick, lower, upper)
      == (owed.Plus(earned), earned)
  {
    LazyFeeIsExact(p0, ops0, lower, upper, liquidity);
    LazyFeeIsExact(p1, ops1, lower, upper, liquidity);
  }
}
