/** Splitting a capital over bands of a range, and the liquidity that each budget buys. */
module Allocation {
  import opened Common
  import opened LiquidityMath
  import opened TickMath

  const Q192: int := Q96 * Q96
  const LIMIT: nat := 0x1_0000_0000_0000_0000_0000_0000_0000_0000_0000_0000_0000_0000_0000_0000_0000_0000
  const MAX_BANDS: nat := 12

  datatype Side = Stable0 | Stable1

  /** The values of both legs in raw units of the stable token. */
  function StableLegs(amounts: Pair, sqrtPrice: int, side: Side): Pair
    requires sqrtPrice > 0
  {
    var square := sqrtPrice * sqrtPrice;
    if side.Stable1? then Pair(amounts.a0 * square / Q192, amounts.a1)
    else Pair(amounts.a0, amounts.a1 * Q192 / square)
  }

  function StableValue(amounts: Pair, sqrtPrice: int, side: Side): int
    requires sqrtPrice > 0
  {
    StableLegs(amounts, sqrtPrice, side).a0 + StableLegs(amounts, sqrtPrice, side).a1
  }

  /** A band by the square roots at its ticks. */
  datatype Band = Band(lower: int, upper: int)

  predicate ValidBand(b: Band) {
    0 < b.lower < b.upper
  }

  function ValueOf(liquidity: nat, sqrtPrice: int, band: Band, side: Side): int
    requires sqrtPrice > 0 && ValidBand(band)
  {
    StableValue(PrincipalRaw(liquidity, sqrtPrice, band.lower, band.upper), sqrtPrice, side)
  }

  predicate Fits(liquidity: nat, budget: int, sqrtPrice: int, band: Band, side: Side)
    requires sqrtPrice > 0 && ValidBand(band)
  {
    ValueOf(liquidity, sqrtPrice, band, side) <= budget
  }

  /** More liquidity is never worth less, so what fits is a range from zero. */
  lemma ValueMonotone(l: nat, l': nat, sqrtPrice: int, band: Band, side: Side)
    requires sqrtPrice > 0 && ValidBand(band) && l <= l'
    ensures 0 <= ValueOf(l, sqrtPrice, band, side) <= ValueOf(l', sqrtPrice, band, side)
  {
    var p, p' := PrincipalRaw(l, sqrtPrice, band.lower, band.upper),
        PrincipalRaw(l', sqrtPrice, band.lower, band.upper);
    PrincipalGrowsWithLiquidity(l, l', sqrtPrice, band.lower, band.upper);
    hide PrincipalRaw;
    var square := sqrtPrice * sqrtPrice;
    IntMulLe(0, sqrtPrice - 1, sqrtPrice);
    assert (sqrtPrice - 1) * sqrtPrice == square - sqrtPrice;
    LegMonotone(p.a0, p'.a0, square, Q192);
    LegMonotone(p.a1, p'.a1, Q192, square);
  }

  lemma LegMonotone(a: int, b: int, m: int, d: int)
    requires 0 <= a <= b && m > 0 && d > 0
    ensures 0 <= a * m / d <= b * m / d
  {
    IntMulLe(a, b, m);
    IntMulLe(0, a, m);
    DivMonotone(a * m, b * m, d);
    DivMonotone(0, a * m, d);
  }

  lemma NoLiquidityIsFree(sqrtPrice: int, band: Band, side: Side)
    requires sqrtPrice > 0 && ValidBand(band)
    ensures ValueOf(0, sqrtPrice, band, side) == 0
  {
    var lo, up := band.lower, band.upper;
    ZeroOver(up, lo);
    if lo < sqrtPrice {
      ZeroOver(up, sqrtPrice);
    }
    ZeroOver(sqrtPrice * sqrtPrice, 1) by {
      IntMulLe(1, sqrtPrice, sqrtPrice);
    }
  }

  lemma ZeroOver(b: int, a: int)
    requires a > 0 && b > 0
    ensures 0 / b == 0 && 0 / b / a == 0
  {
    DivUnique(0, b, 0, 0);
    DivUnique(0, a, 0, 0);
  }

  datatype Bought = Bought(liquidity: nat, amounts: Pair)

  /** The search for this budget fails: it would need liquidity beyond 256 bits. */
  predicate Unbounded(budget: int, sqrtPrice: int, band: Band, side: Side)
    requires sqrtPrice > 0 && ValidBand(band)
  {
    budget > 0 && Fits(LIMIT / 2, budget, sqrtPrice, band, side)
  }

  /** The most liquidity a positive budget buys; nothing for an empty one. */
  ghost predicate IsBest(b: Bought, budget: int, sqrtPrice: int, band: Band, side: Side)
    requires sqrtPrice > 0 && ValidBand(band)
  {
    if budget <= 0 then b == Bought(0, ZERO_PAIR)
    else
      && b.amounts == PrincipalRaw(b.liquidity, sqrtPrice, band.lower, band.upper)
      && forall l: nat :: Fits(l, budget, sqrtPrice, band, side) <==> l <= b.liquidity
  }

  /**
   The greatest liquidity whose floor-rounded value fits the budget, by doubling and halving;
   None exactly when 2^255 still fits.
   */
  method LiquidityForBudget(budget: int, sqrtPrice: int, band: Band, side: Side) returns (bought: Option<Bought>)
    requires sqrtPrice > 0 && ValidBand(band)
    ensures bought.None? <==> Unbounded(budget, sqrtPrice, band, side)
    ensures bought.Some? ==> IsBest(bought.value, budget, sqrtPrice, band, side)
  {
    if budget <= 0 {
      return Some(Bought(0, ZERO_PAIR));
    }
    NoLiquidityIsFree(sqrtPrice, band, side);
    var limits := Bracket(budget, sqrtPrice, band, side);
    if limits.None? {
      return None;
    }
    hide ValueOf, PrincipalRaw;
    if Fits(LIMIT / 2, budget, sqrtPrice, band, side) {
      ValueMonotone(limits.value.1, LIMIT / 2, sqrtPrice, band, side);
    }
    var low := GreatestBelow(limits.value.0, limits.value.1, budget, sqrtPrice, band, side);
    return Some(Bought(low, PrincipalRaw(low, sqrtPrice, band.lower, band.upper)));
  }

  /** Double until it no longer fits; None if that takes more than 256 bits. */
  method Bracket(budget: int, sqrtPrice: int, band: Band, side: Side) returns (limits: Option<(nat, nat)>)
    requires sqrtPrice > 0 && ValidBand(band) && Fits(0, budget, sqrtPrice, band, side)
    ensures limits.None? ==> Fits(LIMIT / 2, budget, sqrtPrice, band, side)
    ensures limits.Some? ==>
              && limits.value.0 < limits.value.1 <= LIMIT / 2
              && Fits(limits.value.0, budget, sqrtPrice, band, side)
                  && !Fits(limits.value.1, budget, sqrtPrice, band, side)
  {
    hide Fits, Power, ValidBand;
    var high, bits, half := 1, 0, 0;
    PowerZero();
    while Fits(high, budget, sqrtPrice, band, side)
      invariant 0 <= bits < 256 && high == Power(bits) && high > 0
      invariant half == high / 2 && Fits(half, budget, sqrtPrice, band, side)
      decreases 256 - bits
    {
      PowerStep(bits);
      if bits == 255 {
        return None;
      }
      half := high;
      high := high * 2;
      bits := bits + 1;
    }
    PowerBound(bits);
    return Some((high / 2, high));
  }

  /** Halve the gap between a liquidity that fits and one that does not. */
  method GreatestBelow(fitting: nat, unfitting: nat, budget: int, sqrtPrice: int, band: Band, side: Side)
    returns (low: nat)
    requires sqrtPrice > 0 && ValidBand(band) && fitting < unfitting
    requires Fits(fitting, budget, sqrtPrice, band, side) && !Fits(unfitting, budget, sqrtPrice, band, side)
    ensures forall l: nat :: Fits(l, budget, sqrtPrice, band, side) <==> l <= low
  {
    hide ValueOf;
    low := fitting;
    var high := unfitting;
    while low + 1 < high
      invariant 0 <= low < high
      invariant Fits(low, budget, sqrtPrice, band, side) && !Fits(high, budget, sqrtPrice, band, side)
      decreases high - low
    {
      var middle := (low + high) / 2;
      if Fits(middle, budget, sqrtPrice, band, side) {
        low := middle;
      } else {
        high := middle;
      }
    }
    forall l: nat
      ensures Fits(l, budget, sqrtPrice, band, side) <==> l <= low
    {
      if l <= low {
        ValueMonotone(l, low, sqrtPrice, band, side);
      } else {
        ValueMonotone(high, l, sqrtPrice, band, side);
      }
    }
  }

  /**
   An empty budget is answered with no liquidity at all. That is the greatest that fits exactly
   when a single unit is already worth something.
   */
  lemma EmptyBudgetIsGreatestExactly(sqrtPrice: int, band: Band, side: Side)
    requires sqrtPrice > 0 && ValidBand(band)
    ensures (forall l: nat :: Fits(l, 0, sqrtPrice, band, side) ==> l <= 0) <==> !Fits(1, 0, sqrtPrice, band, side)
  {
    hide ValueOf;
    forall l: nat | l > 0 && Fits(l, 0, sqrtPrice, band, side)
      ensures Fits(1, 0, sqrtPrice, band, side)
    {
      ValueMonotone(1, l, sqrtPrice, band, side);
    }
  }

  /**
   An empty budget at tick zero, for any range that starts there: one unit of liquidity is worth
   less than one raw unit of either token, so it would fit.
   */
  lemma EmptyBudgetMissesLiquidity(tick: int, side: Side)
    requires 0 < tick <= MAX_TICK
    ensures SqrtRatio(0) == Q96 && ValidBand(Band(SqrtRatio(0), SqrtRatio(tick)))
    ensures Fits(1, 0, SqrtRatio(0), Band(SqrtRatio(0), SqrtRatio(tick)), side)
  {
    RatioAtZero();
    RatioAboveZero(tick);
    hide SqrtRatio;
    OneUnitIsWorthless(SqrtRatio(tick), side);
  }

  lemma OneUnitIsWorthless(upper: int, side: Side)
    requires upper > Q96
    ensures Fits(1, 0, Q96, Band(Q96, upper), side)
  {
    var x := Q96 * (upper - Q96);
    assert x / upper < Q96 by {
      assert x == x / upper * upper + x % upper;
      if x / upper >= Q96 {
        IntMulLe(Q96, x / upper, upper);
      }
    }
    DivMonotone(0, x, upper);
    DivUnique(0, upper, 0, 0);
    DivUnique(x / upper, Q96, 0, x / upper);
    ZeroOver(Q96 * Q96, 1);
    assert PrincipalRaw(1, Q96, Q96, upper) == ZERO_PAIR;
  }

  function Power(bits: nat): nat {
    if bits == 0 then 1 else 2 * Power(bits - 1)
  }

  lemma PowerZero()
    ensures Power(0) == 1
  {
  }

  lemma PowerStep(bits: nat)
    requires bits <= 255
    ensures Power(bits + 1) == 2 * Power(bits)
    ensures bits == 255 ==> Power(bits) == LIMIT / 2
  {
    if bits == 255 {
      PowerOf255(bits);
    }
  }

  lemma PowerOf8(n: nat)
    requires n == 8
    ensures Power(n) == 0x100
  {
    assert Power(n) == 2 * Power(n - 1) == 4 * Power(n - 2);
    assert Power(n - 2) == 2 * Power(n - 3) == 4 * Power(n - 4);
    assert Power(n - 4) == 2 * Power(n - 5) == 4 * Power(n - 6);
    assert Power(n - 6) == 2 * Power(n - 7) == 4 * Power(n - 8);
  }

  /** Doubling the exponent squares the power. */
  lemma PowerDoubled(n: nat, half: nat, value: nat)
    requires n == 2 * half && Power(half) == value
    ensures Power(n) == value * value
  {
    PowerAdds(half, half);
  }

  lemma PowerOf128(n: nat)
    requires n == 128
    ensures Power(n) == 0x1_0000_0000_0000_0000_0000_0000_0000_0000
  {
    var a: nat :| a == 8;
    PowerOf8(a);
    PowerDoubled(2 * a, a, 0x100);
    PowerDoubled(4 * a, 2 * a, 0x1_0000);
    PowerDoubled(8 * a, 4 * a, 0x1_0000_0000);
    PowerDoubled(16 * a, 8 * a, 0x1_0000_0000_0000_0000);
  }

  lemma PowerOf255(n: nat)
    requires n == 255
    ensures Power(n) == LIMIT / 2
  {
    var b: nat :| b == 128;
    PowerOf128(b);
    PowerAdds(b - 1, b);
    assert Power(b) == 2 * Power(b - 1);
  }

  lemma {:induction false} PowerAdds(a: nat, b: nat)
    ensures Power(a + b) == Power(a) * Power(b)
  {
    if a > 0 {
      PowerAdds(a - 1, b);
      assert 2 * (Power(a - 1) * Power(b)) == 2 * Power(a - 1) * Power(b);
    }
  }

  lemma {:induction false} PowerMonotone(a: nat, b: nat)
    requires a <= b
    ensures 0 < Power(a) <= Power(b)
  {
    if a < b {
      PowerMonotone(a, b - 1);
    } else if a > 0 {
      PowerMonotone(a - 1, b - 1);
    }
  }

  lemma PowerBound(bits: nat)
    requires bits < 256
    ensures Power(bits) <= LIMIT / 2
  {
    var top: nat :| top == 255;
    PowerMonotone(bits, top);
    PowerOf255(top);
  }

  // ---------------------------------------------------------------- bands

  function FloorTo(tick: int, spacing: int): int
    requires spacing > 0
  {
    tick / spacing * spacing
  }

  /** The tick snapped down, and the tick snapped up, within the usable ticks of the spacing. */
  function SnapLower(tick: int, spacing: int): int
    requires spacing > 0
  {
    Max(-FloorTo(MAX_TICK, spacing), FloorTo(tick, spacing))
  }

  function SnapUpper(tick: int, spacing: int): int
    requires spacing > 0
  {
    Min(FloorTo(MAX_TICK, spacing), -FloorTo(-tick, spacing))
  }

  lemma FloorToIs(tick: int, spacing: int)
    requires spacing > 0
    ensures FloorTo(tick, spacing) <= tick < FloorTo(tick, spacing) + spacing
  {
    assert tick == tick / spacing * spacing + tick % spacing;
  }

  /** Snapping never leaves the usable ticks, stays on multiples, and covers a usable range. */
  lemma SnapsCover(lower: int, upper: int, spacing: int)
    requires spacing > 0 && lower <= upper
    ensures exists k :: SnapLower(lower, spacing) == k * spacing
    ensures exists k :: SnapUpper(upper, spacing) == k * spacing
    ensures -MAX_TICK <= SnapLower(lower, spacing) && SnapUpper(upper, spacing) <= MAX_TICK
    ensures -FloorTo(MAX_TICK, spacing) <= lower ==>
        SnapLower(lower, spacing) <= lower < SnapLower(lower, spacing) + spacing
    ensures upper <= FloorTo(MAX_TICK, spacing) ==>
        SnapUpper(upper, spacing) - spacing < upper <= SnapUpper(upper, spacing)
  {
    FloorToIs(MAX_TICK, spacing);
    FloorToIs(lower, spacing);
    FloorToIs(-upper, spacing);
    var m := MAX_TICK / spacing;
    assert -FloorTo(MAX_TICK, spacing) == (-m) * spacing;
    assert -FloorTo(-upper, spacing) == (-((-upper) / spacing)) * spacing;
    assert SnapLower(lower, spacing)
        == (if -FloorTo(MAX_TICK, spacing) < FloorTo(lower, spacing) then lower / spacing else -m) * spacing;
    assert SnapUpper(upper, spacing)
        == (if FloorTo(MAX_TICK, spacing) < -FloorTo(-upper, spacing) then m else -((-upper) / spacing)) * spacing;
  }

  function BandCount(units: int, requested: int): int {
    Max(1, Min(Min(requested, units), MAX_BANDS))
  }

  /** Boundary `i` of `count` bands over `units` spacings. */
  function Boundary(lower: int, units: int, spacing: int, count: int, i: int): int
    requires count > 0
  {
    lower + units * i / count * spacing
  }

  predicate OnGrid(tick: int, lower: int, spacing: int)
    requires spacing > 0
  {
    (tick - lower) % spacing == 0
  }

  /** The first bands of a partition, each starting where the one before it ends. */
  predicate Tiles(bands: seq<(int, int)>, lower: int, end: int, spacing: int)
    requires spacing > 0
  {
    && (if |bands| == 0 then end == lower else bands[0].0 == lower && bands[|bands| - 1].1 == end)
    && (forall i :: 0 <= i < |bands| ==> bands[i].0 < bands[i].1)
    && (forall i :: 0 <= i < |bands| - 1 ==> bands[i].1 == bands[i + 1].0)
    && (forall i :: 0 <= i < |bands| ==> OnGrid(bands[i].0, lower, spacing) && OnGrid(bands[i].1, lower, spacing))
  }

  /** The bands tile the range on multiples of the spacing; none is left out for lack of width. */
  method Partition(lower: int, upper: int, requested: int, spacing: int) returns (bands: seq<(int, int)>)
    requires spacing > 0 && lower < upper && (upper - lower) % spacing == 0
    ensures |bands| == BandCount((upper - lower) / spacing, requested)
    ensures Tiles(bands, lower, upper, spacing)
  {
    var units := (upper - lower) / spacing;
    UnitsPositive(lower, upper, spacing);
    var count := BandCount(units, requested);
    var i := 0;
    bands := [];
    BoundaryFacts(lower, upper, units, spacing, count, 0);
    BoundaryFacts(lower, upper, units, spacing, count, count);
    hide Boundary, OnGrid, BandCount;
    while i < count
      invariant 0 <= i <= count && |bands| == i
      invariant Tiles(bands, lower, Boundary(lower, units, spacing, count, i), spacing)
    {
      var start := Boundary(lower, units, spacing, count, i);
      var next := if i + 1 < count then Boundary(lower, units, spacing, count, i + 1) else upper;
      BoundaryFacts(lower, upper, units, spacing, count, i);
      BoundaryFacts(lower, upper, units, spacing, count, i + 1);
      BoundaryRises(lower, units, spacing, count, i);
      if start < next {
        bands := bands + [(start, next)];
      }
      i := i + 1;
    }
  }

  lemma UnitsPositive(lower: int, upper: int, spacing: int)
    requires spacing > 0 && lower < upper && (upper - lower) % spacing == 0
    ensures (upper - lower) / spacing >= 1 && (upper - lower) / spacing * spacing == upper - lower
  {
    var d := upper - lower;
    var units := d / spacing;
    assert d == units * spacing + d % spacing;
    if units < 1 {
      IntMulLe(units, 0, spacing);
    }
  }

  lemma BoundaryFacts(lower: int, upper: int, units: int, spacing: int, count: int, i: int)
    requires spacing > 0 && 1 <= count <= units && units * spacing == upper - lower && 0 <= i <= count
    ensures OnGrid(Boundary(lower, units, spacing, count, i), lower, spacing)
    ensures i == 0 ==> Boundary(lower, units, spacing, count, i) == lower
    ensures i == count ==> Boundary(lower, units, spacing, count, i) == upper
  {
    var k := units * i / count;
    MultipleMod(k, spacing);
    if i == 0 {
      DivUnique(0, count, 0, 0);
    }
    if i == count {
      DivUnique(units * count, count, units, 0);
    }
  }

  lemma MultipleMod(k: int, d: int)
    requires d > 0
    ensures k * d % d == 0
  {
    var x := k * d;
    DivUnique(x, d, k, 0);
    assert x == x / d * d + x % d;
  }

  lemma BoundaryRises(lower: int, units: int, spacing: int, count: int, i: int)
    requires spacing > 0 && 1 <= count <= units && 0 <= i
    ensures Boundary(lower, units, spacing, count, i) < Boundary(lower, units, spacing, count, i + 1)
  {
    var a := units * i / count;
    DivUnique(units * i + count, count, a + 1, units * i % count) by {
      assert units * i == a * count + units * i % count;
      assert (a + 1) * count == a * count + count;
    }
    assert units * (i + 1) == units * i + units;
    DivMonotone(units * i + count, units * (i + 1), count);
    IntMulLe(a + 1, units * (i + 1) / count, spacing);
    assert (a + 1) * spacing == a * spacing + spacing;
  }

  // ---------------------------------------------------------------- budgets

  datatype Shape = Uniform | Curve | BidAsk

  function Weights(shape: Shape, count: nat): (w: seq<int>)
    ensures |w| == count && forall i :: 0 <= i < count ==> w[i] > 0
  {
    if shape.Uniform? || count == 1 then seq(count, _ => 1)
    else
      var center := count - 1;
      if shape.Curve? then seq(count, i requires 0 <= i < count => count - Abs(2 * i - center))
      else seq(count, i => 1 + Abs(2 * i - center))
  }

  /** Weights mirror each other; a curve rises towards the centre, a bid-ask shape towards the ends. */
  lemma WeightsFollowShape(shape: Shape, count: nat, i: nat)
    requires i < count
    ensures Weights(shape, count)[i] == Weights(shape, count)[count - 1 - i]
    ensures 2 * i + 1 < count ==>
              && (shape.Uniform? ==> Weights(shape, count)[i] == Weights(shape, count)[i + 1])
              && (shape.Curve? && 2 * i + 2 < count ==> Weights(shape, count)[i] + 2 == Weights(shape, count)[i + 1])
              && (shape.BidAsk? && 2 * i + 2 < count ==> Weights(shape, count)[i] == Weights(shape, count)[i + 1] + 2)
  {
  }

  function Sum(w: seq<int>): int {
    if |w| == 0 then 0 else Sum(w[..|w| - 1]) + w[|w| - 1]
  }

  lemma {:induction false} SumPositive(w: seq<int>)
    requires forall i :: 0 <= i < |w| ==> w[i] > 0
    ensures Sum(w) >= |w|
  {
    if |w| > 0 {
      SumPositive(w[..|w| - 1]);
    }
  }

  lemma {:induction false} SumPrefix(w: seq<int>, i: nat)
    requires i < |w|
    ensures Sum(w[..i + 1]) == Sum(w[..i]) + w[i]
  {
    assert w[..i + 1][..i] == w[..i];
  }

  /** The weighted share of the total, to within one raw unit either way. */
  ghost predicate NearShare(row: int, total: int, weight: int, denominator: int) {
    -denominator < row * denominator - total * weight < denominator
  }

  /** Rows that share out a total: they sum to it, and each is near its weighted share. */
  ghost predicate InProportion(rows: seq<int>, total: int, weights: seq<int>) {
    && |rows| == |weights| && Sum(rows) == total
    && forall i :: 0 <= i < |rows| ==> rows[i] >= 0 && NearShare(rows[i], total, weights[i], Sum(weights))
  }

  predicate Positive(weights: seq<int>) {
    |weights| > 0 && forall i :: 0 <= i < |weights| ==> weights[i] > 0
  }

  /** A part of a total, rounded down. */
  function Floored(total: nat, part: int, whole: int): int
    requires whole > 0
  {
    total * part / whole
  }

  /** What the first `i` weights are entitled to, rounded down. */
  function Entitled(total: nat, weights: seq<int>, i: nat): int
    requires Positive(weights) && i <= |weights|
  {
    SumPositive(weights);
    Floored(total, Sum(weights[..i]), Sum(weights))
  }

  /** Budgets by cumulative rounding. */
  function BudgetsOf(total: nat, weights: seq<int>): (rows: seq<int>)
    requires Positive(weights)
    ensures |rows| == |weights|
  {
    seq(|weights|, i requires 0 <= i < |weights| => Entitled(total, weights, i + 1) - Entitled(total, weights, i))
  }

  lemma EntitledEnds(total: nat, weights: seq<int>)
    requires Positive(weights)
    ensures Entitled(total, weights, 0) == 0 && Entitled(total, weights, |weights|) == total
  {
    SumPositive(weights);
    assert weights[..|weights|] == weights;
    DivUnique(0, Sum(weights), 0, 0);
    DivUnique(total * Sum(weights), Sum(weights), total, 0);
  }

  /** None of the budgets is negative or strays from its weighted share. */
  lemma BudgetNearShare(total: nat, weights: seq<int>, i: nat)
    requires Positive(weights) && i < |weights|
    ensures BudgetsOf(total, weights)[i] >= 0
    ensures NearShare(BudgetsOf(total, weights)[i], total, weights[i], Sum(weights))
  {
    hide NearShare, Sum, Entitled, Floored, Positive;
    WeightPositive(weights, i);
    SumPrefix(weights, i);
    var before, whole := Sum(weights[..i]), Sum(weights);
    EntitledIs(total, weights, i, before, whole);
    EntitledIs(total, weights, i + 1, before + weights[i], whole);
    ShareStep(total, before, weights[i], whole);
  }

  lemma WeightPositive(weights: seq<int>, i: nat)
    requires Positive(weights) && i < |weights|
    ensures weights[i] > 0
  {
  }

  lemma EntitledIs(total: nat, weights: seq<int>, i: nat, sum: int, whole: int)
    requires Positive(weights) && i <= |weights| && sum == Sum(weights[..i]) && whole == Sum(weights)
    ensures whole > 0 && Entitled(total, weights, i) == Floored(total, sum, whole)
  {
    SumPositive(weights);
  }

  lemma {:induction false} BudgetsSumUp(total: nat, weights: seq<int>, n: nat)
    requires Positive(weights) && n <= |weights|
    ensures Sum(BudgetsOf(total, weights)[..n]) == Entitled(total, weights, n)
  {
    if n == 0 {
      EntitledEnds(total, weights);
    } else {
      BudgetsSumUp(total, weights, n - 1);
      SumPrefix(BudgetsOf(total, weights), n - 1);
    }
  }

  /** Budgets sum to the total, and each is within one raw unit of its weighted share. */
  lemma BudgetsShareOut(total: nat, weights: seq<int>)
    requires Positive(weights)
    ensures
      var rows := BudgetsOf(total, weights);
      && Sum(rows) == total
      && forall i :: 0 <= i < |rows| ==> rows[i] >= 0 && NearShare(rows[i], total, weights[i], Sum(weights))
  {
    var rows := BudgetsOf(total, weights);
    BudgetsSumUp(total, weights, |weights|);
    assert rows[..|weights|] == rows;
    EntitledEnds(total, weights);
    forall i | 0 <= i < |rows|
      ensures rows[i] >= 0 && NearShare(rows[i], total, weights[i], Sum(weights))
    {
      BudgetNearShare(total, weights, i);
    }
  }

  /** Share out a total; the last budget takes whatever is left. */
  method Budgets(total: nat, weights: seq<int>) returns (rows: seq<int>)
    requires Positive(weights)
    ensures rows == BudgetsOf(total, weights)
    ensures Sum(rows) == total
    ensures forall i :: 0 <= i < |rows| ==> rows[i] >= 0 && NearShare(rows[i], total, weights[i], Sum(weights))
  {
    var denominator := Sum(weights);
    SumPositive(weights);
    EntitledEnds(total, weights);
    rows := [];
    var spent, cumulative := 0, 0;
    var i := 0;
    while i < |weights|
      invariant 0 <= i <= |weights| && |rows| == i
      invariant cumulative == Sum(weights[..i]) && spent == Entitled(total, weights, i)
      invariant rows == BudgetsOf(total, weights)[..i]
    {
      SumPrefix(weights, i);
      cumulative := cumulative + weights[i];
      var target := if i == |weights| - 1 then total else total * cumulative / denominator;
      assert target == Entitled(total, weights, i + 1);
      rows := rows + [target - spent];
      spent := target;
      i := i + 1;
    }
    assert BudgetsOf(total, weights)[..i] == BudgetsOf(total, weights);
    BudgetsShareOut(total, weights);
  }

  lemma ShareStep(total: nat, cumulative: int, weight: int, denominator: int)
    requires denominator > 0 && weight > 0
    ensures
      var row := Floored(total, cumulative + weight, denominator) - Floored(total, cumulative, denominator);
      row >= 0 && NearShare(row, total, weight, denominator)
  {
    var x, y := total * cumulative, total * (cumulative + weight);
    assert y == x + total * weight;
    IntMulLe(0, total, weight);
    DivMonotone(x, y, denominator);
    var p, q := x / denominator, y / denominator;
    assert x == p * denominator + x % denominator && y == q * denominator + y % denominator;
    assert (q - p) * denominator == q * denominator - p * denominator;
  }

  // ---------------------------------------------------------------- the plan

  /** What each band bought, and the totals over the bands. */
  datatype Plan = Plan(bought: seq<Bought>, liquidity: nat, amounts: Pair, legs: Pair)

  const NO_PLAN := Plan([], 0, ZERO_PAIR, ZERO_PAIR)

  function LiquidityOf(bought: seq<Bought>): nat {
    if |bought| == 0 then 0 else LiquidityOf(bought[..|bought| - 1]) + bought[|bought| - 1].liquidity
  }

  function AmountsOf(bought: seq<Bought>): Pair {
    if |bought| == 0 then ZERO_PAIR else AmountsOf(bought[..|bought| - 1]).Plus(bought[|bought| - 1].amounts)
  }

  /** The stable value of both legs, summed over what was bought. */
  function LegsOf(bought: seq<Bought>, sqrtPrice: int, side: Side): Pair
    requires sqrtPrice > 0
  {
    if |bought| == 0 then ZERO_PAIR
    else
      LegsOf(bought[..|bought| - 1], sqrtPrice, side)
      .Plus(StableLegs(bought[|bought| - 1].amounts, sqrtPrice, side))
  }

  predicate ValidBands(bands: seq<Band>) {
    |bands| > 0 && forall i :: 0 <= i < |bands| ==> ValidBand(bands[i])
  }

  /** The budgets of the bands: the capital shared out by the weights of the shape. */
  function BandBudgets(capital: nat, shape: Shape, count: nat): seq<int>
    requires count > 0
  {
    BudgetsOf(capital, Weights(shape, count))
  }

  /** The first `n` bands each bought the most their budget allows, and the totals are their sums. */
  ghost predicate PlanOk(plan: Plan, budgets: seq<int>, sqrtPrice: int, bands: seq<Band>, side: Side, n: nat)
    requires sqrtPrice > 0 && n <= |bands| == |budgets| && ValidBands(bands)
  {
    && |plan.bought| == n
    && (forall i | 0 <= i < n :: IsBest(plan.bought[i], budgets[i], sqrtPrice, bands[i], side))
    && plan.liquidity == LiquidityOf(plan.bought)
    && plan.amounts == AmountsOf(plan.bought)
    && plan.legs == LegsOf(plan.bought, sqrtPrice, side)
  }

  /**
   Spend a capital over the bands. Each band gets the most liquidity its budget allows, and the
   plan fails exactly when the search of some band does.
   */
  method BandPlan(capital: nat, shape: Shape, sqrtPrice: int, bands: seq<Band>, side: Side) returns (plan: Option<Plan>)
    requires sqrtPrice > 0 && ValidBands(bands)
    ensures plan.None? <==>
              exists i :: 0 <= i < |bands|
                          && Unbounded(BandBudgets(capital, shape, |bands|)[i], sqrtPrice, bands[i], side)
    ensures plan.Some? ==>
              PlanOk(plan.value, BandBudgets(capital, shape, |bands|), sqrtPrice, bands, side, |bands|)
    ensures plan.Some? ==> 0 <= plan.value.legs.a0 + plan.value.legs.a1 <= capital
    ensures InProportion(BandBudgets(capital, shape, |bands|), capital, Weights(shape, |bands|))
  {
    hide IsBest, Weights, Fits, StableLegs, PlanOk, NearShare, BudgetsOf, BandBudgets, Unbounded, ValidBand, Spent, Sum,
      InProportion;
    var budgets := ShareCapital(capital, shape, |bands|);
    var built := NO_PLAN;
    var i := 0;
    NothingPlanned(budgets, sqrtPrice, bands, side);
    while i < |bands|
      invariant 0 <= i <= |bands|
      invariant PlanOk(built, budgets, sqrtPrice, bands, side, i)
      invariant forall j :: 0 <= j < i ==> !Unbounded(budgets[j], sqrtPrice, bands[j], side)
    {
      var bought := LiquidityForBudget(budgets[i], sqrtPrice, bands[i], side);
      if bought.None? {
        return None;
      }
      PlanFurther(built, budgets, sqrtPrice, bands, side, i, bought.value);
      built := Spent(built, sqrtPrice, side, bought.value);
      i := i + 1;
    }
    plan := Some(built);
    PlanSpends(built, budgets, sqrtPrice, bands, side, |bands|);
    assert budgets[..|bands|] == budgets;
  }

  method ShareCapital(capital: nat, shape: Shape, count: nat) returns (budgets: seq<int>)
    requires count > 0
    ensures budgets == BandBudgets(capital, shape, count) && |budgets| == count && Sum(budgets) == capital
    ensures forall i :: 0 <= i < count ==> budgets[i] >= 0
    ensures InProportion(budgets, capital, Weights(shape, count))
  {
    budgets := Budgets(capital, Weights(shape, count));
  }

  /** The plan once one more band has bought. */
  function Spent(plan: Plan, sqrtPrice: int, side: Side, b: Bought): Plan
    requires sqrtPrice > 0
  {
    Plan(plan.bought + [b], plan.liquidity + b.liquidity, plan.amounts.Plus(b.amounts),
         plan.legs.Plus(StableLegs(b.amounts, sqrtPrice, side)))
  }

  lemma NothingPlanned(budgets: seq<int>, sqrtPrice: int, bands: seq<Band>, side: Side)
    requires sqrtPrice > 0 && |bands| == |budgets| && ValidBands(bands)
    ensures PlanOk(NO_PLAN, budgets, sqrtPrice, bands, side, 0)
  {
  }

  lemma PlanFurther(plan: Plan, budgets: seq<int>, sqrtPrice: int, bands: seq<Band>, side: Side, n: nat, b: Bought)
    requires sqrtPrice > 0 && n < |bands| == |budgets| && ValidBands(bands)
    requires PlanOk(plan, budgets, sqrtPrice, bands, side, n) && IsBest(b, budgets[n], sqrtPrice, bands[n], side)
    ensures PlanOk(Spent(plan, sqrtPrice, side, b), budgets, sqrtPrice, bands, side, n + 1)
  {
    hide IsBest, StableLegs;
    assert (plan.bought + [b])[..n] == plan.bought;
  }

  /** Whatever buys the most for its budget costs no more than the budgets together. */
  lemma {:induction false} LegsWithin(bought: seq<Bought>, budgets: seq<int>, sqrtPrice: int, bands: seq<Band>,
                                      side: Side)
    requires sqrtPrice > 0 && |bought| <= |bands| == |budgets| && ValidBands(bands)
    requires forall i :: 0 <= i < |budgets| ==> budgets[i] >= 0
    requires forall i | 0 <= i < |bought| :: IsBest(bought[i], budgets[i], sqrtPrice, bands[i], side)
    ensures
      var legs := LegsOf(bought, sqrtPrice, side);
      0 <= legs.a0 + legs.a1 <= Sum(budgets[..|bought|])
  {
    if |bought| > 0 {
      var n := |bought| - 1;
      LegsWithin(bought[..n], budgets, sqrtPrice, bands, side);
      SumPrefix(budgets, n);
      SpendsAtMost(budgets[n], sqrtPrice, bands[n], side, bought[n]);
      hide IsBest, StableLegs;
    }
  }

  /** A whole plan never costs more than the budgets of its bands together. */
  lemma PlanSpends(plan: Plan, budgets: seq<int>, sqrtPrice: int, bands: seq<Band>, side: Side, n: nat)
    requires sqrtPrice > 0 && n <= |bands| == |budgets| && ValidBands(bands)
    requires forall i :: 0 <= i < |budgets| ==> budgets[i] >= 0
    requires PlanOk(plan, budgets, sqrtPrice, bands, side, n)
    ensures 0 <= plan.legs.a0 + plan.legs.a1 <= Sum(budgets[..n])
  {
    hide IsBest, StableLegs;
    LegsWithin(plan.bought, budgets, sqrtPrice, bands, side);
  }

  lemma SpendsAtMost(budget: int, sqrtPrice: int, band: Band, side: Side, bought: Bought)
    requires sqrtPrice > 0 && ValidBand(band) && budget >= 0
    requires IsBest(bought, budget, sqrtPrice, band, side)
    ensures 0 <= StableValue(bought.amounts, sqrtPrice, side) <= budget
  {
    if budget > 0 {
      assert Fits(bought.liquidity, budget, sqrtPrice, band, side);
      ValueMonotone(bought.liquidity, bought.liquidity, sqrtPrice, band, side);
    } else {
      ZeroOver(sqrtPrice * sqrtPrice, 1) by {
        IntMulLe(1, sqrtPrice, sqrtPrice);
      }
    }
  }
}
