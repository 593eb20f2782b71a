/** Square root ratios at ticks, and the search for the tick of a ratio. */
module TickMath {
  import opened Common
  import opened LiquidityMath

  const MIN_TICK: int := -887272
  const MAX_TICK: int := 887272
  const MIN_SQRT_RATIO: int := 4295128739
  const MAX_SQRT_RATIO: int := 1461446703485210103287273052203988822378723970342
  const TWO_32: nat := 0x1_0000_0000
  const TWO_128: nat := 0x1_0000_0000_0000_0000_0000_0000_0000_0000
  const MAX_UINT256: nat := 0xffff_ffff_ffff_ffff_ffff_ffff_ffff_ffff_ffff_ffff_ffff_ffff_ffff_ffff_ffff_ffff

  /** The factor that bit `i` of the distance from tick zero contributes, scaled by 2^128. */
  function Multiplier(i: nat): nat
    requires i < 20
  {
    if i == 0 then 0xfffcb933bd6fad37aa2d162d1a594001
    else if i == 1 then 0xfff97272373d413259a46990580e213a
    else if i == 2 then 0xfff2e50f5f656932ef12357cf3c7fdcc
    else if i == 3 then 0xffe5caca7e10e4e61c3624eaa0941cd0
    else if i == 4 then 0xffcb9843d60f6159c9db58835c926644
    else if i == 5 then 0xff973b41fa98c081472e6896dfb254c0
    else if i == 6 then 0xff2ea16466c96a3843ec78b326b52861
    else if i == 7 then 0xfe5dee046a99a2a811c461f1969c3053
    else if i == 8 then 0xfcbe86c7900a88aedcffc83b479aa3a4
    else if i == 9 then 0xf987a7253ac413176f2b074cf7815e54
    else if i == 10 then 0xf3392b0822b70005940c7a398e4b70f3
    else if i == 11 then 0xe7159475a2c29b7443b29c7fa6e889d9
    else if i == 12 then 0xd097f3bdfd2022b8845ad8f792aa5825
    else if i == 13 then 0xa9f746462d870fdf8a65dc1f90e061e5
    else if i == 14 then 0x70d869a156d2a1b890bb3df62baf32f7
    else if i == 15 then 0x31be135f97d08fd981231505542fcfa6
    else if i == 16 then 0x9aa508b5b7a84e1c677de54f3e99bc9
    else if i == 17 then 0x5d6af8dedb81196699c329225ee604
    else if i == 18 then 0x2216e584f5fa1ea926041bedfe98
    else 0x48a170391f7dc42444e8fa2
  }

  function Scaled(ratio: nat, i: nat): nat
    requires i < 20
  {
    ratio * Multiplier(i) / TWO_128
  }

  /** The product of the factors of the bits of `distance`, from bit `i` on. */
  function RatioFrom(ratio: nat, distance: nat, i: nat): nat
    requires i <= 20
    decreases 20 - i
  {
    if i == 20 then ratio
    else RatioFrom(if distance % 2 == 1 then Scaled(ratio, i) else ratio, distance / 2, i + 1)
  }

  /** A lower bound on the running product before bit `i`, as a power of two. */
  function Least(i: nat): nat
    requires i <= 20
  {
    if i == 0 then 0x100000000000000000000000000000000
    else if i == 1 then 0x80000000000000000000000000000000
    else if i == 2 then 0x40000000000000000000000000000000
    else if i == 3 then 0x20000000000000000000000000000000
    else if i == 4 then 0x10000000000000000000000000000000
    else if i == 5 then 0x8000000000000000000000000000000
    else if i == 6 then 0x4000000000000000000000000000000
    else if i == 7 then 0x2000000000000000000000000000000
    else if i == 8 then 0x1000000000000000000000000000000
    else if i == 9 then 0x800000000000000000000000000000
    else if i == 10 then 0x400000000000000000000000000000
    else if i == 11 then 0x200000000000000000000000000000
    else if i == 12 then 0x100000000000000000000000000000
    else if i == 13 then 0x80000000000000000000000000000
    else if i == 14 then 0x40000000000000000000000000000
    else if i == 15 then 0x10000000000000000000000000000
    else if i == 16 then 0x2000000000000000000000000000
    else if i == 17 then 0x100000000000000000000000000
    else if i == 18 then 0x400000000000000000000000
    else if i == 19 then 0x8000000000000000000
    else 0x2000000000
  }

  /** Rounding `ratio` to 96 bits, upward. */
  function RoundedUp(ratio: nat): nat {
    ratio / TWO_32 + if ratio % TWO_32 == 0 then 0 else 1
  }

  function Inverted(ratio: nat, tick: int): nat
    requires ratio > 0
  {
    if tick > 0 then MAX_UINT256 / ratio else ratio
  }

  lemma ScaledBounds(ratio: nat, i: nat)
    requires i < 20 && Least(i) <= ratio <= TWO_128
    ensures Least(i + 1) <= Scaled(ratio, i) <= ratio
  {
    var m := Multiplier(i);
    var least := Least(i);
    LeastStep(i);
    MultiplierBound(i);
    Products(ratio, least, m);
    hide Multiplier, Least;
    DivMonotone(least * m, ratio * m, TWO_128);
    DivMonotone(ratio * m, ratio * TWO_128, TWO_128);
    DivUnique(ratio * TWO_128, TWO_128, ratio, 0);
  }

  lemma MultiplierBound(i: nat)
    requires i < 20
    ensures 0 < Multiplier(i) < TWO_128
  {
  }

  lemma LeastStep(i: nat)
    requires i < 20
    ensures Least(i + 1) <= Least(i) * Multiplier(i) / TWO_128 && Least(i + 1) <= Least(i)
  {
  }

  lemma Products(ratio: nat, least: nat, m: nat)
    requires least <= ratio && m <= TWO_128
    ensures least * m <= ratio * m <= ratio * TWO_128
  {
  }

  /** However the bits fall, the product stays above a power of two and never exceeds 2^128. */
  lemma {:induction false} RatioBounds(ratio: nat, distance: nat, i: nat)
    requires i <= 20 && Least(i) <= ratio <= TWO_128
    ensures Least(20) <= RatioFrom(ratio, distance, i) <= TWO_128
    decreases 20 - i
  {
    if i < 20 {
      ScaledBounds(ratio, i);
      LeastStep(i);
      hide Least, Scaled;
      RatioBounds(if distance % 2 == 1 then Scaled(ratio, i) else ratio, distance / 2, i + 1);
    }
  }

  lemma RatioPositive(distance: nat)
    ensures 0 < RatioFrom(TWO_128, distance, 0) <= TWO_128
  {
    assert Least(0) == TWO_128 && Least(20) > 0;
    RatioBounds(TWO_128, distance, 0);
  }

  /** The exact ratio at a tick, rounded upward. */
  function SqrtRatio(tick: int): nat {
    RatioPositive(Abs(tick));
    RoundedUp(Inverted(RatioFrom(TWO_128, Abs(tick), 0), tick))
  }

  /** Every tick has a positive ratio, and tick zero the ratio one, scaled by 2^96. */
  lemma SqrtRatioPositive(tick: int)
    ensures SqrtRatio(tick) > 0
  {
    var ratio := RatioFrom(TWO_128, Abs(tick), 0);
    RatioPositive(Abs(tick));
    hide RatioFrom;
    if tick > 0 {
      QuotientAtLeast(MAX_UINT256, ratio);
    }
  }

  /** Tick zero has the ratio one. */
  lemma RatioAtZero()
    ensures SqrtRatio(0) == Q96
  {
    RatioOfZero(TWO_128, 0);
    assert RoundedUp(TWO_128) == Q96;
  }

  lemma {:induction false} RatioOfZero(ratio: nat, i: nat)
    requires i <= 20
    ensures RatioFrom(ratio, 0, i) == ratio
    decreases 20 - i
  {
    if i < 20 {
      RatioOfZero(ratio, i + 1);
    }
  }

  function TwoTo(n: nat): nat {
    if n == 0 then 1 else 2 * TwoTo(n - 1)
  }

  /** Any set bit makes the product smaller than it started. */
  lemma {:induction false} RatioFalls(ratio: nat, distance: nat, i: nat)
    requires i <= 20 && 0 < distance < TwoTo(20 - i) && Least(i) <= ratio <= TWO_128
    ensures RatioFrom(ratio, distance, i) < TWO_128
    decreases 20 - i
  {
    assert i < 20;
    ScaledBounds(ratio, i);
    LeastStep(i);
    if distance % 2 == 1 {
      ScaledFalls(ratio, i);
      RatioAtMost(Scaled(ratio, i), distance / 2, i + 1);
    } else {
      hide Least, Scaled;
      RatioFalls(ratio, distance / 2, i + 1);
    }
  }

  lemma ScaledFalls(ratio: nat, i: nat)
    requires i < 20 && 0 < ratio <= TWO_128
    ensures Scaled(ratio, i) < TWO_128
  {
    var m := Multiplier(i);
    MultiplierBound(i);
    hide Multiplier;
    IntMulLe(ratio, TWO_128, m);
    DivMonotone(ratio * m, m * TWO_128, TWO_128);
    DivUnique(m * TWO_128, TWO_128, m, 0);
  }

  lemma {:induction false} RatioAtMost(ratio: nat, distance: nat, i: nat)
    requires i <= 20 && Least(i) <= ratio <= TWO_128
    ensures RatioFrom(ratio, distance, i) <= ratio
    decreases 20 - i
  {
    if i < 20 {
      ScaledBounds(ratio, i);
      LeastStep(i);
      hide Least, Scaled;
      RatioAtMost(if distance % 2 == 1 then Scaled(ratio, i) else ratio, distance / 2, i + 1);
    }
  }

  /** Every tick above zero has a ratio above one. */
  lemma RatioAboveZero(tick: int)
    requires 0 < tick <= MAX_TICK
    ensures SqrtRatio(tick) > Q96
  {
    RatioPositive(tick);
    assert Least(0) == TWO_128 && tick < 0x10_0000;
    TwoTo20();
    RatioFalls(TWO_128, tick, 0);
    var ratio := RatioFrom(TWO_128, tick, 0);
    hide RatioFrom, Least;
    InverseAbove(ratio);
  }

  lemma TwoTo20()
    ensures TwoTo(20) == 0x10_0000
  {
    assert TwoTo(10) == 0x400;
  }

  lemma InverseAbove(ratio: nat)
    requires 0 < ratio < TWO_128
    ensures RoundedUp(MAX_UINT256 / ratio) > Q96
  {
    assert MAX_UINT256 == (TWO_128 + 1) * (TWO_128 - 1);
    IntMulLe(ratio, TWO_128 - 1, TWO_128 + 1);
    DivMonotone((TWO_128 + 1) * ratio, MAX_UINT256, ratio);
    DivUnique((TWO_128 + 1) * ratio, ratio, TWO_128 + 1, 0);
    var x := MAX_UINT256 / ratio;
    assert x / TWO_32 >= Q96;
    assert x / TWO_32 == Q96 ==> x % TWO_32 != 0;
  }

  lemma QuotientAtLeast(x: nat, d: nat)
    requires 0 < d <= x
    ensures x / d >= 1
  {
    DivMonotone(d, x, d);
    DivUnique(d, d, 1, 0);
  }

  /** Multiply in the factor of every set bit, lowest first; None outside the domain. */
  method SqrtRatioAtTick(tick: int) returns (r: Option<nat>)
    ensures r == if MIN_TICK <= tick <= MAX_TICK then Some(SqrtRatio(tick)) else None
  {
    var distance := Abs(tick);
    if distance > MAX_TICK {
      return None;
    }
    RatioPositive(distance);
    hide RatioFrom, Scaled, Multiplier;
    var ratio, rest, bit := TWO_128, distance, 0;
    while bit < 20
      invariant 0 <= bit <= 20 && rest >= 0 && ratio >= 0
      invariant RatioFrom(ratio, rest, bit) == RatioFrom(TWO_128, distance, 0)
    {
      RatioStep(ratio, rest, bit);
      if rest % 2 == 1 {
        ratio := ratio * Multiplier(bit) / TWO_128;
      }
      rest, bit := rest / 2, bit + 1;
    }
    RatioEnd(ratio, rest);
    if tick > 0 {
      ratio := MAX_UINT256 / ratio;
    }
    return Some(RoundedUp(ratio));
  }

  lemma RatioStep(ratio: nat, rest: nat, bit: nat)
    requires bit < 20
    ensures RatioFrom(ratio, rest, bit)
         == RatioFrom(if rest % 2 == 1 then ratio * Multiplier(bit) / TWO_128 else ratio, rest / 2, bit + 1)
  {
    hide Multiplier;
  }

  lemma RatioEnd(ratio: nat, rest: nat)
    ensures RatioFrom(ratio, rest, 20) == ratio
  {
  }

  /** Ratios rise with the tick: taken as a hypothesis, since it is a fact about the constants. */
  ghost predicate RatiosRise() {
    forall a, b | MIN_TICK <= a < b <= MAX_TICK :: SqrtRatio(a) < SqrtRatio(b)
  }

  /** `tick` is where the ratios pass the price. */
  ghost predicate Passes(price: int, tick: int) {
    && MIN_TICK - 1 <= tick <= MAX_TICK
    && (tick >= MIN_TICK ==> SqrtRatio(tick) <= price)
    && (tick < MAX_TICK ==> price < SqrtRatio(tick + 1))
  }

  /** The tick whose ratio is not above the price while the next one's is; None out of range. */
  method TickAtSqrtPrice(price: int) returns (tick: Option<int>)
    ensures tick.Some? <==> MIN_SQRT_RATIO < price < MAX_SQRT_RATIO
    ensures tick.Some? ==> Passes(price, tick.value)
  {
    if !(MIN_SQRT_RATIO < price < MAX_SQRT_RATIO) {
      return None;
    }
    hide Passes;
    var found := Bisect(price, MIN_TICK, MAX_TICK);
    return Some(found);
  }

  method Bisect(price: int, first: int, last: int) returns (high: int)
    requires first == MIN_TICK && last == MAX_TICK
    ensures Passes(price, high)
  {
    hide SqrtRatio;
    var low := first;
    high := last;
    while low <= high
      invariant first <= low <= high + 1 <= last + 1
      invariant low > first ==> SqrtRatio(low - 1) <= price
      invariant high < last ==> price < SqrtRatio(high + 1)
      decreases high - low
    {
      var middle := (low + high) / 2;
      if SqrtRatio(middle) <= price {
        low := middle + 1;
      } else {
        high := middle - 1;
      }
    }
  }

  /** With rising ratios the local condition is a global one. */
  lemma TickIsGreatest(price: int, tick: int, other: int)
    requires RatiosRise()
    requires Passes(price, tick) && MIN_TICK <= other <= MAX_TICK
    ensures SqrtRatio(other) <= price <==> other <= tick
  {
    hide SqrtRatio;
  }
}
