/**
 Principal of a concentrated liquidity range: nested floor divisions as the floor of one exact
 quantity, which is monotone and additive over adjacent ranges.
 */
module LiquidityMath {
  import opened Common

  const Q96: int := 0x1_0000_0000_0000_0000_0000_0000

  function CeilDiv(numerator: int, denominator: int): int
    requires denominator > 0
  {
    (numerator + denominator - 1) / denominator
  }

  function Amount0Delta(a: int, b: int, liquidity: int, roundUp: bool): int
    requires a > 0 && b > 0
  {
    var lo, hi := Min(a, b), Max(a, b);
    if roundUp then CeilDiv(CeilDiv(liquidity * Q96 * (hi - lo), hi), lo)
    else liquidity * Q96 * (hi - lo) / hi / lo
  }

  function Amount1Delta(a: int, b: int, liquidity: int, roundUp: bool): int {
    var lo, hi := Min(a, b), Max(a, b);
    if roundUp then CeilDiv(liquidity * (hi - lo), Q96) else liquidity * (hi - lo) / Q96
  }

  /** Floor-rounded amounts of both tokens; `lower` and `upper` are the square roots at the ticks. */
  function PrincipalRaw(liquidity: nat, sqrt: int, lower: int, upper: int): Pair
    requires 0 < lower < upper
  {
    if sqrt <= lower then Pair(liquidity * Q96 * (upper - lower) / upper / lower, 0)
    else if sqrt >= upper then Pair(0, liquidity * (upper - lower) / Q96)
    else Pair(liquidity * Q96 * (upper - sqrt) / upper / sqrt, liquidity * (sqrt - lower) / Q96)
  }

  // ---------------------------------------------------------------- exact values

  /** The share of token 0 above a price: liquidity over its square root. */
  function Above(liquidity: nat, sqrt: int): real
    requires sqrt > 0
  {
    (liquidity * Q96) as real / sqrt as real
  }

  function Below(liquidity: nat, sqrt: int): real {
    (liquidity * sqrt) as real / Q96 as real
  }

  function Clamp(sqrt: int, lower: int, upper: int): int {
    if sqrt <= lower then lower else if sqrt >= upper then upper else sqrt
  }

  function Exact0(liquidity: nat, sqrt: int, lower: int, upper: int): real
    requires 0 < lower < upper
  {
    Above(liquidity, Clamp(sqrt, lower, upper)) - Above(liquidity, upper)
  }

  function Exact1(liquidity: nat, sqrt: int, lower: int, upper: int): real {
    Below(liquidity, Clamp(sqrt, lower, upper)) - Below(liquidity, lower)
  }

  lemma MulLe(a: real, b: real, c: real)
    requires a <= b && c >= 0.0
    ensures a * c <= b * c
  {
  }

  lemma MulLt(a: real, b: real, c: real)
    requires a < b && c > 0.0
    ensures a * c < b * c
  {
  }

  lemma QuotientUnique(x: real, d: real, q: real)
    requires d > 0.0 && q * d == x
    ensures x / d == q
  {
  }

  lemma TimesQuotient(x: real, d: real)
    requires d != 0.0
    ensures x / d * d == x
  {
  }

  /** Integer division is the floor of real division. */
  lemma DivIsFloor(x: int, d: int)
    requires d > 0
    ensures x / d == (x as real / d as real).Floor
  {
    var q, r := x / d, x as real / d as real;
    assert q * d <= x < (q + 1) * d by {
      assert x == q * d + x % d;
    }
    TimesQuotient(x as real, d as real);
    assert (q * d) as real == q as real * d as real;
    assert ((q + 1) * d) as real == (q + 1) as real * d as real;
    if r < q as real {
      MulLt(r, q as real, d as real);
      assert false;
    }
    if r >= (q + 1) as real {
      MulLe((q + 1) as real, r, d as real);
      assert false;
    }
  }

  /** Two floor divisions are one. */
  lemma DivDiv(x: int, b: int, a: int)
    requires a > 0 && b > 0
    ensures a * b > 0 && x / b / a == x / (b * a)
  {
    var q := x / b;
    var p := q / a;
    assert x == q * b + x % b && q == p * a + q % a;
    var r := (q % a) * b + x % b;
    assert x == p * (b * a) + r by {
      assert (p * a + q % a) * b == p * (b * a) + (q % a) * b;
    }
    assert 0 <= r < b * a by {
      assert (q % a) * b <= (a - 1) * b by {
        IntMulLe(q % a, a - 1, b);
      }
      assert (a - 1) * b == b * a - b;
      IntMulLe(0, q % a, b);
    }
    DivUnique(x, b * a, p, r);
  }

  lemma IntMulLe(a: int, b: int, c: int)
    requires a <= b && c >= 0
    ensures a * c <= b * c
  {
  }

  lemma DivUnique(x: int, d: int, q: int, r: int)
    requires d > 0 && x == q * d + r && 0 <= r < d
    ensures x / d == q
  {
    var q', r' := x / d, x % d;
    assert x == q' * d + r';
    assert (q + 1) * d == q * d + d && (q' + 1) * d == q' * d + d;
    if q' > q {
      IntMulLe(q + 1, q', d);
    } else if q' < q {
      IntMulLe(q' + 1, q, d);
    }
  }

  lemma DivMonotone(x: int, y: int, d: int)
    requires x <= y && d > 0
    ensures x / d <= y / d
  {
    var p, q := x / d, y / d;
    assert x == p * d + x % d && y == q * d + y % d && (q + 1) * d == q * d + d;
    if q < p {
      IntMulLe(q + 1, p, d);
    }
  }

  /** N(b - c)/(bc) is N/c - N/b. */
  lemma SplitQuotient(n: real, b: real, c: real)
    requires b > 0.0 && c > 0.0
    ensures b * c > 0.0 && n * (b - c) / (b * c) == n / c - n / b
  {
    var p, q := n / c, n / b;
    TimesQuotient(n, c);
    TimesQuotient(n, b);
    MulLt(0.0, b, c);
    assert (p - q) * (b * c) == (p * c) * b - (q * b) * c;
    assert (p - q) * (b * c) == n * b - n * c == n * (b - c);
    QuotientUnique(n * (b - c), b * c, p - q);
  }

  lemma RealQuotient(n: int, b: int, c: int)
    requires b > 0 && c > 0 && b * c > 0
    ensures (n * (b - c)) as real / (b * c) as real == n as real / c as real - n as real / b as real
  {
    RealProduct(n, b - c);
    RealProduct(b, c);
    SplitQuotient(n as real, b as real, c as real);
  }

  lemma NestedFloor(n: int, b: int, c: int)
    requires b > 0 && c > 0
    ensures n * (b - c) / b / c == (n as real / c as real - n as real / b as real).Floor
  {
    DivDiv(n * (b - c), b, c);
    RealQuotient(n, b, c);
    DivIsFloor(n * (b - c), b * c);
  }

  lemma Amount0IsFloor(liquidity: nat, c: int, upper: int)
    requires 0 < c <= upper
    ensures liquidity * Q96 * (upper - c) / upper / c == (Above(liquidity, c) - Above(liquidity, upper)).Floor
  {
    NestedFloor(liquidity * Q96, upper, c);
  }

  lemma RealProduct(x: int, y: int)
    ensures (x * y) as real == x as real * y as real
  {
  }

  lemma Amount1IsFloor(liquidity: nat, c: int, lower: int)
    ensures liquidity * (c - lower) / Q96 == (Below(liquidity, c) - Below(liquidity, lower)).Floor
  {
    DivIsFloor(liquidity * (c - lower), Q96);
    assert (liquidity * (c - lower)) as real == (liquidity * c) as real - (liquidity * lower) as real;
  }

  /** In every branch, principal is the floor of the exact amounts. */
  lemma PrincipalIsFloor(liquidity: nat, sqrt: int, lower: int, upper: int)
    requires 0 < lower < upper
    ensures PrincipalRaw(liquidity, sqrt, lower, upper)
         == Pair(Exact0(liquidity, sqrt, lower, upper).Floor, Exact1(liquidity, sqrt, lower, upper).Floor)
  {
    var c := Clamp(sqrt, lower, upper);
    Amount0IsFloor(liquidity, c, upper);
    Amount1IsFloor(liquidity, c, lower);
    hide Above, Below;
  }

  // ---------------------------------------------------------------- monotonicity

  lemma DivLe(x: real, y: real, d: real)
    requires x <= y && d > 0.0
    ensures x / d <= y / d
  {
  }

  lemma InverseAntitone(a: real, b: real)
    requires 0.0 < a <= b
    ensures 1.0 / b <= 1.0 / a
  {
    var p := 1.0 / a;
    TimesQuotient(1.0, a);
    DivLe(0.0, 1.0, a);
    MulLe(a, b, p);
    DivLe(1.0, p * b, b);
    QuotientUnique(p * b, b, p);
  }

  lemma AboveMonotone(l: nat, l': nat, a: int, b: int)
    requires l <= l' && 0 < a <= b
    ensures Above(l, b) <= Above(l, a)
    ensures Above(l, a) - Above(l, b) <= Above(l', a) - Above(l', b)
  {
    var n, m := (l * Q96) as real, (l' * Q96) as real;
    var ra, rb := a as real, b as real;
    var inv := 1.0 / ra - 1.0 / rb;
    InverseAntitone(ra, rb);
    Scale(n, ra);
    Scale(n, rb);
    Scale(m, ra);
    Scale(m, rb);
    assert n / ra - n / rb == n * inv && m / ra - m / rb == m * inv;
    assert l * Q96 <= l' * Q96;
    MulLe(n, m, inv);
    MulLe(0.0, n, inv);
  }

  lemma Scale(n: real, d: real)
    requires d > 0.0
    ensures n / d == n * (1.0 / d)
  {
    TimesQuotient(1.0, d);
    assert n * (1.0 / d) * d == n * (1.0 / d * d) == n;
    QuotientUnique(n, d, n * (1.0 / d));
  }

  lemma BelowMonotone(l: nat, l': nat, a: int, b: int)
    requires l <= l' && a <= b
    ensures Below(l, a) <= Below(l, b)
    ensures Below(l, b) - Below(l, a) <= Below(l', b) - Below(l', a)
  {
    var s, s' := l * b - l * a, l' * b - l' * a;
    IntMulLe(0, l, b - a);
    IntMulLe(l, l', b - a);
    assert l * (b - a) == s && l' * (b - a) == s';
    assert Below(l, b) - Below(l, a) == s as real / Q96 as real;
    assert Below(l', b) - Below(l', a) == s' as real / Q96 as real;
  }

  lemma FloorMonotone(x: real, y: real)
    requires x <= y
    ensures x.Floor <= y.Floor
  {
  }

  /** Both amounts are nonnegative and nondecreasing in liquidity. */
  lemma PrincipalGrowsWithLiquidity(l: nat, l': nat, sqrt: int, lower: int, upper: int)
    requires l <= l' && 0 < lower < upper
    ensures
      var p, p' := PrincipalRaw(l, sqrt, lower, upper), PrincipalRaw(l', sqrt, lower, upper);
      0 <= p.a0 <= p'.a0 && 0 <= p.a1 <= p'.a1
  {
    var c := Clamp(sqrt, lower, upper);
    PrincipalIsFloor(l, sqrt, lower, upper);
    PrincipalIsFloor(l', sqrt, lower, upper);
    AboveMonotone(l, l', c, upper);
    BelowMonotone(l, l', lower, c);
    hide Above, Below, PrincipalRaw;
    FloorMonotone(Exact0(l, sqrt, lower, upper), Exact0(l', sqrt, lower, upper));
    FloorMonotone(Exact1(l, sqrt, lower, upper), Exact1(l', sqrt, lower, upper));
  }

  /** As the price rises, token 0 only falls and token 1 only grows. */
  lemma PrincipalFollowsPrice(l: nat, s: int, s': int, lower: int, upper: int)
    requires s <= s' && 0 < lower < upper
    ensures
      var p, p' := PrincipalRaw(l, s, lower, upper), PrincipalRaw(l, s', lower, upper);
      p'.a0 <= p.a0 && p.a1 <= p'.a1
  {
    var c, c' := Clamp(s, lower, upper), Clamp(s', lower, upper);
    PrincipalIsFloor(l, s, lower, upper);
    PrincipalIsFloor(l, s', lower, upper);
    AboveMonotone(l, l, c, c');
    BelowMonotone(l, l, c, c');
    hide Above, Below, PrincipalRaw;
    FloorMonotone(Exact0(l, s', lower, upper), Exact0(l, s, lower, upper));
    FloorMonotone(Exact1(l, s, lower, upper), Exact1(l, s', lower, upper));
  }

  // ---------------------------------------------------------------- adjacent bands

  /** Rising boundaries of adjacent bands. */
  predicate Bands(bounds: seq<int>) {
    |bounds| >= 2 && bounds[0] > 0 && forall i :: 0 <= i < |bounds| - 1 ==> bounds[i] < bounds[i + 1]
  }

  lemma {:induction false} BandsRise(bounds: seq<int>)
    requires Bands(bounds)
    ensures 0 < bounds[0] < bounds[|bounds| - 1]
  {
    if |bounds| > 2 {
      BandsRise(bounds[..|bounds| - 1]);
    }
  }

  /** The amounts of one liquidity placed in every band. */
  function BandAmounts(l: nat, sqrt: int, bounds: seq<int>): Pair
    requires Bands(bounds)
    decreases |bounds|
  {
    var n := |bounds|;
    LaterPositive(bounds, n - 2);
    var last := PrincipalRaw(l, sqrt, bounds[n - 2], bounds[n - 1]);
    if n == 2 then last else BandAmounts(l, sqrt, bounds[..n - 1]).Plus(last)
  }

  lemma {:induction false} LaterPositive(bounds: seq<int>, i: nat)
    requires Bands(bounds) && i < |bounds|
    ensures bounds[i] > 0
  {
    if i > 0 {
      LaterPositive(bounds, i - 1);
    }
  }

  lemma FloorSum(x: real, y: real)
    ensures 0 <= (x + y).Floor - x.Floor - y.Floor <= 1
  {
  }

  /** Exact amounts add up over adjacent ranges. */
  lemma ExactAdds(l: nat, sqrt: int, a: int, m: int, b: int)
    requires 0 < a < m < b
    ensures Exact0(l, sqrt, a, m) + Exact0(l, sqrt, m, b) == Exact0(l, sqrt, a, b)
    ensures Exact1(l, sqrt, a, m) + Exact1(l, sqrt, m, b) == Exact1(l, sqrt, a, b)
  {
    hide Above, Below;
  }

  /** Cutting a range into n bands of the same liquidity loses at most n - 1 units per token. */
  lemma {:induction false} SplittingLosesLittle(l: nat, sqrt: int, bounds: seq<int>)
    requires Bands(bounds)
    ensures 0 < bounds[0] < bounds[|bounds| - 1]
    ensures
      var whole := PrincipalRaw(l, sqrt, bounds[0], bounds[|bounds| - 1]);
      var split := BandAmounts(l, sqrt, bounds);
      && 0 <= whole.a0 - split.a0 <= |bounds| - 2
      && 0 <= whole.a1 - split.a1 <= |bounds| - 2
    decreases |bounds|
  {
    BandsRise(bounds);
    var n := |bounds|;
    if n > 2 {
      var init := bounds[..n - 1];
      SplittingLosesLittle(l, sqrt, init);
      var a, m, b := bounds[0], bounds[n - 2], bounds[n - 1];
      PrincipalIsFloor(l, sqrt, a, m);
      PrincipalIsFloor(l, sqrt, m, b);
      PrincipalIsFloor(l, sqrt, a, b);
      ExactAdds(l, sqrt, a, m, b);
      hide PrincipalRaw, Exact0, Exact1;
      FloorSum(Exact0(l, sqrt, a, m), Exact0(l, sqrt, m, b));
      FloorSum(Exact1(l, sqrt, a, m), Exact1(l, sqrt, m, b));
    }
  }

  // ---------------------------------------------------------------- rounding up

  /** Ceiling division is one more than floor division unless it is exact. */
  lemma CeilIs(x: int, d: int)
    requires d > 0
    ensures CeilDiv(x, d) == x / d + if x % d == 0 then 0 else 1
  {
    var q, r := x / d, x % d;
    assert x == q * d + r && (q + 1) * d == q * d + d;
    if r == 0 {
      DivUnique(x + d - 1, d, q, d - 1);
    } else {
      DivUnique(x + d - 1, d, q + 1, r - 1);
    }
  }

  lemma ModOfProduct(x: int, b: int, a: int)
    requires a > 0 && b > 0
    ensures b * a > 0 && x % (b * a) == 0 <==> x % b == 0 && x / b % a == 0
  {
    DivDiv(x, b, a);
    var q, p := x / b, x / b / a;
    assert x == q * b + x % b && q == p * a + q % a && x == p * (b * a) + x % (b * a);
    assert q * b == p * (b * a) + (q % a) * b by {
      assert (p * a + q % a) * b == p * (b * a) + (q % a) * b;
    }
    IntMulLe(0, q % a, b);
    if q % a > 0 {
      IntMulLe(1, q % a, b);
    }
  }

  /** Rounding up twice exceeds rounding down twice by one, unless the quotient is exact. */
  lemma RoundingGap(a: int, b: int, liquidity: nat)
    requires a > 0 && b > 0
    ensures
      var lo, hi := Min(a, b), Max(a, b);
      && hi * lo > 0
      && Amount0Delta(a, b, liquidity, true) - Amount0Delta(a, b, liquidity, false)
         == (if liquidity * Q96 * (hi - lo) % (hi * lo) == 0 then 0 else 1)
      && Amount1Delta(a, b, liquidity, true) - Amount1Delta(a, b, liquidity, false)
         == (if liquidity * (hi - lo) % Q96 == 0 then 0 else 1)
  {
    var lo, hi := Min(a, b), Max(a, b);
    var x := liquidity * Q96 * (hi - lo);
    CeilIs(x, hi);
    CeilIs(CeilDiv(x, hi), lo);
    ModOfProduct(x, hi, lo);
    CeilIs(liquidity * (hi - lo), Q96);
    CeilTwice(x, hi, lo);
  }

  lemma CeilTwice(x: int, b: int, a: int)
    requires a > 0 && b > 0
    ensures CeilDiv(CeilDiv(x, b), a) - x / b / a == if x % b == 0 && x / b % a == 0 then 0 else 1
  {
    var q := x / b;
    CeilIs(x, b);
    CeilIs(CeilDiv(x, b), a);
    CeilIs(q, a);
    if x % b != 0 {
      var p, r := q / a, q % a;
      assert q == p * a + r && (p + 1) * a == p * a + a;
      DivUnique(q + 1 + a - 1, a, p + 1, r);
    }
  }
}
