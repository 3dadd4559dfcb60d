/** The fixed-point `Price`: checked rescaling and basis points on an `i128` mantissa. */
module Prices {
  import opened Wrappers
  import opened MachineInts

  /** `mantissa * 10^expo`, with an `i128` mantissa and an `i32` exponent. */
  datatype Price = Price(mantissa: int, expo: int) {
    predicate InRange() { FitsI128(mantissa) && FitsI32(expo) }
  }

  /** `Panic` is an arithmetic overflow that the build's overflow checks turn into an abort. */
  datatype MathError = Overflow | Parse | Panic

  function Pow10(n: nat): (p: nat)
    ensures p > 0
  {
    if n == 0 then 1 else 10 * Pow10(n - 1)
  }

  function CheckedPow10(n: nat): Option<nat> {
    if Pow10(n) <= I128_MAX then Some(Pow10(n)) else None
  }

  function CheckedMul(a: int, b: int): Option<int> {
    if FitsI128(a * b) then Some(a * b) else None
  }

  function CheckedScale(p: Price, newExpo: int): Result<Price, MathError> {
    var diff := p.expo - newExpo;
    if !FitsI32(diff) then Failure(Panic)
    else if diff == 0 then Success(p)
    else
      match CheckedPow10(Abs(diff))
      case None => Failure(Overflow)
      case Some(factor) =>
        if diff > 0 then
          match CheckedMul(p.mantissa, factor)
          case None => Failure(Overflow)
          case Some(m) => Success(Price(m, newExpo))
        else Success(Price(TruncDiv(p.mantissa, factor), newExpo))
  }

  function ApplyBps(p: Price, bps: int): Result<Price, MathError> {
    match CheckedMul(p.mantissa, 10_000 + bps)
    case None => Failure(Overflow)
    case Some(scaled) => Success(Price(TruncDiv(scaled, 10_000), p.expo))
  }

  // ---------------------------------------------------------------- powers of ten

  lemma Pow10Adds(a: nat, b: nat)
    ensures Pow10(a + b) == Pow10(a) * Pow10(b)
    decreases a
  {
    if a > 0 {
      Pow10Adds(a - 1, b);
      Associate(10, Pow10(a - 1), Pow10(b));
    }
  }

  lemma {:induction false} Pow10Monotone(a: nat, b: nat)
    requires a <= b
    ensures Pow10(a) <= Pow10(b)
    decreases b
  {
    if a < b { Pow10Monotone(a, b - 1); }
  }

  lemma Pow10Of(a: nat, b: nat, x: nat, y: nat)
    requires Pow10(a) == x && Pow10(b) == y
    ensures Pow10(a + b) == x * y
  {
    Pow10Adds(a, b);
  }

  lemma Pow10Of39()
    ensures Pow10(38) <= I128_MAX < Pow10(39)
  {
    Pow10Of(2, 2, 100, 100);
    Pow10Of(4, 4, 1_0000, 1_0000);
    Pow10Of(8, 8, 1_0000_0000, 1_0000_0000);
    Pow10Of(16, 16, 1_0000_0000_0000_0000, 1_0000_0000_0000_0000);
    Pow10Of(4, 2, 1_0000, 100);
    Pow10Of(32, 6, 1_0000_0000_0000_0000_0000_0000_0000_0000, 100_0000);
  }

  /** `10^n` fits an `i128` exactly up to n = 38. */
  lemma Pow10Fits(n: nat)
    ensures CheckedPow10(n).Some? <==> n <= 38
  {
    Pow10Of39();
    if n <= 38 { Pow10Monotone(n, 38); } else { Pow10Monotone(39, n); }
  }

  // ---------------------------------------------------------------- truncating division

  lemma DivUnique(a: nat, b: nat, q: nat, r: nat)
    requires b > 0 && a == q * b + r && r < b
    ensures a / b == q && a % b == r
  {
    var q', r' := a / b, a % b;
    assert a == q' * b + r';
    if q < q' {
      MulStep(q, q', b);
    } else if q' < q {
      MulStep(q', q, b);
    }
  }

  lemma MulStep(x: nat, y: nat, b: nat)
    requires x < y
    ensures x * b + b <= y * b
  {
    var d: nat := y - x - 1;
    Distribute(x + 1, d, b);
    Distribute(x, 1, b);
  }

  lemma Distribute(x: int, y: int, b: int)
    ensures (x + y) * b == x * b + y * b
  {
  }

  lemma Associate(x: int, y: int, z: int)
    ensures x * y * z == x * (y * z)
  {
  }

  lemma DivDiv(a: nat, x: nat, y: nat)
    requires x > 0 && y > 0
    ensures x * y > 0 && a / x / y == a / (x * y)
  {
    var q, r := a / x, a % x;
    var q', r' := q / y, q % y;
    assert a == q * x + r && q == q' * y + r';
    Distribute(q' * y, r', x);
    Associate(q', y, x);
    assert y * x == x * y;
    MulStep(r', y, x);
    assert a == q' * (x * y) + (r' * x + r);
    DivUnique(a, x * y, q', r' * x + r);
  }

  lemma TruncDivTwice(a: int, x: int, y: int)
    requires x > 0 && y > 0
    ensures x * y > 0 && TruncDiv(TruncDiv(a, x), y) == TruncDiv(a, x * y)
  {
    DivDiv(Abs(a), x, y);
  }

  lemma MulThenDiv(a: int, x: int)
    requires x > 0
    ensures TruncDiv(a * x, x) == a
  {
    if a >= 0 {
      DivUnique(a * x, x, a, 0);
    } else {
      assert -(a * x) == (-a) * x;
      DivUnique((-a) * x, x, -a, 0);
    }
  }

  // ---------------------------------------------------------------- rescaling

  /** Rescaling goes through exactly when the shift fits an `i32`, is at most 38 digits, and a
      shift to a finer exponent keeps the mantissa in range. */
  lemma RescaleSucceedsWhen(p: Price, newExpo: int)
    requires p.InRange() && FitsI32(newExpo)
    ensures CheckedScale(p, newExpo).Success? <==>
              var diff := p.expo - newExpo;
              && -38 <= diff <= 38
              && (diff > 0 ==> FitsI128(p.mantissa * Pow10(diff)))
  {
    Pow10Fits(Abs(p.expo - newExpo));
  }

  /** What a rescale gives: to a finer exponent the mantissa times the power of ten, to a coarser one the
      mantissa divided by it, toward zero; the errors are an overflow, or an abort when the distance of
      the exponents does not fit an `i32`. */
  lemma {:induction false} RescaleIs(p: Price, newExpo: int)
    requires p.InRange() && FitsI32(newExpo)
    ensures match CheckedScale(p, newExpo)
            case Failure(e) => e == if -0x8000_0000 <= p.expo - newExpo <= 0x7FFF_FFFF then Overflow else Panic
            case Success(r) =>
              && r.expo == newExpo
              && (newExpo <= p.expo ==> r.mantissa == p.mantissa * Pow10(p.expo - newExpo))
              && (newExpo > p.expo && p.mantissa >= 0 ==> r.mantissa == p.mantissa / Pow10(newExpo - p.expo))
              && (newExpo > p.expo && p.mantissa < 0 ==> r.mantissa == -(-p.mantissa / Pow10(newExpo - p.expo)))
  {
    if newExpo == p.expo {
      assert p.mantissa * Pow10(0) == p.mantissa;
    }
  }

  /** Scaling to a finer exponent and back is the identity. */
  lemma RescaleUpThenBack(p: Price, newExpo: int)
    requires newExpo <= p.expo && CheckedScale(p, newExpo).Success?
    ensures CheckedScale(CheckedScale(p, newExpo).value, p.expo) == Success(p)
  {
    if newExpo < p.expo {
      Pow10Fits(p.expo - newExpo);
      MulThenDiv(p.mantissa, Pow10(p.expo - newExpo));
    }
  }

  /** Two successive down-scales give what the single one gives, whenever the single one succeeds. */
  lemma RescaleDownInSteps(p: Price, mid: int, low: int)
    requires p.InRange() && p.expo <= mid <= low && FitsI32(low)
    requires CheckedScale(p, low).Success?
    ensures CheckedScale(p, mid).Success?
    ensures CheckedScale(CheckedScale(p, mid).value, low) == CheckedScale(p, low)
  {
    RescaleSucceedsWhen(p, low);
    RescaleSucceedsWhen(p, mid);
    if p.expo < mid < low {
      var x, y := Pow10(mid - p.expo), Pow10(low - mid);
      Pow10Adds(mid - p.expo, low - mid);
      Pow10Fits(low - mid);
      TruncDivTwice(p.mantissa, x, y);
    }
  }

  /** A down-scale loses less than one unit of the new exponent, always toward zero. */
  lemma {:induction false} RescaleLoss(p: Price, newExpo: int)
    requires p.expo < newExpo && CheckedScale(p, newExpo).Success?
    ensures var unit := Pow10(newExpo - p.expo);
            var kept := CheckedScale(p, newExpo).value.mantissa * unit;
            && Abs(kept) <= Abs(p.mantissa) < Abs(kept) + unit
            && (p.mantissa >= 0 ==> kept >= 0) && (p.mantissa <= 0 ==> kept <= 0)
  {
    var unit := Pow10(newExpo - p.expo);
    var m := Abs(p.mantissa);
    var q: int := m / unit;
    assert m == q * unit + m % unit;
    if p.mantissa < 0 {
      Distribute(-q, q, unit);
    }
  }

  /** Basis points keep the exponent, and overflow exactly when the product does. */
  lemma BpsSucceedsWhen(p: Price, bps: int)
    ensures ApplyBps(p, bps).Success? <==> FitsI128(p.mantissa * (10_000 + bps))
    ensures match ApplyBps(p, bps) case Success(r) => r.expo == p.expo case Failure(e) => e == Overflow
  {
  }

  /** The scaled price is within one unit of the exact product, on the side of zero. */
  lemma BpsTruncates(p: Price, bps: int)
    requires ApplyBps(p, bps).Success?
    ensures var exact := p.mantissa * (10_000 + bps);
            var kept := 10_000 * ApplyBps(p, bps).value.mantissa;
            Abs(kept) <= Abs(exact) < Abs(kept) + 10_000 && (exact >= 0 ==> kept >= 0) && (exact <= 0 ==> kept <= 0)
  {
    var exact := p.mantissa * (10_000 + bps);
    assert Abs(exact) == Abs(exact) / 10_000 * 10_000 + Abs(exact) % 10_000;
  }
}
