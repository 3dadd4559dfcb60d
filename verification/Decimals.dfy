/** Decimal arithmetic as the pricing engine uses it, and its conversions to and from `Price`. */
module Decimals {
  import opened Wrappers
  import opened MachineInts
  import opened Prices

  /** The private state of a generator (its random stream and running value), never looked into. */
  type GenState = int

  datatype GbmDraw = GbmDraw(next: GenState, value: Option<real>, conf: Option<real>)
  datatype NoiseDraw = NoiseDraw(next: GenState, factor: Option<real>)

  /** The arithmetic the engine runs on: checked decimal operations (`None` on overflow or division by
      zero), and the float generators as deterministic steps on their own state. Nothing is assumed
      about them unless a theorem says so. */
  datatype Numerics = Numerics(
    add: (real, real) -> Option<real>,
    sub: (real, real) -> Option<real>,
    mul: (real, real) -> Option<real>,
    div: (real, real) -> Option<real>,
    beta: (GenState, real) -> Option<real>,
    gbm: GenState -> GbmDraw,
    noise: (GenState, int) -> NoiseDraw)

  /** A successful operation returns the exact result. */
  predicate ExactOn(num: Numerics, a: real, b: real) {
    && (num.add(a, b).Some? ==> num.add(a, b).value == a + b)
    && (num.sub(a, b).Some? ==> num.sub(a, b).value == a - b)
    && (num.mul(a, b).Some? ==> num.mul(a, b).value == a * b)
    && (num.div(a, b).Some? ==> b != 0.0 && num.div(a, b).value == a / b)
  }

  ghost predicate Exact(num: Numerics) {
    forall a, b :: ExactOn(num, a, b)
  }

  lemma Divides(num: Numerics, a: real, b: real)
    requires Exact(num) && num.div(a, b).Some?
    ensures b != 0.0 && num.div(a, b).value * b == a
  {
    assert ExactOn(num, a, b);
  }

  lemma Multiplies(num: Numerics, a: real, b: real)
    requires Exact(num) && num.mul(a, b).Some?
    ensures num.mul(a, b).value == a * b
  {
    assert ExactOn(num, a, b);
  }

  lemma AddsAndSubtracts(num: Numerics, a: real, b: real)
    requires Exact(num)
    ensures num.add(a, b).Some? ==> num.add(a, b).value == a + b
    ensures num.sub(a, b).Some? ==> num.sub(a, b).value == a - b
  {
    assert ExactOn(num, a, b);
  }

  /** Decimals hold a 96-bit integer and at most 28 decimals. */
  const DECIMAL_MAX := 0xFFFF_FFFF_FFFF_FFFF_FFFF_FFFF
  const MAX_SCALE := 28

  function ToDecimal(p: Price): Option<real> {
    if p.expo <= 0 then
      if -p.expo <= MAX_SCALE && Abs(p.mantissa) <= DECIMAL_MAX
      then Some(p.mantissa as real / Pow10(-p.expo) as real) else None
    else if Abs(p.mantissa * Pow10(p.expo)) <= DECIMAL_MAX
    then Some((p.mantissa * Pow10(p.expo)) as real) else None
  }

  lemma Tenfold(m: int, n: nat)
    ensures m * Pow10(n + 1) == 10 * (m * Pow10(n))
    ensures Abs(m * Pow10(n)) <= Abs(m * Pow10(n + 1))
  {
    assert Pow10(n + 1) == 10 * Pow10(n);
  }

  lemma {:induction false} OverflowStays(m: int, k: nat, n: nat)
    requires k <= n
    ensures Abs(m * Pow10(k)) <= Abs(m * Pow10(n))
    decreases n
  {
    if k < n {
      OverflowStays(m, k, n - 1);
      Tenfold(m, n - 1);
    }
  }

  /** `to_decimal`, with its loop of checked multiplications by ten. */
  method ComputeToDecimal(p: Price) returns (r: Option<real>)
    ensures r == ToDecimal(p)
  {
    if p.expo <= 0 {
      if -p.expo > MAX_SCALE || Abs(p.mantissa) > DECIMAL_MAX {
        return None;
      }
      return Some(p.mantissa as real / Pow10(-p.expo) as real);
    }
    if Abs(p.mantissa) > DECIMAL_MAX {
      assert p.mantissa * Pow10(0) == p.mantissa;
      OverflowStays(p.mantissa, 0, p.expo);
      return None;
    }
    var d := p.mantissa;
    for i := 0 to p.expo
      invariant d == p.mantissa * Pow10(i) && Abs(d) <= DECIMAL_MAX
    {
      Tenfold(p.mantissa, i);
      if Abs(d * 10) > DECIMAL_MAX {
        OverflowStays(p.mantissa, i + 1, p.expo);
        return None;
      }
      d := d * 10;
    }
    return Some(d as real);
  }

  /** The number a price stands for. */
  function Worth(p: Price): real {
    if p.expo >= 0 then (p.mantissa * Pow10(p.expo)) as real else p.mantissa as real / Pow10(-p.expo) as real
  }

  /** A price has a decimal exactly when its digits fit 96 bits and it has at most 28 decimals, and the
      decimal is exactly what it stands for. */
  lemma ToDecimalIsExact(p: Price)
    ensures ToDecimal(p).Some? <==>
              if p.expo <= 0 then p.expo >= -28
                && -79228162514264337593543950335 <= p.mantissa <= 79228162514264337593543950335
              else -79228162514264337593543950335 <= p.mantissa * Pow10(p.expo) <= 79228162514264337593543950335
    ensures ToDecimal(p).Some? ==> ToDecimal(p).value == Worth(p)
  {
    if p.expo == 0 {
      assert p.mantissa * Pow10(0) == p.mantissa;
      assert p.mantissa as real / 1.0 == p.mantissa as real;
    }
  }

  /** Round half to even. */
  function RoundHalfEven(x: real): int {
    var f := x.Floor;
    var rest := x - f as real;
    if rest < 0.5 then f
    else if rest > 0.5 then f + 1
    else if f % 2 == 0 then f else f + 1
  }

  function FromDecimal(num: Numerics, value: real, expo: int): Result<Price, MathError> {
    match CheckedPow10(Abs(expo))
    case None => Failure(Overflow)
    case Some(factor) =>
      if factor > DECIMAL_MAX then Failure(Overflow)
      else
        match (if expo <= 0 then num.mul(value, factor as real) else num.div(value, factor as real))
        case None => Failure(Overflow)
        case Some(shifted) =>
          if FitsI128(RoundHalfEven(shifted)) then Success(Price(RoundHalfEven(shifted), expo)) else Failure(Overflow)
  }

  /** Rounding moves a value by at most one half, and to an even integer when it is exactly half-way. */
  lemma RoundIsNearest(x: real)
    ensures var n := RoundHalfEven(x);
            && -0.5 <= x - n as real <= 0.5
            && (x - n as real == 0.5 || x - n as real == -0.5 ==> n % 2 == 0)
  {
    var f := x.Floor;
    assert f as real <= x < f as real + 1.0;
    assert (f + 1) as real == f as real + 1.0;
  }

  lemma {:induction false} ScaleBack(m: int, k: nat)
    ensures m as real / Pow10(k) as real * Pow10(k) as real == m as real
    ensures (m * Pow10(k)) as real / Pow10(k) as real == m as real
  {
    var x, f := m as real, Pow10(k) as real;
    assert (m * Pow10(k)) as real == x * f;
    DivCancels(x, f);
  }

  lemma DivCancels(x: real, f: real)
    requires f > 0.0
    ensures x / f * f == x && x * f / f == x
  {
  }

  /** A price that has a decimal value comes back from it unchanged, with exact arithmetic, unless
      the conversion reports an overflow. */
  lemma DecimalRoundTrip(num: Numerics, p: Price)
    requires Exact(num) && p.InRange() && ToDecimal(p).Some?
    ensures var r := FromDecimal(num, ToDecimal(p).value, p.expo);
            r == Success(p) || r == Failure(Overflow)
  {
    hide Pow10, RoundHalfEven, CheckedPow10;
    var factor := Pow10(Abs(p.expo)) as real;
    var value := ToDecimal(p).value;
    ScaleBack(p.mantissa, Abs(p.expo));
    RoundOfInteger(p.mantissa);
    assert ExactOn(num, value, factor);
    var shifted := if p.expo <= 0 then num.mul(value, factor) else num.div(value, factor);
    assert shifted.Some? ==> shifted.value == p.mantissa as real;
    CheckedPow10Is(Abs(p.expo));
  }

  lemma RoundOfInteger(m: int)
    ensures RoundHalfEven(m as real) == m
  {
  }

  lemma {:induction false} CheckedPow10Is(n: nat)
    ensures CheckedPow10(n).Some? ==> CheckedPow10(n).value == Pow10(n)
  {
  }

  lemma Pow10Of28()
    ensures Pow10(28) <= DECIMAL_MAX < Pow10(29)
  {
    Pow10Of(2, 2, 100, 100);
    Pow10Of(4, 4, 1_0000, 1_0000);
    Pow10Of(8, 8, 1_0000_0000, 1_0000_0000);
    Pow10Of(8, 4, 1_0000_0000, 1_0000);
    Pow10Of(16, 12, 1_0000_0000_0000_0000, 1_0000_0000_0000);
    Pow10Of(28, 1, 1_0000_0000_0000_0000_0000_0000_0000, 10);
  }

  /** The decimal shifted to where the mantissa's unit is one. */
  function Shifted(num: Numerics, value: real, expo: int): Option<real> {
    if expo <= 0 then num.mul(value, Pow10(-expo) as real) else num.div(value, Pow10(expo) as real)
  }

  /** A decimal is quantised exactly when the exponent is between -28 and 28, the shift goes through and
      the rounded mantissa fits; every failure is an overflow. */
  lemma FromDecimalSucceedsWhen(num: Numerics, value: real, expo: int)
    ensures FromDecimal(num, value, expo).Success? <==>
              -28 <= expo <= 28 && Shifted(num, value, expo).Some?
                && FitsI128(RoundHalfEven(Shifted(num, value, expo).value))
    ensures match FromDecimal(num, value, expo)
            case Failure(e) => e == Overflow
            case Success(p) => p == Price(RoundHalfEven(Shifted(num, value, expo).value), expo)
  {
    hide Pow10, RoundHalfEven, CheckedPow10, FitsI128;
    SmallPowers(Abs(expo));
  }

  lemma {:induction false} SmallPowers(n: nat)
    ensures var p := CheckedPow10(n);
            if n <= 28 then p == Some(Pow10(n)) && Pow10(n) <= DECIMAL_MAX else p.Some? ==> p.value > DECIMAL_MAX
  {
    Pow10Of28();
    Pow10Of39();
    if n <= 28 { Pow10Monotone(n, 28); Pow10Monotone(28, 38); } else { Pow10Monotone(29, n); }
    hide Pow10;
  }

  /** A successful quantisation is off by at most half a unit of the exponent, and has that exponent. */
  lemma QuantisationError(num: Numerics, value: real, expo: int)
    requires Exact(num) && FromDecimal(num, value, expo).Success?
    ensures FromDecimal(num, value, expo).value.expo == expo
    ensures var p := FromDecimal(num, value, expo).value;
            if expo <= 0 then -0.5 <= value * Pow10(-expo) as real - p.mantissa as real <= 0.5
            else -0.5 * Pow10(expo) as real <= value - Worth(p) <= 0.5 * Pow10(expo) as real
  {
    hide Pow10, RoundHalfEven, CheckedPow10;
    CheckedPow10Is(Abs(expo));
    var factor := Pow10(Abs(expo)) as real;
    assert ExactOn(num, value, factor);
    var shifted := Shifted(num, value, expo).value;
    RoundIsNearest(shifted);
    if expo > 0 {
      Divides(num, value, factor);
      Around(shifted, RoundHalfEven(shifted) as real, factor);
      assert Worth(FromDecimal(num, value, expo).value) == RoundHalfEven(shifted) as real * factor;
    }
  }

  lemma Around(q: real, n: real, factor: real)
    requires factor > 0.0 && -0.5 <= q - n <= 0.5
    ensures -0.5 * factor <= q * factor - n * factor <= 0.5 * factor
  {
    var d := q - n;
    assert d * factor == q * factor - n * factor;
    ScaleUp(d, 0.5, factor);
    ScaleUp(-0.5, d, factor);
  }

  lemma ScaleUp(a: real, b: real, factor: real)
    requires a <= b && factor > 0.0
    ensures a * factor <= b * factor
  {
    var gap := b - a;
    assert gap * factor == b * factor - a * factor;
  }
}
