/** Machine integer ranges and the two operations whose Rust meaning differs from Dafny's. */
module MachineInts {
  const I32_MAX := 0x7FFF_FFFF
  const I32_MIN := -0x8000_0000
  const I64_MAX := 0x7FFF_FFFF_FFFF_FFFF
  const U64_MAX := 0xFFFF_FFFF_FFFF_FFFF
  const I128_MAX := 0x7FFF_FFFF_FFFF_FFFF_FFFF_FFFF_FFFF_FFFF
  const I128_MIN := -0x8000_0000_0000_0000_0000_0000_0000_0000
  const U128_MAX := 0xFFFF_FFFF_FFFF_FFFF_FFFF_FFFF_FFFF_FFFF

  predicate FitsI32(x: int) { I32_MIN <= x <= I32_MAX }

  predicate FitsI64(x: int) { -I64_MAX - 1 <= x <= I64_MAX }

  predicate FitsI128(x: int) { I128_MIN <= x <= I128_MAX }

  function Abs(x: int): nat { if x < 0 then -x else x }

  /** Rust's `/` truncates toward zero; Dafny's rounds so that the remainder is not negative. */
  function TruncDiv(a: int, b: int): (q: int)
    requires b > 0
    ensures Abs(q) == Abs(a) / b
    ensures a >= 0 ==> q >= 0
    ensures a <= 0 ==> q <= 0
  {
    if a >= 0 then a / b else -((-a) / b)
  }

  /** Rust's `x as i64` on a `u64` reinterprets its 64 bits. */
  function CastI64(x: nat): (y: int)
    ensures -I64_MAX - 1 <= y <= I64_MAX
  {
    var bits := x % (U64_MAX + 1);
    if bits <= I64_MAX then bits else bits - U64_MAX - 1
  }
}
