/** `Display` and `FromStr` of `Price`, at the level of characters. */
module PriceText {
  import opened Wrappers
  import opened MachineInts
  import opened Prices

  // ---------------------------------------------------------------- decimal digits

  function DigitChar(d: nat): char
    requires d < 10
  {
    '0' + d as char
  }

  predicate IsDigit(c: char) { '0' <= c <= '9' }

  function DigitOf(c: char): nat
    requires IsDigit(c)
  {
    (c - '0') as nat
  }

  predicate AllDigits(s: string) {
    forall i :: 0 <= i < |s| ==> IsDigit(s[i])
  }

  /** The decimal digits of `n`, without leading zeros. */
  function Digits(n: nat): (s: string)
    ensures |s| > 0 && AllDigits(s)
  {
    if n < 10 then [DigitChar(n)] else Digits(n / 10) + [DigitChar(n % 10)]
  }

  function ValueOf(s: string): nat
    requires AllDigits(s)
  {
    if s == "" then 0 else 10 * ValueOf(s[..|s| - 1]) + DigitOf(s[|s| - 1])
  }

  function Zeros(n: nat): (s: string)
    ensures |s| == n && AllDigits(s)
  {
    seq(n, i => '0')
  }

  /** Rust's `{:0width$}`: zeros in front up to `width` characters. */
  function Padded(n: nat, width: nat): (s: string)
    ensures AllDigits(s) && |s| >= width
  {
    if |Digits(n)| < width then Zeros(width - |Digits(n)|) + Digits(n) else Digits(n)
  }

  function Whole(a: nat, scale: nat): nat
    requires scale > 0
  {
    a / scale
  }

  function Frac(a: nat, scale: nat): nat
    requires scale > 0
  {
    a % scale
  }

  lemma WholeAndFrac(a: nat, scale: nat)
    requires scale > 0
    ensures a == Whole(a, scale) * scale + Frac(a, scale) && Frac(a, scale) < scale
  {
  }

  function Signed(negative: bool, value: int): int {
    if negative then -value else value
  }

  function DisplayInt(x: int): string {
    if x < 0 then "-" + Digits(-x) else Digits(x)
  }

  // ---------------------------------------------------------------- the printer and the parser

  /** Mantissa and exponent side by side: the fallback when the power of ten does not fit. */
  function Scientific(p: Price): string {
    DisplayInt(p.mantissa) + "e" + DisplayInt(p.expo)
  }

  function Display(p: Price): string {
    if p.expo >= 0 then
      match CheckedPow10(p.expo)
      case None => Scientific(p)
      case Some(scale) =>
        match CheckedMul(p.mantissa, scale)
        case None => Scientific(p)
        case Some(v) => DisplayInt(v)
    else
      match CheckedPow10(-p.expo)
      case None => Scientific(p)
      case Some(scale) =>
        var sign := if p.mantissa < 0 then "-" else "";
        sign + Digits(Whole(Abs(p.mantissa), scale)) + "." + Padded(Frac(Abs(p.mantissa), scale), -p.expo)
  }

  /** `str::parse::<i128>`: an optional sign and at least one digit, in range. */
  function ParseI128(s: string): Option<int> {
    var negative := s != "" && s[0] == '-';
    var digits := if s != "" && (s[0] == '-' || s[0] == '+') then s[1..] else s;
    if digits == "" || !AllDigits(digits) then None
    else
      var value := Signed(negative, ValueOf(digits));
      if FitsI128(value) then Some(value) else None
  }

  /** `split_once('.')`, with the whole string and nothing when there is no dot. */
  function SplitAtDot(s: string): (string, string) {
    if s == "" then ("", "")
    else if s[0] == '.' then ("", s[1..])
    else
      var (a, b) := SplitAtDot(s[1..]);
      ([s[0]] + a, b)
  }

  function FromStr(s: string): Result<Price, MathError> {
    var (intPart, fracPart) := SplitAtDot(s);
    match ParseI128(intPart + fracPart)
    case None => Failure(Parse)
    case Some(mantissa) =>
      if |fracPart| > I32_MAX then Failure(Parse) else Success(Price(mantissa, -|fracPart|))
  }

  // ---------------------------------------------------------------- digits and values

  lemma {:induction false} ValueOfDigits(n: nat)
    ensures ValueOf(Digits(n)) == n
  {
    if n >= 10 {
      ValueOfDigits(n / 10);
      var s := Digits(n);
      assert s[..|s| - 1] == Digits(n / 10);
    } else {
      assert Digits(n)[..0] == "";
    }
  }

  lemma {:induction false} ValueOfConcat(a: string, b: string)
    requires AllDigits(a) && AllDigits(b)
    ensures AllDigits(a + b) && ValueOf(a + b) == ValueOf(a) * Pow10(|b|) + ValueOf(b)
    decreases |b|
  {
    if b == "" {
      assert a + b == a;
    } else {
      var front := b[..|b| - 1];
      ValueOfConcat(a, front);
      hide Digits, Zeros;
      assert (a + b)[..|a + b| - 1] == a + front;
      Associate(ValueOf(a), 10, Pow10(|front|));
      Associate(10, ValueOf(a), Pow10(|front|));
    }
  }

  lemma ValueOfZeros(n: nat)
    ensures ValueOf(Zeros(n)) == 0
  {
    if n > 0 {
      ValueOfZeros(n - 1);
      assert Zeros(n)[..n - 1] == Zeros(n - 1);
    }
  }

  lemma {:induction false} DigitsWidth(n: nat, width: nat)
    requires width > 0 && n < Pow10(width)
    ensures |Digits(n)| <= width
    decreases width
  {
    if n >= 10 {
      assert width > 1;
      DigitsWidth(n / 10, width - 1);
    }
  }

  lemma {:induction false} PaddedValue(n: nat, width: nat)
    requires width > 0 && n < Pow10(width)
    ensures |Padded(n, width)| == width && ValueOf(Padded(n, width)) == n
  {
    DigitsWidth(n, width);
    ValueOfDigits(n);
    if |Digits(n)| < width {
      ValueOfConcat(Zeros(width - |Digits(n)|), Digits(n));
      ValueOfZeros(width - |Digits(n)|);
    }
  }

  // ---------------------------------------------------------------- splitting and parsing

  lemma {:induction false} SplitBeforeDot(a: string, b: string)
    requires '.' !in a
    ensures SplitAtDot(a + "." + b) == (a, b)
  {
    if a == "" {
      assert (a + "." + b)[1..] == b;
    } else {
      SplitBeforeDot(a[1..], b);
      assert [a[0]] + a[1..] == a;
      assert (a + "." + b)[1..] == a[1..] + "." + b;
    }
  }

  lemma {:induction false} SplitWithoutDot(s: string)
    requires '.' !in s
    ensures SplitAtDot(s) == (s, "")
  {
    if s != "" {
      SplitWithoutDot(s[1..]);
      assert [s[0]] + s[1..] == s;
    }
  }

  lemma NoDotInDigits(s: string)
    requires AllDigits(s)
    ensures '.' !in s && 'e' !in s && (s != "" ==> s[0] != '-' && s[0] != '+')
  {
  }

  /** A sign in front of digits parses to the signed value. */
  lemma {:induction false} ParseSigned(negative: bool, digits: string)
    requires AllDigits(digits) && digits != ""
    ensures var value := Signed(negative, ValueOf(digits));
            ParseI128((if negative then "-" else "") + digits) == if FitsI128(value) then Some(value) else None
  {
    NoDotInDigits(digits);
    if negative {
      assert ("-" + digits)[1..] == digits;
    } else {
      assert "" + digits == digits;
    }
  }

  lemma ParseDisplayInt(x: int)
    requires FitsI128(x)
    ensures ParseI128(DisplayInt(x)) == Some(x) && '.' !in DisplayInt(x)
  {
    hide Digits, ValueOf, ParseI128, AllDigits;
    var digits := Digits(Abs(x));
    ValueOfDigits(Abs(x));
    NoDotInDigits(digits);
    ParseSigned(x < 0, digits);
    assert "" + digits == digits;
  }

  /** No text with an `e` in it parses as an integer. */
  lemma ScientificIsRejected(p: Price)
    ensures FromStr(Scientific(p)) == Failure(Parse)
  {
    var s := Scientific(p);
    var m := DisplayInt(p.mantissa);
    NoDotInDigits(Digits(Abs(p.mantissa)));
    NoDotInDigits(Digits(Abs(p.expo)));
    assert s[|m|] == 'e' && |m| > 0;
    assert forall i :: 0 <= i < |s| ==> s[i] != '.';
    SplitWithoutDot(s);
    assert s + "" == s;
    assert !IsDigit(s[|m|]);
    if s[0] == '-' || s[0] == '+' {
      assert s[1..][|m| - 1] == 'e';
    }
  }

  // ---------------------------------------------------------------- the round trip

  /** The digits on both sides of the dot, put back together, are the digits of the mantissa. */
  lemma {:induction false} SplitMantissa(a: nat, width: nat)
    requires width > 0
    ensures var whole, frac := Digits(Whole(a, Pow10(width))), Padded(Frac(a, Pow10(width)), width);
            |frac| == width && AllDigits(whole + frac) && ValueOf(whole + frac) == a
  {
    var scale := Pow10(width);
    WholeAndFrac(a, scale);
    hide Whole, Frac, Digits, Padded;
    PaddedValue(Frac(a, scale), width);
    ValueOfDigits(Whole(a, scale));
    ValueOfConcat(Digits(Whole(a, scale)), Padded(Frac(a, scale), width));
  }

  lemma {:induction false} FromSplit(s: string, a: string, b: string, m: int)
    requires SplitAtDot(s) == (a, b) && ParseI128(a + b) == Some(m) && |b| <= I32_MAX
    ensures FromStr(s) == Success(Price(m, -|b|))
  {
  }

  function SignText(p: Price): string { if p.mantissa < 0 then "-" else "" }

  lemma FractionDisplay(p: Price)
    requires p.InRange() && -38 <= p.expo < 0
    ensures var scale, a := Pow10(-p.expo), Abs(p.mantissa);
            Display(p) == SignText(p) + Digits(Whole(a, scale)) + "." + Padded(Frac(a, scale), -p.expo)
  {
    Pow10Fits(-p.expo);
  }

  /** The two parts of a printed fraction: no dot before the dot, one digit per decimal behind it,
      and together the mantissa. */
  lemma FractionParts(p: Price) returns (before: string, behind: string)
    requires p.InRange() && -38 <= p.expo < 0
    ensures Display(p) == before + "." + behind && '.' !in before && |behind| == -p.expo
    ensures ParseI128(before + behind) == Some(p.mantissa)
  {
    hide Pow10, Digits, Whole, Frac, Padded, ParseI128, ValueOf, Display;
    var scale := Pow10(-p.expo);
    var a := Abs(p.mantissa);
    var whole := Digits(Whole(a, scale));
    before, behind := SignText(p) + whole, Padded(Frac(a, scale), -p.expo);
    FractionDisplay(p);
    SplitMantissa(a, -p.expo);
    NoDotInDigits(whole);
    ParseSigned(p.mantissa < 0, whole + behind);
    assert before + behind == SignText(p) + (whole + behind);
  }

  lemma FractionRoundTrip(p: Price)
    requires p.InRange() && -38 <= p.expo < 0
    ensures FromStr(Display(p)) == Success(p)
  {
    var before, behind := FractionParts(p);
    hide Pow10, Display, ParseI128, SplitAtDot, FromStr;
    SplitBeforeDot(before, behind);
    FromSplit(before + "." + behind, before, behind, p.mantissa);
  }

  lemma IntegerRoundTrip(v: int)
    requires FitsI128(v)
    ensures FromStr(DisplayInt(v)) == Success(Price(v, 0))
  {
    ParseDisplayInt(v);
    var s := DisplayInt(v);
    hide DisplayInt, ParseI128, SplitAtDot, FromStr;
    SplitWithoutDot(s);
    assert s + "" == s;
    FromSplit(s, s, "", v);
  }

  /** Printing and parsing, for every price: the identity on the exponents -38..0, the same value at
      exponent 0 for a positive exponent whose integer fits, and a parse error exactly otherwise. */
  lemma RoundTrip(p: Price)
    requires p.InRange()
    ensures FromStr(Display(p)) ==
              if -38 <= p.expo <= 0 then Success(p)
              else if 0 < p.expo <= 38 && FitsI128(p.mantissa * Pow10(p.expo))
              then Success(Price(p.mantissa * Pow10(p.expo), 0))
              else Failure(Parse)
  {
    Pow10Fits(Abs(p.expo));
    if -38 <= p.expo < 0 {
      FractionRoundTrip(p);
    } else if p.expo == 0 {
      assert Pow10(0) == 1 && Display(p) == DisplayInt(p.mantissa);
      IntegerRoundTrip(p.mantissa);
    } else if 0 < p.expo <= 38 && FitsI128(p.mantissa * Pow10(p.expo)) {
      hide Pow10;
      assert Display(p) == DisplayInt(p.mantissa * Pow10(p.expo));
      IntegerRoundTrip(p.mantissa * Pow10(p.expo));
    } else {
      hide Pow10;
      assert Display(p) == Scientific(p);
      ScientificIsRejected(p);
    }
  }

  /** Whatever text was parsed, printing the price and parsing again gives the same price, as long
      as the text had at most 38 decimals; with more, the printed form does not parse. */
  lemma ParseThenPrint(s: string)
    requires FromStr(s).Success?
    ensures var p := FromStr(s).value;
            FromStr(Display(p)) == if p.expo >= -38 then Success(p) else Failure(Parse)
  {
    RoundTrip(FromStr(s).value);
  }

  // ---------------------------------------------------------------- the notation itself

  /** A text of an optional sign, digits, and perhaps a dot and more digits. */
  function Written(sign: string, a: string, dot: bool, b: string): string {
    sign + a + (if dot then "." + b else "")
  }

  /** Such a text is read as the number its digits spell, with one decimal for each digit behind the dot;
      it fails only if that number does not fit, or without any digit. */
  lemma {:induction false} ReadsAsWritten(sign: string, a: string, dot: bool, b: string)
    requires sign in {"", "-", "+"} && AllDigits(a) && AllDigits(b) && (!dot ==> b == "") && |b| <= I32_MAX
    ensures AllDigits(a + b)
    ensures var value := Signed(sign == "-", ValueOf(a + b));
            FromStr(Written(sign, a, dot, b)) ==
              if a + b != "" && FitsI128(value) then Success(Price(value, -|b|)) else Failure(Parse)
  {
    hide ValueOf, SplitAtDot, ParseI128, AllDigits, Written, Signed;
    Joined(sign, a, b);
    SplitsAsWritten(sign, a, dot, b);
    ReadsSigned(sign, a + b);
  }

  lemma Joined(sign: string, a: string, b: string)
    requires AllDigits(a) && AllDigits(b)
    ensures AllDigits(a + b) && sign + a + b == sign + (a + b)
  {
  }

  lemma SplitsAsWritten(sign: string, a: string, dot: bool, b: string)
    requires sign in {"", "-", "+"} && AllDigits(a) && (!dot ==> b == "")
    ensures SplitAtDot(Written(sign, a, dot, b)) == (sign + a, b)
  {
    hide SplitAtDot;
    NoDotInDigits(a);
    var front := sign + a;
    if dot {
      assert Written(sign, a, dot, b) == front + "." + b;
      SplitBeforeDot(front, b);
    } else {
      assert Written(sign, a, dot, b) == front;
      SplitWithoutDot(front);
    }
  }

  lemma {:induction false} ReadsSigned(sign: string, digits: string)
    requires sign in {"", "-", "+"} && AllDigits(digits)
    ensures var value := Signed(sign == "-", ValueOf(digits));
            ParseI128(sign + digits) == if digits != "" && FitsI128(value) then Some(value) else None
  {
    hide ValueOf;
    if sign == "" {
      assert sign + digits == digits;
      NoDotInDigits(digits);
    } else {
      assert (sign + digits)[1..] == digits;
    }
  }

  lemma {:induction false} TwoDigits(n: nat)
    requires 10 <= n < 100
    ensures Digits(n) == [DigitChar(n / 10), DigitChar(n % 10)]
  {
    assert Digits(n / 10) == [DigitChar(n / 10)];
  }

  lemma {:induction false} ThreeDigits(n: nat)
    requires 100 <= n < 1000
    ensures Digits(n) == [DigitChar(n / 100), DigitChar(n / 10 % 10), DigitChar(n % 10)]
  {
    TwoDigits(n / 10);
    hide DigitChar;
  }

  lemma SmallScales()
    ensures CheckedPow10(0) == Some(1) && CheckedPow10(1) == Some(10) && CheckedPow10(2) == Some(100)
    ensures CheckedPow10(4) == Some(10000)
  {
    assert Pow10(1) == 10 && Pow10(2) == 100 && Pow10(3) == 1000 && Pow10(4) == 10000;
  }

  /** Prices the repository's own tests print. */
  lemma PrintsAs()
    ensures Display(Price(15327, -2)) == "153.27"
    ensures Display(Price(-5, -2)) == "-0.05"
    ensures Display(Price(105, -4)) == "0.0105"
    ensures Display(Price(42, 0)) == "42"
  {
    SmallScales();
    hide Pow10, CheckedPow10, Digits, Padded;
    PrintedParts();
    var dot := ".";
    assert Display(Price(15327, -2)) == "" + Digits(153) + dot + Padded(27, 2);
    assert Display(Price(-5, -2)) == "-" + Digits(0) + dot + Padded(5, 2);
    assert Display(Price(105, -4)) == "" + Digits(0) + dot + Padded(105, 4);
  }

  lemma PrintedParts()
    ensures Digits(153) == "153" && Digits(0) == "0" && Digits(42) == "42"
    ensures Padded(27, 2) == "27" && Padded(5, 2) == "05" && Padded(105, 4) == "0105"
  {
    ThreeDigits(153);
    ThreeDigits(105);
    TwoDigits(27);
    TwoDigits(42);
    assert Digits(5) == "5" && Digits(0) == "0";
    hide Digits;
    assert Zeros(1) == "0";
  }
}
