/** Fixed-point decimal text: the backend's and the engine's parsers and printers. */
module FixedPoint {
  import opened Basics
  import opened Decimal

  const SCALE: nat := 10_000_000_000
  const SCALE_DIGITS: nat := 10
  const MAX64: int := 0x7fff_ffff_ffff_ffff
  const MIN64: int := -0x8000_0000_0000_0000
  const MOD64: int := 0x1_0000_0000_0000_0000

  predicate Int64(x: int) { MIN64 <= x <= MAX64 }

  /** Two's complement wrap-around of a 64-bit result. */
  function Wrap(x: int): int { (x - MIN64) % MOD64 + MIN64 }

  // ---------------------------------------------------------------- the shape of a decimal

  predicate Signed(s: string) { s != [] && (s[0] == '-' || s[0] == '+') }

  predicate Negative(s: string) { s != [] && s[0] == '-' }

  function Body(s: string): string { if Signed(s) then s[1..] else s }

  /** Index of the first dot, or the length if there is none. */
  function DotIndex(s: string): (i: nat)
    ensures i <= |s|
  {
    if s == [] || s[0] == '.' then 0 else 1 + DotIndex(s[1..])
  }

  function IntPart(s: string): string { Body(s)[..DotIndex(Body(s))] }

  function FracPart(s: string): string {
    var b := Body(s);
    if DotIndex(b) < |b| then b[DotIndex(b) + 1..] else []
  }

  /** Optional sign, digits, optional dot and at most ten more digits. */
  predicate WellFormed(s: string) {
    s != [] && AllDigits(IntPart(s)) && AllDigits(FracPart(s)) && |FracPart(s)| <= SCALE_DIGITS
  }

  /** The exact number of ticks, without sign. */
  function Magnitude(s: string): int
    requires |FracPart(s)| <= SCALE_DIGITS
  {
    Value(IntPart(s)) * SCALE + Value(FracPart(s)) * Pow10(SCALE_DIGITS - |FracPart(s)|)
  }

  function Exact(s: string): int
    requires |FracPart(s)| <= SCALE_DIGITS
  {
    if Negative(s) then -Magnitude(s) else Magnitude(s)
  }

  // ---------------------------------------------------------------- the backend's parser

  datatype Parsed = Ok(ticks: int) | Bad

  /** Ill-formed text and large integer parts are errors; everything else is computed in
      wrapping 64-bit arithmetic. */
  function ParseTicks(s: string): Parsed {
    if !WellFormed(s) || Value(IntPart(s)) > MAX64 / SCALE then Bad
    else Ok(if Negative(s) then Wrap(-Wrap(Magnitude(s))) else Wrap(Magnitude(s)))
  }

  /** Digits to a number, failing on other characters and above the 64-bit range. */
  function DigitsToInt(digits: string): Parsed {
    if AllDigits(digits) && Value(digits) <= MAX64 then Ok(Value(digits)) else Bad
  }

  lemma {:induction false} PrefixIsSmaller(s: string, k: nat)
    requires AllDigits(s) && k <= |s|
    ensures Value(s[..k]) <= Value(s)
    decreases |s|
  {
    if k < |s| {
      PrefixIsSmaller(s[..|s| - 1], k);
      assert s[..|s| - 1][..k] == s[..k];
      ValueBounds(s[..|s| - 1]);
    } else {
      assert s[..k] == s;
    }
  }

  lemma TooLarge(value: int, d: int)
    requires 0 <= d < 10
    ensures value > (MAX64 - d) / 10 <==> value * 10 + d > MAX64
  {
  }

  /** The accumulating loop, with the overflow test before each step. */
  method ScanDigits(digits: string) returns (r: Parsed)
    ensures r == DigitsToInt(digits)
  {
    var value := 0;
    for i := 0 to |digits|
      invariant AllDigits(digits[..i]) && value == Value(digits[..i]) && 0 <= value <= MAX64
    {
      var c := digits[i];
      if !(IsDigit(c)) {
        return Bad;
      }
      var d := DigitValue(c);
      TooLarge(value, d);
      assert digits[..i + 1] == digits[..i] + [c];
      ValueSnoc(digits[..i], c);
      if value > (MAX64 - d) / 10 {
        if AllDigits(digits) { PrefixIsSmaller(digits, i + 1); }
        return Bad;
      }
      value := value * 10 + d;
    }
    assert digits[..|digits|] == digits;
    return Ok(value);
  }

  method FindDot(s: string) returns (dot: nat)
    ensures dot == DotIndex(s)
  {
    dot := 0;
    assert s[0..] == s;
    while dot < |s| && s[dot] != '.'
      invariant 0 <= dot <= |s| && dot + DotIndex(s[dot..]) == DotIndex(s)
    {
      assert s[dot..][1..] == s[dot + 1..];
      dot := dot + 1;
    }
  }

  lemma ScaledFraction(frac: string)
    requires AllDigits(frac) && |frac| <= SCALE_DIGITS
    ensures 0 <= Value(frac) * Pow10(SCALE_DIGITS - |frac|) < SCALE
    ensures Value(frac) <= MAX64
  {
    ValueBounds(frac);
    Pow10Add(|frac|, SCALE_DIGITS - |frac|);
    Pow10Positive(SCALE_DIGITS - |frac|);
    PowTen();
    ScaleBound(Value(frac), Pow10(|frac|), Pow10(SCALE_DIGITS - |frac|));
  }

  lemma ScaleBound(v: int, p: int, q: int)
    requires 0 <= v < p && q > 0
    ensures 0 <= v * q < p * q && v <= v * q
  {
  }

  lemma PowTen()
    ensures Pow10(10) == SCALE
  {
    assert Pow10(5) == 100_000;
    assert Pow10(10) == 10 * (10 * (10 * (10 * (10 * Pow10(5)))));
  }

  /** Strip the sign and split at the first dot. */
  method Split(s: string) returns (negative: bool, intPart: string, fracPart: string)
    requires s != []
    ensures negative == Negative(s) && intPart == IntPart(s) && fracPart == FracPart(s)
  {
    var rest := s;
    negative := false;
    if rest[0] == '-' || rest[0] == '+' {
      negative := rest[0] == '-';
      rest := rest[1..];
    }
    var dot := FindDot(rest);
    intPart, fracPart := rest[..dot], [];
    if dot < |rest| {
      fracPart := rest[dot + 1..];
    }
  }

  /** Multiply by ten once for every missing fractional digit. */
  method PadFraction(value: int, digits: nat) returns (frac: int)
    requires digits <= SCALE_DIGITS
    ensures frac == value * Pow10(SCALE_DIGITS - digits)
  {
    frac := value;
    var i := digits;
    assert Pow10(0) == 1;
    while i < SCALE_DIGITS
      invariant digits <= i <= SCALE_DIGITS && frac == value * Pow10(i - digits)
    {
      var p := Pow10(i - digits);
      assert Pow10(i + 1 - digits) == 10 * p;
      assert (value * p) * 10 == value * (10 * p);
      frac := frac * 10;
      i := i + 1;
    }
  }

  lemma FractionFits(frac: string)
    requires AllDigits(frac) && |frac| <= SCALE_DIGITS
    ensures DigitsToInt(frac) == Ok(Value(frac))
  {
    ScaledFraction(frac);
  }

  /** The whole parser, step by step as the code performs it. */
  method ParseTicksStepwise(s: string) returns (r: Parsed)
    ensures r == ParseTicks(s)
  {
    if s == [] {
      return Bad;
    }
    var negative, intPart, fracPart := Split(s);
    if |fracPart| > SCALE_DIGITS {
      return Bad;
    }
    var intValue := ScanDigits(intPart);
    if intValue.Bad? {
      return Bad;
    }
    var fracValue := ScanDigits(fracPart);
    if AllDigits(fracPart) { FractionFits(fracPart); }
    if fracValue.Bad? {
      return Bad;
    }
    var frac := PadFraction(fracValue.ticks, |fracPart|);
    if intValue.ticks > MAX64 / SCALE {
      return Bad;
    }
    var ticks := Wrap(intValue.ticks * SCALE + frac);
    if negative {
      ticks := Wrap(-ticks);
    }
    return Ok(ticks);
  }

  // ---------------------------------------------------------------- when it is exact

  lemma WrapIn(x: int)
    requires Int64(x)
    ensures Wrap(x) == x
  {
  }

  lemma WrapPast(x: int)
    requires MAX64 < x < MAX64 + SCALE
    ensures Wrap(x) == x - MOD64
  {
  }

  lemma MagnitudeBounds(s: string)
    requires WellFormed(s)
    ensures 0 <= Value(IntPart(s)) * SCALE <= Magnitude(s) < (Value(IntPart(s)) + 1) * SCALE
  {
    ValueBounds(IntPart(s));
    ScaledFraction(FracPart(s));
  }

  /** On well-formed text the backend's parser returns the exact value if and only if it
      fits in 64 bits; just above the range it wraps instead of failing. */
  lemma ParseIsExactIff(s: string)
    requires WellFormed(s)
    ensures ParseTicks(s) == Ok(Exact(s)) <==> Int64(Exact(s))
  {
    MagnitudeBounds(s);
    var v, m := Value(IntPart(s)), Magnitude(s);
    if v > MAX64 / SCALE {
      assert v >= 922_337_204;
    } else if m <= MAX64 {
      WrapIn(m);
      WrapIn(-m);
    } else {
      assert v == 922_337_203;
      WrapPast(m);
    }
  }

  /** All that the backend's parser can answer: it rejects exactly the ill-formed text and
      integer parts above 922337203; anything else is the exact value, or, just outside the
      64-bit range, that value shifted back into it by 2^64. */
  lemma ParseOutcome(s: string)
    ensures ParseTicks(s).Bad? <==> !WellFormed(s) || Value(IntPart(s)) > 922_337_203
    ensures WellFormed(s) && Value(IntPart(s)) <= 922_337_203 ==>
      ParseTicks(s) == Ok(if Int64(Exact(s)) then Exact(s) else if Negative(s) then Exact(s) + MOD64 else Exact(s) - MOD64)
  {
    if WellFormed(s) {
      MagnitudeBounds(s);
      var v, m := Value(IntPart(s)), Magnitude(s);
      if m <= MAX64 {
        WrapIn(m);
        WrapIn(-m);
      } else if v <= 922_337_203 {
        WrapPast(m);
      }
    }
  }

  // ---------------------------------------------------------------- the engine's parser

  /** Overflow stands for undefined behaviour of signed arithmetic. */
  datatype Scanned = Exactly(value: int) | Invalid | Overflow

  function Scan(digits: string): Scanned {
    if digits == [] then Exactly(0)
    else
      match Scan(digits[..|digits| - 1])
      case Exactly(v) =>
        var c := digits[|digits| - 1];
        if !IsDigit(c) then Invalid
        else if v * 10 + DigitValue(c) > MAX64 then Overflow
        else Exactly(v * 10 + DigitValue(c))
      case other => other
  }

  function Combine(negative: bool, i: int, f: int): Scanned {
    if i * SCALE + f > MAX64 then Overflow else Exactly(if negative then -(i * SCALE + f) else i * SCALE + f)
  }

  function ParseFixedPoint(s: string): Scanned {
    if s == [] || |FracPart(s)| > SCALE_DIGITS then Invalid
    else
      match Scan(IntPart(s))
      case Exactly(i) =>
        (match Scan(FracPart(s))
         case Exactly(f) => Combine(Negative(s), i, f * Pow10(SCALE_DIGITS - |FracPart(s)|))
         case other => other)
      case other => other
  }

  lemma {:induction false} ScanMeaning(digits: string)
    ensures Scan(digits).Exactly? <==> AllDigits(digits) && Value(digits) <= MAX64
    ensures Scan(digits).Exactly? ==> Scan(digits).value == Value(digits)
    ensures Scan(digits).Invalid? ==> !AllDigits(digits)
    decreases |digits|
  {
    if digits != [] {
      var pre := digits[..|digits| - 1];
      ScanMeaning(pre);
      if AllDigits(digits) {
        ValueBounds(pre);
        PrefixIsSmaller(digits, |pre|);
      }
    }
  }

  /** Whenever the exact value of well-formed text fits (in magnitude), both languages accept
      it with that value and the engine computes it without overflow. */
  lemma ParsersAgree(s: string)
    requires WellFormed(s) && Magnitude(s) <= MAX64
    ensures ParseTicks(s) == Ok(Exact(s)) && ParseFixedPoint(s) == Exactly(Exact(s))
  {
    MagnitudeBounds(s);
    ParseIsExactIff(s);
    ScanMeaning(IntPart(s));
    ScanMeaning(FracPart(s));
    ScaledFraction(FracPart(s));
  }

  /** Ill-formed text is never given a value by either. */
  lemma ParsersReject(s: string)
    requires !WellFormed(s)
    ensures ParseTicks(s).Bad? && !ParseFixedPoint(s).Exactly?
  {
    ScanMeaning(IntPart(s));
    ScanMeaning(FracPart(s));
  }

  // ---------------------------------------------------------------- printing

  function Abs(x: int): nat { if x < 0 then -x else x }

  /** The engine's printer (defined for every value whose negation exists). */
  function FormatFixedPoint(ticks: int): string {
    (if ticks < 0 then "-" else "") + Numeral(Abs(ticks) / SCALE) + "." + Pad(Numeral(Abs(ticks) % SCALE), SCALE_DIGITS)
  }

  function SignedNumeral(x: int): string { if x < 0 then "-" + Numeral(-x) else Numeral(x) }

  /** Zero padding to a width, the sign counted in. */
  function SignedPad(x: int, width: nat): string {
    if x < 0 then "-" + Pad(Numeral(-x), if width == 0 then 0 else width - 1) else Pad(Numeral(x), width)
  }

  /** The backend's printer, in wrapping arithmetic with truncating division. */
  function FormatTicks(ticks: int): string {
    var abs := if ticks < 0 then Wrap(-ticks) else ticks;
    var q := TruncatedDiv(abs, SCALE);
    (if ticks < 0 then "-" else "") + SignedNumeral(q) + "." + SignedPad(abs - q * SCALE, SCALE_DIGITS)
  }

  lemma {:induction false} DotAfter(a: string, b: string)
    requires forall i :: 0 <= i < |a| ==> a[i] != '.'
    ensures DotIndex(a + "." + b) == |a|
    decreases |a|
  {
    if a == [] {
      assert a + "." + b == "." + b;
    } else {
      DotAfter(a[1..], b);
      assert (a + "." + b)[1..] == a[1..] + "." + b;
    }
  }

  /** Text made of an optional minus, a numeral, a dot and ten digits. */
  lemma TextShape(negative: bool, a: string, b: string)
    requires AllDigits(a) && a != [] && AllDigits(b)
    ensures var s := (if negative then "-" else "") + a + "." + b;
      IntPart(s) == a && FracPart(s) == b && (Negative(s) <==> negative) && s != []
  {
    var s := (if negative then "-" else "") + a + "." + b;
    DotAfter(a, b);
    var body := a + "." + b;
    if negative {
      assert s == "-" + body && s[1..] == body;
    } else {
      assert s == body && s[0] == a[0];
    }
    assert Body(s) == body;
    assert body[..|a|] == a && body[|a| + 1..] == b;
  }

  lemma FormatShape(ticks: int)
    ensures var s := FormatFixedPoint(ticks);
      WellFormed(s) && Magnitude(s) == Abs(ticks) && (Negative(s) <==> ticks < 0)
      && IntPart(s) == Numeral(Abs(ticks) / SCALE) && FracPart(s) == Pad(Numeral(Abs(ticks) % SCALE), SCALE_DIGITS)
  {
    var n := Abs(ticks);
    PowTen();
    NumeralMeaning(n / SCALE);
    PadMeaning(n % SCALE, SCALE_DIGITS);
    TextShape(ticks < 0, Numeral(n / SCALE), Pad(Numeral(n % SCALE), SCALE_DIGITS));
    assert Pow10(0) == 1;
  }

  lemma PrintersAgree(ticks: int)
    requires MIN64 < ticks <= MAX64
    ensures FormatTicks(ticks) == FormatFixedPoint(ticks)
  {
    if ticks < 0 { WrapIn(-ticks); }
  }

  /** The text of the most negative value has a stray sign inside and is rejected. */
  lemma MostNegativeDoesNotRoundTrip()
    ensures ParseTicks(FormatTicks(MIN64)).Bad?
  {
    var s := FormatTicks(MIN64);
    assert Wrap(-MIN64) == MIN64;
    var q := TruncatedDiv(MIN64, SCALE);
    assert q < 0;
    assert s[0] == '-' && s[1] == '-';
    assert Body(s)[0] == '-';
    assert DotIndex(Body(s)) > 0;
    assert !IsDigit(IntPart(s)[0]);
  }

  /** Parsing what was printed gives the value back, for every 64-bit value but the most
      negative one, in both languages. */
  lemma RoundTripIff(ticks: int)
    requires Int64(ticks)
    ensures ParseTicks(FormatTicks(ticks)) == Ok(ticks) <==> ticks != MIN64
    ensures ticks != MIN64 ==> ParseFixedPoint(FormatFixedPoint(ticks)) == Exactly(ticks)
  {
    if ticks == MIN64 {
      MostNegativeDoesNotRoundTrip();
    } else {
      PrintersAgree(ticks);
      FormatShape(ticks);
      ParsersAgree(FormatFixedPoint(ticks));
    }
  }

  /** The smallest amount above the range, 922337203.6854775808, parses as the most negative
      value instead of failing. */
  lemma ParseWrapsAboveTheRange()
    ensures ParseTicks(FormatFixedPoint(MAX64 + 1)) == Ok(MIN64)
  {
    FormatShape(MAX64 + 1);
    MagnitudeBounds(FormatFixedPoint(MAX64 + 1));
  }

  /** Different values print differently. */
  lemma FormatIsInjective(a: int, b: int)
    requires MIN64 < a <= MAX64 && MIN64 < b <= MAX64 && FormatFixedPoint(a) == FormatFixedPoint(b)
    ensures a == b
  {
    RoundTripIff(a);
    RoundTripIff(b);
  }
}
