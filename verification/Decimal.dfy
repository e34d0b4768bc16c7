/** Decimal digit strings, their values, and the canonical numeral of a number. */
module Decimal {

  predicate IsDigit(c: char) { '0' <= c <= '9' }

  function DigitValue(c: char): int { c as int - '0' as int }

  function DigitChar(d: nat): char
    requires d < 10
  {
    ('0' as int + d) as char
  }

  predicate AllDigits(s: string) { forall i :: 0 <= i < |s| ==> IsDigit(s[i]) }

  function Value(s: string): int {
    if s == [] then 0 else Value(s[..|s| - 1]) * 10 + DigitValue(s[|s| - 1])
  }

  function Pow10(n: nat): nat { if n == 0 then 1 else 10 * Pow10(n - 1) }

  function Numeral(n: nat): string {
    if n < 10 then [DigitChar(n)] else Numeral(n / 10) + [DigitChar(n % 10)]
  }

  function Zeros(n: nat): string { seq(n, _ => '0') }

  function Pad(s: string, width: nat): string {
    if |s| < width then Zeros(width - |s|) + s else s
  }

  /** Drop leading zeros; nothing left means zero. */
  function StripZeros(s: string): string {
    if s == [] then "0" else if s[0] == '0' then StripZeros(s[1..]) else s
  }

  lemma {:induction false} Pow10Positive(n: nat)
    ensures Pow10(n) > 0
    decreases n
  {
    if n > 0 { Pow10Positive(n - 1); }
  }

  lemma {:induction false} Pow10Add(m: nat, n: nat)
    ensures Pow10(m + n) == Pow10(m) * Pow10(n)
    decreases n
  {
    if n > 0 {
      Pow10Add(m, n - 1);
      assert Pow10(m + n) == 10 * Pow10(m + n - 1);
      assert 10 * (Pow10(m) * Pow10(n - 1)) == Pow10(m) * (10 * Pow10(n - 1));
    }
  }

  lemma ValueSnoc(s: string, c: char)
    ensures Value(s + [c]) == Value(s) * 10 + DigitValue(c)
  {
    assert (s + [c])[..|s + [c]| - 1] == s;
  }

  lemma {:induction false} ValueConcat(a: string, b: string)
    ensures Value(a + b) == Value(a) * Pow10(|b|) + Value(b)
    decreases |b|
  {
    if b == [] {
      assert a + b == a;
    } else {
      var b', c := b[..|b| - 1], b[|b| - 1];
      ValueConcat(a, b');
      assert a + b == (a + b') + [c];
      ValueSnoc(a + b', c);
      var x, p := Value(a), Pow10(|b'|);
      assert (x * p) * 10 == x * (10 * p);
    }
  }

  lemma {:induction false} ValueBounds(s: string)
    requires AllDigits(s)
    ensures 0 <= Value(s) < Pow10(|s|)
    decreases |s|
  {
    if s != [] { ValueBounds(s[..|s| - 1]); }
  }

  lemma {:induction false} ValueOfZeros(n: nat)
    ensures Value(Zeros(n)) == 0
    decreases n
  {
    if n > 0 {
      ValueOfZeros(n - 1);
      assert Zeros(n)[..n - 1] == Zeros(n - 1);
    }
  }

  lemma {:induction false} NumeralMeaning(n: nat)
    ensures Numeral(n) != [] && AllDigits(Numeral(n)) && Value(Numeral(n)) == n
    ensures n > 0 ==> Numeral(n)[0] != '0'
    decreases n
  {
    if n < 10 {
      assert [DigitChar(n)][..0] == [];
    } else {
      NumeralMeaning(n / 10);
      ValueSnoc(Numeral(n / 10), DigitChar(n % 10));
    }
  }

  lemma {:induction false} NumeralLength(n: nat, k: nat)
    requires k > 0 && n < Pow10(k)
    ensures |Numeral(n)| <= k
    decreases n
  {
    if n >= 10 {
      assert k > 1;
      NumeralLength(n / 10, k - 1);
    }
  }

  lemma PadMeaning(n: nat, width: nat)
    requires width > 0 && n < Pow10(width)
    ensures var s := Pad(Numeral(n), width);
      |s| == width && AllDigits(s) && Value(s) == n
  {
    NumeralMeaning(n);
    NumeralLength(n, width);
    var k := width - |Numeral(n)|;
    ValueOfZeros(k);
    ValueConcat(Zeros(k), Numeral(n));
  }

  /** A non-empty digit string without a leading zero is the numeral of its value. */
  lemma {:induction false} NumeralIsCanonical(s: string)
    requires AllDigits(s) && s != [] && (s[0] != '0' || |s| == 1)
    ensures Value(s) >= 0 && Numeral(Value(s)) == s
    ensures s[0] != '0' ==> Value(s) > 0
    decreases |s|
  {
    ValueBounds(s);
    var pre, c := s[..|s| - 1], s[|s| - 1];
    assert s == pre + [c];
    if |s| > 1 {
      NumeralIsCanonical(pre);
      ValueBounds(pre);
      var v := Value(s);
      assert v == Value(pre) * 10 + DigitValue(c) && 0 <= DigitValue(c) < 10;
      assert v / 10 == Value(pre) && v % 10 == DigitValue(c);
    }
  }

  lemma LeadingZero(s: string)
    ensures Value(['0'] + s) == Value(s)
  {
    ValueConcat(['0'], s);
    assert ['0'][..0] == [];
  }

  /** Stripping leading zeros gives the canonical numeral of the value. */
  lemma {:induction false} StripIsNumeral(s: string)
    requires AllDigits(s)
    ensures Value(s) >= 0 && StripZeros(s) == Numeral(Value(s))
    decreases |s|
  {
    ValueBounds(s);
    if s != [] {
      if s[0] == '0' {
        StripIsNumeral(s[1..]);
        assert s == ['0'] + s[1..];
        LeadingZero(s[1..]);
      } else {
        NumeralIsCanonical(s);
      }
    }
  }

  /** Cutting a digit string short divides its value. */
  lemma ValueOfPrefix(s: string, d: nat)
    requires AllDigits(s) && d <= |s|
    ensures Pow10(|s| - d) > 0 && Value(s[..d]) == Value(s) / Pow10(|s| - d)
  {
    var p := Pow10(|s| - d);
    Pow10Positive(|s| - d);
    assert s == s[..d] + s[d..];
    ValueConcat(s[..d], s[d..]);
    ValueBounds(s[d..]);
    QuotientOf(Value(s[..d]), p, Value(s[d..]));
  }

  lemma QuotientOf(q: int, p: int, r: int)
    requires 0 <= r < p
    ensures (q * p + r) / p == q
  {
    var x := (q * p + r) / p;
    assert x * p <= q * p + r < x * p + p;
    assert x + 1 <= q ==> (x + 1) * p <= q * p;
    assert q + 1 <= x ==> (q + 1) * p <= x * p;
  }
}
