/** The text whose CRC the engine compares with the exchange's checksum. */
module Checksum {
  import opened Basics
  import opened Decimal
  import opened FixedPoint
  import opened OrderBook

  const CHECKSUM_DEPTH: nat := 10

  function RemoveDots(s: string): string {
    if s == [] then []
    else RemoveDots(s[..|s| - 1]) + (if s[|s| - 1] == '.' then [] else [s[|s| - 1]])
  }

  lemma {:induction false} RemoveDotsConcat(a: string, b: string)
    ensures RemoveDots(a + b) == RemoveDots(a) + RemoveDots(b)
    decreases |b|
  {
    if b == [] {
      assert a + b == a;
    } else {
      RemoveDotsConcat(a, b[..|b| - 1]);
      assert (a + b)[..|a + b| - 1] == a + b[..|b| - 1];
    }
  }

  lemma {:induction false} RemoveDotsFromDigits(s: string)
    requires AllDigits(s)
    ensures RemoveDots(s) == s
    decreases |s|
  {
    if s != [] { RemoveDotsFromDigits(s[..|s| - 1]); }
  }

  function StripForChecksum(s: string): string { StripZeros(RemoveDots(s)) }

  /** Copy everything but dots, then skip to the first character that is not a zero. */
  method Strip(s: string) returns (r: string)
    ensures r == StripForChecksum(s)
  {
    var result := "";
    for i := 0 to |s|
      invariant result == RemoveDots(s[..i])
    {
      assert s[..i + 1][..i] == s[..i];
      if s[i] != '.' {
        result := result + [s[i]];
      }
    }
    assert s[..|s|] == s;
    var firstNonZero := 0;
    assert result[0..] == result;
    while firstNonZero < |result| && result[firstNonZero] == '0'
      invariant 0 <= firstNonZero <= |result|
      invariant StripZeros(result[firstNonZero..]) == StripZeros(result)
    {
      assert result[firstNonZero..][1..] == result[firstNonZero + 1..];
      firstNonZero := firstNonZero + 1;
    }
    if firstNonZero == |result| {
      return "0";
    }
    return result[firstNonZero..];
  }

  /** Print at full scale, then cut after the native number of decimals. */
  function FormatAtNativePrecision(ticks: int, decimals: nat): string {
    var full := FormatFixedPoint(ticks);
    var dot := DotIndex(full);
    if decimals == 0 then full[..dot]
    else if dot + 1 + decimals <= |full| then full[..dot + 1 + decimals] else full
  }

  /** What goes into the buffer for one price or quantity. */
  function Digits(ticks: int, decimals: nat): string {
    StripForChecksum(FormatAtNativePrecision(ticks, decimals))
  }

  lemma NonNegativeText(ticks: nat)
    ensures var a, b := Numeral(ticks / SCALE), Pad(Numeral(ticks % SCALE), SCALE_DIGITS);
      && FormatFixedPoint(ticks) == a + "." + b
      && AllDigits(a) && Value(a) == ticks / SCALE
      && AllDigits(b) && |b| == SCALE_DIGITS && Value(b) == ticks % SCALE
      && DotIndex(a + "." + b) == |a|
  {
    PowTen();
    var a, b := Numeral(ticks / SCALE), Pad(Numeral(ticks % SCALE), SCALE_DIGITS);
    NumeralMeaning(ticks / SCALE);
    PadMeaning(ticks % SCALE, SCALE_DIGITS);
    DotAfter(a, b);
    assert "" + a + "." + b == a + "." + b;
  }

  lemma CutText(a: string, b: string, d: nat)
    requires AllDigits(a) && AllDigits(b) && d <= |b|
    ensures RemoveDots((a + "." + b)[..|a| + 1 + d]) == a + b[..d]
    ensures RemoveDots((a + "." + b)[..|a|]) == a
  {
    assert (a + "." + b)[..|a| + 1 + d] == a + "." + b[..d];
    assert (a + "." + b)[..|a|] == a;
    RemoveDotsConcat(a + ".", b[..d]);
    RemoveDotsConcat(a, ".");
    RemoveDotsFromDigits(a);
    RemoveDotsFromDigits(b[..d]);
    assert "."[..0] == [];
    assert RemoveDots(".") == [];
  }

  lemma ScaledQuotient(q: int, r: int, scale: int, p: int, n: int)
    requires scale == p * n && p > 0 && n > 0 && 0 <= r < scale
    ensures (q * scale + r) / p == q * n + r / p
  {
    var x := r / p;
    assert r == x * p + r % p;
    assert q * scale == (q * n) * p by { assert q * (p * n) == (q * n) * p; }
    assert q * scale + r == (q * n + x) * p + r % p by {
      assert (q * n + x) * p == (q * n) * p + x * p;
    }
    QuotientOf(q * n + x, p, r % p);
  }

  lemma NativeText(ticks: nat, a: string, b: string, d: nat)
    requires d <= SCALE_DIGITS == |b| && AllDigits(a) && AllDigits(b)
    requires FormatFixedPoint(ticks) == a + "." + b && DotIndex(a + "." + b) == |a|
    ensures RemoveDots(FormatAtNativePrecision(ticks, d)) == a + b[..d]
  {
    CutText(a, b, d);
    assert d == 0 ==> a + b[..d] == a;
  }

  /** An integer part and the first d of ten decimals, read as one digit string. */
  lemma NativeValue(a: string, b: string, d: nat, ticks: nat)
    requires d <= SCALE_DIGITS == |b| && AllDigits(b)
    requires Value(a) == ticks / SCALE && Value(b) == ticks % SCALE
    ensures Pow10(SCALE_DIGITS - d) > 0 && Value(a + b[..d]) == ticks / Pow10(SCALE_DIGITS - d)
  {
    var p, n := Pow10(SCALE_DIGITS - d), Pow10(d);
    assert p * n == SCALE by {
      PowTen();
      Pow10Add(SCALE_DIGITS - d, d);
    }
    Pow10Positive(SCALE_DIGITS - d);
    Pow10Positive(d);
    ValueOfPrefix(b, d);
    ValueConcat(a, b[..d]);
    ScaledQuotient(ticks / SCALE, ticks % SCALE, SCALE, p, n);
  }

  /** For every non-negative tick value and native precision 0 to 10: format, cut, remove the
      dot and strip zeros is the canonical numeral of the ticks in native units. */
  lemma DigitsAreNativeNumeral(ticks: nat, decimals: nat)
    requires decimals <= SCALE_DIGITS
    ensures Pow10(SCALE_DIGITS - decimals) > 0
    ensures Digits(ticks, decimals) == Numeral(ticks / Pow10(SCALE_DIGITS - decimals))
  {
    var a, b := Numeral(ticks / SCALE), Pad(Numeral(ticks % SCALE), SCALE_DIGITS);
    NonNegativeText(ticks);
    NativeText(ticks, a, b, decimals);
    NativeValue(a, b, decimals, ticks);
    StripIsNumeral(a + b[..decimals]);
  }

  // ---------------------------------------------------------------- the whole text

  function LevelText(l: Level, priceDecimals: nat, quantityDecimals: nat): string {
    Digits(l.price, priceDecimals) + Digits(l.qty, quantityDecimals)
  }

  function LevelsText(levels: seq<Level>, n: nat, priceDecimals: nat, quantityDecimals: nat): string
    requires n <= |levels|
  {
    if n == 0 then []
    else LevelsText(levels, n - 1, priceDecimals, quantityDecimals)
         + LevelText(levels[n - 1], priceDecimals, quantityDecimals)
  }

  /** Asks first, then bids, at most ten levels of each. */
  function ChecksumText(asks: seq<Level>, bids: seq<Level>, priceDecimals: nat, quantityDecimals: nat): string {
    LevelsText(asks, Min(|asks|, CHECKSUM_DEPTH), priceDecimals, quantityDecimals)
    + LevelsText(bids, Min(|bids|, CHECKSUM_DEPTH), priceDecimals, quantityDecimals)
  }

  lemma Regrouped(a: string, b: string, c: string)
    ensures (a + b) + c == a + (b + c)
  {
  }

  method AppendLevel(buffer: string, l: Level, priceDecimals: nat, quantityDecimals: nat) returns (r: string)
    ensures r == buffer + LevelText(l, priceDecimals, quantityDecimals)
  {
    var price := Strip(FormatAtNativePrecision(l.price, priceDecimals));
    var qty := Strip(FormatAtNativePrecision(l.qty, quantityDecimals));
    r := buffer + price;
    r := r + qty;
    Regrouped(buffer, price, qty);
  }

  method AppendLevels(buffer: string, levels: seq<Level>, priceDecimals: nat, quantityDecimals: nat)
      returns (r: string)
    ensures r == buffer + LevelsText(levels, Min(|levels|, CHECKSUM_DEPTH), priceDecimals, quantityDecimals)
  {
    r := buffer;
    var n := Min(|levels|, CHECKSUM_DEPTH);
    for i := 0 to n
      invariant r == buffer + LevelsText(levels, i, priceDecimals, quantityDecimals)
    {
      Regrouped(buffer, LevelsText(levels, i, priceDecimals, quantityDecimals),
                LevelText(levels[i], priceDecimals, quantityDecimals));
      r := AppendLevel(r, levels[i], priceDecimals, quantityDecimals);
    }
  }

  method ComputeBookChecksum(crc: string -> nat, asks: seq<Level>, bids: seq<Level>, priceDecimals: nat, quantityDecimals: nat)
      returns (checksum: nat)
    ensures checksum == crc(ChecksumText(asks, bids, priceDecimals, quantityDecimals))
    ensures priceDecimals <= SCALE_DIGITS && quantityDecimals <= SCALE_DIGITS && NonNegative(asks) && NonNegative(bids) ==>
      checksum == crc(SpelledOut(Top(asks), priceDecimals, quantityDecimals)
                      + SpelledOut(Top(bids), priceDecimals, quantityDecimals))
  {
    var buffer := AppendLevels("", asks, priceDecimals, quantityDecimals);
    buffer := AppendLevels(buffer, bids, priceDecimals, quantityDecimals);
    assert "" + LevelsText(asks, Min(|asks|, CHECKSUM_DEPTH), priceDecimals, quantityDecimals)
        == LevelsText(asks, Min(|asks|, CHECKSUM_DEPTH), priceDecimals, quantityDecimals);
    if priceDecimals <= SCALE_DIGITS && quantityDecimals <= SCALE_DIGITS && NonNegative(asks) && NonNegative(bids) {
      ChecksumSpellsTheBook(asks, bids, priceDecimals, quantityDecimals);
    }
    checksum := crc(buffer);
  }

  lemma {:induction false} SameTopSameText(a: seq<Level>, b: seq<Level>, n: nat, priceDecimals: nat, quantityDecimals: nat)
    requires n <= |a| && n <= |b| && a[..n] == b[..n]
    ensures LevelsText(a, n, priceDecimals, quantityDecimals) == LevelsText(b, n, priceDecimals, quantityDecimals)
    decreases n
  {
    if n > 0 {
      assert a[n - 1] == a[..n][n - 1] && b[n - 1] == b[..n][n - 1];
      assert a[..n - 1] == a[..n][..n - 1] && b[..n - 1] == b[..n][..n - 1];
      SameTopSameText(a, b, n - 1, priceDecimals, quantityDecimals);
    }
  }

  function Top(levels: seq<Level>): seq<Level> { levels[..Min(|levels|, CHECKSUM_DEPTH)] }

  /** The text depends on nothing but the ten best levels of each side. */
  lemma OnlyTheTopCounts(asks: seq<Level>, bids: seq<Level>, asks': seq<Level>, bids': seq<Level>,
                         priceDecimals: nat, quantityDecimals: nat)
    requires Top(asks) == Top(asks') && Top(bids) == Top(bids')
    ensures ChecksumText(asks, bids, priceDecimals, quantityDecimals)
         == ChecksumText(asks', bids', priceDecimals, quantityDecimals)
  {
    assert |Top(asks)| == Min(|asks|, CHECKSUM_DEPTH) == Min(|asks'|, CHECKSUM_DEPTH);
    assert |Top(bids)| == Min(|bids|, CHECKSUM_DEPTH) == Min(|bids'|, CHECKSUM_DEPTH);
    SameTopSameText(asks, asks', Min(|asks|, CHECKSUM_DEPTH), priceDecimals, quantityDecimals);
    SameTopSameText(bids, bids', Min(|bids|, CHECKSUM_DEPTH), priceDecimals, quantityDecimals);
  }

  // ---------------------------------------------------------------- the text in numerals

  ghost predicate NonNegative(levels: seq<Level>) {
    forall i :: 0 <= i < |levels| ==> levels[i].price >= 0 && levels[i].qty >= 0
  }

  /** The numeral of a tick value in native units of 10^-decimals. */
  function Spelled(ticks: nat, decimals: nat): string
    requires decimals <= SCALE_DIGITS
  {
    Pow10Positive(SCALE_DIGITS - decimals);
    Numeral(ticks / Pow10(SCALE_DIGITS - decimals))
  }

  /** Price, then quantity. */
  function SpelledLevel(l: Level, priceDecimals: nat, quantityDecimals: nat): string
    requires priceDecimals <= SCALE_DIGITS && quantityDecimals <= SCALE_DIGITS && l.price >= 0 && l.qty >= 0
  {
    Spelled(l.price, priceDecimals) + Spelled(l.qty, quantityDecimals)
  }

  lemma LevelIsSpelled(l: Level, priceDecimals: nat, quantityDecimals: nat)
    requires priceDecimals <= SCALE_DIGITS && quantityDecimals <= SCALE_DIGITS && l.price >= 0 && l.qty >= 0
    ensures LevelText(l, priceDecimals, quantityDecimals) == SpelledLevel(l, priceDecimals, quantityDecimals)
  {
    DigitsAreNativeNumeral(l.price, priceDecimals);
    DigitsAreNativeNumeral(l.qty, quantityDecimals);
  }

  /** Level by level from the best. */
  function SpelledOut(levels: seq<Level>, priceDecimals: nat, quantityDecimals: nat): string
    requires priceDecimals <= SCALE_DIGITS && quantityDecimals <= SCALE_DIGITS && NonNegative(levels)
  {
    if levels == [] then ""
    else SpelledOut(levels[..|levels| - 1], priceDecimals, quantityDecimals)
         + SpelledLevel(levels[|levels| - 1], priceDecimals, quantityDecimals)
  }

  lemma {:induction false} LevelsAreSpelledOut(levels: seq<Level>, n: nat, priceDecimals: nat, quantityDecimals: nat)
    requires priceDecimals <= SCALE_DIGITS && quantityDecimals <= SCALE_DIGITS && n <= |levels| && NonNegative(levels)
    ensures LevelsText(levels, n, priceDecimals, quantityDecimals)
         == SpelledOut(levels[..n], priceDecimals, quantityDecimals)
    decreases n
  {
    if n > 0 {
      LevelsAreSpelledOut(levels, n - 1, priceDecimals, quantityDecimals);
      LevelIsSpelled(levels[n - 1], priceDecimals, quantityDecimals);
      assert levels[..n][..n - 1] == levels[..n - 1];
    }
  }

  /** The text of a book: the ten best asks and then the ten best bids, each level its price
      and its quantity as canonical numerals in the exchange's own units. */
  lemma ChecksumSpellsTheBook(asks: seq<Level>, bids: seq<Level>, priceDecimals: nat, quantityDecimals: nat)
    requires priceDecimals <= SCALE_DIGITS && quantityDecimals <= SCALE_DIGITS && NonNegative(asks) && NonNegative(bids)
    ensures ChecksumText(asks, bids, priceDecimals, quantityDecimals)
         == SpelledOut(Top(asks), priceDecimals, quantityDecimals) + SpelledOut(Top(bids), priceDecimals, quantityDecimals)
  {
    LevelsAreSpelledOut(asks, Min(|asks|, CHECKSUM_DEPTH), priceDecimals, quantityDecimals);
    LevelsAreSpelledOut(bids, Min(|bids|, CHECKSUM_DEPTH), priceDecimals, quantityDecimals);
  }
}
