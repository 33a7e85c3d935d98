/** The money formatter that the donation pages share (each page carries its own
    verbatim copy): amounts are typed as digits, shown as `<reais>,<centavos>`
    and stored as an integer number of cents. */
module Money {

  predicate IsDigit(c: char) {
    '0' <= c <= '9'
  }

  predicate IsDigitString(s: string) {
    forall i :: 0 <= i < |s| ==> IsDigit(s[i])
  }

  /** `s.replace(/[^\d]/g, '')`: the digits of `s`, in order. */
  function Digits(s: string): (d: string)
    ensures IsDigitString(d) && |d| <= |s|
  {
    if s == [] then []
    else Digits(s[..|s| - 1]) + (if IsDigit(s[|s| - 1]) then [s[|s| - 1]] else [])
  }

  function DigitValue(c: char): (v: nat)
    requires IsDigit(c)
    ensures v < 10
  {
    (c as int) - ('0' as int)
  }

  function DigitChar(v: nat): (c: char)
    requires v < 10
    ensures IsDigit(c) && DigitValue(c) == v
  {
    (('0' as int) + v) as char
  }

  /** `parseInt(d)` of a string of decimal digits (leading zeros allowed);
      the empty string is given the value 0. */
  function ValueOf(d: string): nat
    requires IsDigitString(d)
  {
    if d == [] then 0 else 10 * ValueOf(d[..|d| - 1]) + DigitValue(d[|d| - 1])
  }

  function Pow10(n: nat): (p: nat)
    ensures p >= 1
  {
    if n == 0 then 1 else 10 * Pow10(n - 1)
  }

  /** `n.toString()` for a non-negative integer: the canonical decimal form. */
  function NatToString(n: nat): (s: string)
    ensures IsCanonical(s)
  {
    if n < 10 then [DigitChar(n)]
    else
      var p := NatToString(n / 10);
      assert (p + [DigitChar(n % 10)])[0] == p[0];
      p + [DigitChar(n % 10)]
  }

  /** A decimal numeral without superfluous leading zeros. */
  predicate IsCanonical(s: string) {
    IsDigitString(s) && |s| >= 1 && (s[0] == '0' ==> |s| == 1)
  }

  /** `n.toString().padStart(2, '0')` for `n < 100`. */
  function Pad2(n: nat): (s: string)
    requires n < 100
    ensures |s| == 2 && IsDigitString(s)
  {
    if n < 10 then ['0', DigitChar(n)] else [DigitChar(n / 10), DigitChar(n % 10)]
  }

  /** The shape the formatter produces: a canonical integer part, a comma and
      exactly two digits of cents. */
  predicate IsDisplayAmount(r: string) {
    |r| >= 4 && r[|r| - 3] == ',' && IsCanonical(r[..|r| - 3]) && IsDigitString(r[|r| - 2..])
  }

  /** The number of cents a display amount stands for. */
  function DisplayCents(r: string): nat
    requires IsDisplayAmount(r)
  {
    100 * ValueOf(r[..|r| - 3]) + ValueOf(r[|r| - 2..])
  }

  /** `formatCurrency`: the digits of the input are read as a number of cents and
      shown as `<reais>,<centavos>`; no digits, `"0"` and `"00"` give the empty
      string. */
  function FormatCurrency(value: string): (r: string)
    ensures r == "" <==> Digits(value) in {"", "0", "00"}
    ensures r != "" ==> IsDisplayAmount(r) && DisplayCents(r) == ValueOf(Digits(value))
  {
    var numericValue := Digits(value);
    if numericValue == "" || numericValue == "0" || numericValue == "00" then ""
    else
      var cents := ValueOf(numericValue);
      var r := NatToString(cents / 100) + "," + Pad2(cents % 100);
      assert r[..|r| - 3] == NatToString(cents / 100);
      assert r[|r| - 2..] == Pad2(cents % 100);
      ValueOfNatToString(cents / 100);
      ValueOfPad2(cents % 100);
      r
  }

  /** `parseValueToCents`: the digits of the input as an integer; 0 when there are
      none. */
  function ParseValueToCents(value: string): (r: nat)
    ensures r == ValueOf(Digits(value))
    ensures r < Pow10(|Digits(value)|)
  {
    ValueOfBound(Digits(value));
    if value == "" then 0
    else
      var numericValue := Digits(value);
      if numericValue == "" then ValueOf("0") else ValueOf(numericValue)
  }

  // ---------------------------------------------------------------------------
  // Properties of the formatter

  /** Formatting keeps the amount: the cents read back from the formatted text are
      the cents the typed text stood for (for the empty result too, whose value is
      0 like that of `""`, `"0"` and `"00"`). */
  lemma FormatCurrencyRoundTrip(value: string)
    ensures ParseValueToCents(FormatCurrency(value)) == ParseValueToCents(value)
  {
    var r := FormatCurrency(value);
    if r != "" {
      DisplayAmountParses(r);
    } else {
      assert ValueOf("0") == 0;
      assert ValueOf("00") == 0 by { assert "00"[..1] == "0"; }
    }
  }

  /** Every display amount is a fixed point of the formatter. */
  lemma DisplayAmountIsFixedPoint(r: string)
    requires IsDisplayAmount(r)
    ensures FormatCurrency(r) == r
  {
    var n := |r|;
    var intPart, centsPart := r[..n - 3], r[n - 2..];
    assert r == intPart + [','] + centsPart;
    DigitsAppend(intPart + [','], centsPart);
    DigitsAppend(intPart, [',']);
    DigitsOfDigitString(intPart);
    DigitsOfDigitString(centsPart);
    assert Digits([',']) == [] by { assert [','][..0] == []; }
    var d := Digits(r);
    assert d == intPart + centsPart;
    ValueOfAppend(intPart, centsPart);
    var cents := ValueOf(d);
    assert cents == ValueOf(intPart) * 100 + ValueOf(centsPart);
    ValueOfBound(centsPart);
    assert cents / 100 == ValueOf(intPart) && cents % 100 == ValueOf(centsPart);
    NatToStringOfValue(intPart);
    Pad2OfValue(centsPart);
  }

  /** `formatCurrency` is idempotent. */
  lemma FormatCurrencyIdempotent(value: string)
    ensures FormatCurrency(FormatCurrency(value)) == FormatCurrency(value)
  {
    var r := FormatCurrency(value);
    if r == "" {
      assert Digits("") == "";
    } else {
      DisplayAmountIsFixedPoint(r);
    }
  }

  /** A positive amount in cents, written as digits and shown in the field,
      is non-empty and reads back as the same amount. */
  lemma FormattedCentsParse(n: nat)
    requires n > 0
    ensures FormatCurrency(NatToString(n)) != ""
    ensures ParseValueToCents(FormatCurrency(NatToString(n))) == n
  {
    var d := NatToString(n);
    DigitsOfDigitString(d);
    ValueOfNatToString(n);
    FormatCurrencyRoundTrip(d);
  }

  /** `parseValueToCents` ignores every character that is not a digit. */
  lemma ParseIgnoresNonDigits(value: string)
    ensures ParseValueToCents(value) == ParseValueToCents(Digits(value))
  {
    DigitsOfDigitString(Digits(value));
  }

  /** The cents a display amount stands for are what `parseValueToCents` reads. */
  lemma DisplayAmountParses(r: string)
    requires IsDisplayAmount(r)
    ensures ParseValueToCents(r) == DisplayCents(r)
  {
    var n := |r|;
    var intPart, centsPart := r[..n - 3], r[n - 2..];
    assert r == intPart + [','] + centsPart;
    DigitsAppend(intPart + [','], centsPart);
    DigitsAppend(intPart, [',']);
    DigitsOfDigitString(intPart);
    DigitsOfDigitString(centsPart);
    assert Digits([',']) == [] by { assert [','][..0] == []; }
    assert Digits(r) == intPart + centsPart;
    ValueOfAppend(intPart, centsPart);
  }

  // ---------------------------------------------------------------------------
  // Helper facts about digit strings

  lemma {:induction false} DigitsAppend(a: string, b: string)
    ensures Digits(a + b) == Digits(a) + Digits(b)
  {
    if b == [] {
      assert a + b == a;
    } else {
      assert (a + b)[..|a + b| - 1] == a + b[..|b| - 1];
      DigitsAppend(a, b[..|b| - 1]);
    }
  }

  lemma {:induction false} DigitsOfDigitString(d: string)
    requires IsDigitString(d)
    ensures Digits(d) == d
  {
    if d != [] {
      DigitsOfDigitString(d[..|d| - 1]);
    }
  }

  lemma {:induction false} ValueOfBound(d: string)
    requires IsDigitString(d)
    ensures ValueOf(d) < Pow10(|d|)
  {
    if d != [] {
      ValueOfBound(d[..|d| - 1]);
    }
  }

  lemma {:induction false} ValueOfAppend(a: string, b: string)
    requires IsDigitString(a) && IsDigitString(b)
    ensures IsDigitString(a + b)
    ensures ValueOf(a + b) == ValueOf(a) * Pow10(|b|) + ValueOf(b)
  {
    if b == [] {
      assert a + b == a;
    } else {
      var b' := b[..|b| - 1];
      assert (a + b)[..|a + b| - 1] == a + b';
      ValueOfAppend(a, b');
      var x, p, y, d := ValueOf(a), Pow10(|b'|), ValueOf(b'), DigitValue(b[|b| - 1]);
      assert ValueOf(a + b) == 10 * ValueOf(a + b') + d;
      assert ValueOf(b) == 10 * y + d;
      assert Pow10(|b|) == 10 * p;
      ScaleByTen(x, p);
    }
  }

  lemma ScaleByTen(x: int, p: int)
    ensures 10 * (x * p) == x * (10 * p)
  {
  }

  lemma {:induction false} ValueOfNatToString(n: nat)
    ensures ValueOf(NatToString(n)) == n
  {
    if n >= 10 {
      var p := NatToString(n / 10);
      ValueOfNatToString(n / 10);
      assert (p + [DigitChar(n % 10)])[..|p|] == p;
    }
  }

  lemma ValueOfPad2(n: nat)
    requires n < 100
    ensures ValueOf(Pad2(n)) == n
  {
    var s := Pad2(n);
    ValueOfTwoDigits(s);
  }

  lemma ValueOfTwoDigits(t: string)
    requires |t| == 2 && IsDigitString(t)
    ensures ValueOf(t) == 10 * DigitValue(t[0]) + DigitValue(t[1])
  {
    assert t[..1][..0] == [];
    assert ValueOf(t[..1]) == DigitValue(t[0]);
  }

  lemma {:induction false} ValueOfPositive(t: string)
    requires IsDigitString(t) && t != [] && t[0] != '0'
    ensures ValueOf(t) > 0
  {
    if |t| > 1 {
      ValueOfPositive(t[..|t| - 1]);
    }
  }

  /** Canonical numerals are exactly what `toString` produces. */
  lemma {:induction false} NatToStringOfValue(t: string)
    requires IsCanonical(t)
    ensures NatToString(ValueOf(t)) == t
  {
    if |t| > 1 {
      var p := t[..|t| - 1];
      var c := t[|t| - 1];
      assert p[0] == t[0];
      ValueOfPositive(p);
      NatToStringOfValue(p);
      var v := ValueOf(t);
      assert v == 10 * ValueOf(p) + DigitValue(c);
      assert v / 10 == ValueOf(p) && v % 10 == DigitValue(c);
      assert DigitChar(DigitValue(c)) == c;
      assert t == p + [c];
    } else {
      assert t[..0] == [];
      assert DigitChar(DigitValue(t[0])) == t[0];
    }
  }

  lemma Pad2OfValue(t: string)
    requires |t| == 2 && IsDigitString(t)
    ensures ValueOf(t) < 100 && Pad2(ValueOf(t)) == t
  {
    ValueOfTwoDigits(t);
    assert DigitChar(DigitValue(t[0])) == t[0];
    assert DigitChar(DigitValue(t[1])) == t[1];
  }
}
