/**
 canonical_decimal: the text of a decimal that enters digests and stored documents.
 A finite decimal is (-1)^negative * coefficient * 10^exponent, with any exponent and any trailing zeros.
 */
module CanonicalDecimal {
  import opened Options

  datatype Decimal = NonFinite | Finite(negative: bool, coefficient: nat, exponent: int)

  function Digit(n: nat): char
    requires n < 10
  {
    "0123456789"[n]
  }

  function Digits(n: nat): (s: string)
    ensures |s| >= 1
  {
    if n < 10 then [Digit(n)] else Digits(n / 10) + [Digit(n % 10)]
  }

  function Zeros(n: nat): (s: string)
    ensures |s| == n
  {
    if n == 0 then "" else Zeros(n - 1) + "0"
  }

  /** format(value, "f") without the sign. */
  function Fixed(c: nat, e: int): string {
    var d := Digits(c);
    if e >= 0 then d + Zeros(e)
    else if |d| > -e then d[..|d| + e] + "." + d[|d| + e..]
    else "0." + Zeros(-e - |d|) + d
  }

  function RStrip(s: string, c: char): string {
    if s != "" && s[|s| - 1] == c then RStrip(s[..|s| - 1], c) else s
  }

  function Trimmed(rendered: string): string {
    if '.' in rendered then RStrip(RStrip(rendered, '0'), '.') else rendered
  }

  /** canonical_decimal; None stands for the ValueError. */
  function Canonical(d: Decimal): Option<string> {
    if d.NonFinite? then None
    else if d.coefficient == 0 then Some("0")
    else Some((if d.negative then "-" else "") + Trimmed(Fixed(d.coefficient, d.exponent)))
  }

  // ----- values ------------------------------------------------------------

  function Pow10(n: nat): nat {
    if n == 0 then 1 else 10 * Pow10(n - 1)
  }

  function Signed(d: Decimal): int
    requires d.Finite?
  {
    if d.negative then -(d.coefficient as int) else d.coefficient
  }

  /** The value of a finite decimal in units of 10^m. */
  function InUnits(d: Decimal, m: int): int
    requires d.Finite? && m <= d.exponent
  {
    Signed(d) * Pow10(d.exponent - m)
  }

  function Min(a: int, b: int): int {
    if a <= b then a else b
  }

  /** Numerical equality. */
  predicate SameValue(a: Decimal, b: Decimal)
    requires a.Finite? && b.Finite?
  {
    var m := Min(a.exponent, b.exponent);
    InUnits(a, m) == InUnits(b, m)
  }

  // ----- the normal form ---------------------------------------------------

  /** No positive exponent, and no trailing zero behind the point. */
  function Reduced(c: nat, e: int): (r: (nat, int))
    requires c > 0
    ensures r.0 > 0 && r.1 <= 0 && (r.1 < 0 ==> r.0 % 10 != 0)
    decreases if e < 0 then -e else e
  {
    if e > 0 then Reduced(10 * c, e - 1)
    else if e < 0 && c % 10 == 0 then Reduced(c / 10, e + 1)
    else (c, e)
  }

  function Normal(d: Decimal): Decimal
    requires d.Finite?
  {
    if d.coefficient == 0 then Finite(false, 0, 0)
    else
      var (c, e) := Reduced(d.coefficient, d.exponent);
      Finite(d.negative, c, e)
  }

  lemma Distribute(x: int, p: nat, k: nat)
    ensures x * p * k == x * (p * k)
  {
  }

  lemma {:induction false} PowSum(a: nat, b: nat)
    ensures Pow10(a + b) == Pow10(a) * Pow10(b)
  {
    if a != 0 {
      PowSum(a - 1, b);
      Distribute(10, Pow10(a - 1), Pow10(b));
    }
  }

  lemma SmallerUnits(d: Decimal, m: int, k: nat)
    requires d.Finite? && m <= d.exponent
    ensures InUnits(d, m - k) == InUnits(d, m) * Pow10(k)
  {
    PowSum(d.exponent - m, k);
    Distribute(Signed(d), Pow10(d.exponent - m), Pow10(k));
    assert d.exponent - (m - k) == d.exponent - m + k;
  }

  lemma {:induction false} PowPositive(n: nat)
    ensures Pow10(n) > 0
  {
    if n != 0 { PowPositive(n - 1); }
  }

  lemma MulDifference(x: int, y: int, p: int)
    ensures (y - x) * p == y * p - x * p
  {
  }

  lemma MulAtLeast(k: int, p: int)
    requires p > 0 && k >= 1
    ensures k * p >= p
  {
  }

  lemma ScaledLess(x: int, y: int, p: int)
    requires p > 0 && x < y
    ensures x * p < y * p
  {
    MulDifference(x, y, p);
    MulAtLeast(y - x, p);
  }

  lemma Cancel(x: int, y: int, p: nat)
    requires p > 0 && x * p == y * p
    ensures x == y
  {
    if x < y { ScaledLess(x, y, p); }
    if y < x { ScaledLess(y, x, p); }
  }

  /** Numerical equality does not depend on the unit. */
  lemma SameInUnits(a: Decimal, b: Decimal, m: int)
    requires a.Finite? && b.Finite? && m <= a.exponent && m <= b.exponent
    ensures SameValue(a, b) <==> InUnits(a, m) == InUnits(b, m)
  {
    var n := Min(a.exponent, b.exponent);
    SmallerUnits(a, n, n - m);
    SmallerUnits(b, n, n - m);
    PowPositive(n - m);
    if InUnits(a, m) == InUnits(b, m) {
      Cancel(InUnits(a, n), InUnits(b, n), Pow10(n - m));
    }
  }

  lemma SameIsTransitive(a: Decimal, b: Decimal, c: Decimal)
    requires a.Finite? && b.Finite? && c.Finite? && SameValue(a, b) && SameValue(b, c)
    ensures SameValue(a, c)
  {
    var m := Min(a.exponent, Min(b.exponent, c.exponent));
    SameInUnits(a, b, m);
    SameInUnits(b, c, m);
    SameInUnits(a, c, m);
  }

  lemma TenTimes(negative: bool, c: nat, e: int)
    ensures SameValue(Finite(negative, 10 * c, e - 1), Finite(negative, c, e))
  {
    assert Pow10(1) == 10;
    assert Pow10(0) == 1;
  }

  lemma {:induction false} ReducedKeepsValue(negative: bool, c: nat, e: int)
    requires c > 0
    ensures SameValue(Finite(negative, Reduced(c, e).0, Reduced(c, e).1), Finite(negative, c, e))
    decreases if e < 0 then -e else e
  {
    hide SameValue;
    if e > 0 {
      ReducedKeepsValue(negative, 10 * c, e - 1);
      TenTimes(negative, c, e);
      SameIsTransitive(Finite(negative, Reduced(c, e).0, Reduced(c, e).1), Finite(negative, 10 * c, e - 1), Finite(negative, c, e));
    } else if e < 0 && c % 10 == 0 {
      ReducedKeepsValue(negative, c / 10, e + 1);
      TenTimes(negative, c / 10, e + 1);
      Symmetric(Finite(negative, c, e), Finite(negative, c / 10, e + 1));
      SameIsTransitive(Finite(negative, Reduced(c, e).0, Reduced(c, e).1), Finite(negative, c / 10, e + 1), Finite(negative, c, e));
    } else {
      Reflexive(Finite(negative, c, e));
    }
  }

  lemma Symmetric(a: Decimal, b: Decimal)
    requires a.Finite? && b.Finite? && SameValue(a, b)
    ensures SameValue(b, a)
  {
  }

  lemma Reflexive(a: Decimal)
    requires a.Finite?
    ensures SameValue(a, a)
  {
  }

  lemma NormalKeepsValue(d: Decimal)
    requires d.Finite?
    ensures SameValue(Normal(d), d)
  {
    if d.coefficient != 0 {
      ReducedKeepsValue(d.negative, d.coefficient, d.exponent);
    }
  }

  predicate IsNormal(d: Decimal) {
    d.Finite? && d.exponent <= 0 && (d.exponent < 0 ==> d.coefficient % 10 != 0)
    && (d.coefficient == 0 ==> !d.negative)
  }

  lemma TrailingZero(c: nat, n: nat)
    requires n > 0
    ensures c * Pow10(n) % 10 == 0
  {
    assert c * Pow10(n) == 10 * (c * Pow10(n - 1));
  }

  /** A value in two exponents: the coefficient at the smaller one ends in zeros. */
  lemma CoefficientAtLowerExponent(a: Decimal, b: Decimal)
    requires a.Finite? && b.Finite? && SameValue(a, b) && a.exponent < b.exponent
    ensures a.coefficient == b.coefficient * Pow10(b.exponent - a.exponent)
  {
    var p := Pow10(b.exponent - a.exponent);
    assert Signed(a) == Signed(b) * p by { assert Pow10(0) == 1; }
    assert Signed(b) * p == if b.negative then -(b.coefficient * p) else b.coefficient * p by {
      if b.negative { assert (-(b.coefficient as int)) * p == -(b.coefficient * p); }
    }
    assert b.coefficient * p >= 0;
  }

  lemma NormalOrdered(a: Decimal, b: Decimal)
    requires IsNormal(a) && IsNormal(b) && a.exponent < b.exponent
    ensures !SameValue(a, b)
  {
    hide SameValue;
    if SameValue(a, b) {
      CoefficientAtLowerExponent(a, b);
      TrailingZero(b.coefficient, b.exponent - a.exponent);
    }
  }

  /** A value has one normal form. */
  lemma NormalIsUnique(a: Decimal, b: Decimal)
    requires IsNormal(a) && IsNormal(b) && SameValue(a, b)
    ensures a == b
  {
    if a.exponent < b.exponent {
      NormalOrdered(a, b);
    } else if b.exponent < a.exponent {
      Symmetric(a, b);
      NormalOrdered(b, a);
    } else {
      assert Pow10(0) == 1;
    }
  }

  lemma NormalDecides(a: Decimal, b: Decimal)
    requires a.Finite? && b.Finite?
    ensures SameValue(a, b) <==> Normal(a) == Normal(b)
  {
    hide SameValue;
    NormalKeepsValue(a);
    NormalKeepsValue(b);
    if SameValue(a, b) {
      Symmetric(Normal(b), b);
      SameIsTransitive(Normal(a), a, b);
      SameIsTransitive(Normal(a), b, Normal(b));
      NormalIsUnique(Normal(a), Normal(b));
    }
    if Normal(a) == Normal(b) {
      Symmetric(Normal(a), a);
      SameIsTransitive(a, Normal(a), b);
    }
  }

  // ----- the text of the normal form ---------------------------------------

  lemma {:induction false} AppendZeros(c: nat, n: nat)
    requires c > 0
    ensures Digits(10 * c) + Zeros(n) == Digits(c) + Zeros(n + 1)
  {
    if n == 0 {
      assert Zeros(1) == Zeros(0) + "0";
      assert 10 * c / 10 == c && 10 * c % 10 == 0;
    } else {
      AppendZeros(c, n - 1);
      assert Digits(10 * c) + Zeros(n) == Digits(10 * c) + Zeros(n - 1) + "0";
      assert Digits(c) + Zeros(n + 1) == Digits(c) + Zeros(n) + "0";
    }
  }

  lemma StripOne(s: string, c: char)
    ensures RStrip(s + [c], c) == RStrip(s, c)
  {
    assert (s + [c])[..|s|] == s;
  }

  lemma DigitsLast(c: nat)
    ensures var d := Digits(c); d[|d| - 1] == Digit(c % 10) && (c >= 10 ==> d == Digits(c / 10) + [Digit(c % 10)])
  {
  }

  lemma SplitEnds(d: string, k: nat)
    requires k <= |d|
    ensures (d + "0")[..k] + "." + (d + "0")[k..] == d[..k] + "." + d[k..] + "0"
  {
    assert (d + "0")[..k] == d[..k];
    assert (d + "0")[k..] == d[k..] + "0";
  }

  lemma PaddedEnds(z: string, d: string)
    ensures "0." + z + (d + "0") == "0." + z + d + "0"
  {
  }

  lemma MixedText(c: nat, e: int)
    requires e < 0 && |Digits(c)| > -e
    ensures Fixed(c, e) == Digits(c)[..|Digits(c)| + e] + "." + Digits(c)[|Digits(c)| + e..]
  {
    hide Digits, Zeros;
  }

  lemma SmallText(c: nat, e: int)
    requires e < 0 && |Digits(c)| <= -e
    ensures Fixed(c, e) == "0." + Zeros(-e - |Digits(c)|) + Digits(c)
  {
    hide Digits, Zeros;
  }

  lemma FractionEnds(c: nat, e: int)
    requires c > 0 && c % 10 == 0 && e < -1
    ensures Fixed(c, e) == Fixed(c / 10, e + 1) + "0"
  {
    DigitsLast(c);
    var d' := Digits(c / 10);
    assert Digits(c) == d' + "0";
    hide Digits, Fixed, Zeros;
    if |Digits(c)| > -e {
      MixedText(c, e);
      MixedText(c / 10, e + 1);
      SplitEnds(d', |d'| + e + 1);
    } else {
      SmallText(c, e);
      SmallText(c / 10, e + 1);
      PaddedEnds(Zeros(-e - |Digits(c)|), d');
    }
  }

  lemma NoStrip(s: string, c: char)
    requires s != "" && s[|s| - 1] != c
    ensures RStrip(s, c) == s
  {
  }

  lemma TenthsText(c: nat)
    requires c > 0 && c % 10 == 0
    ensures Fixed(c, -1) == Digits(c / 10) + "." + "0" && Fixed(c / 10, 0) == Digits(c / 10)
  {
    DigitsLast(c);
    var d, d' := Digits(c), Digits(c / 10);
    hide Digits;
    assert Zeros(0) == "";
    assert d == d' + "0";
    assert d[..|d| - 1] == d' && d[|d| - 1..] == "0";
  }

  lemma LastFractionDigit(c: nat)
    requires c > 0 && c % 10 == 0
    ensures Trimmed(Fixed(c, -1)) == Trimmed(Fixed(c / 10, 0))
  {
    var d' := Digits(c / 10);
    OnlyDigits(c / 10);
    TenthsText(c);
    hide Digits, Fixed, RStrip;
    assert (d' + "." + "0")[|d'|] == '.';
    StripOne(d' + ".", '0');
    NoStrip(d' + ".", '0');
    StripOne(d', '.');
  }

  /** One trailing zero behind the point is trimmed away. */
  lemma ZeroIsTrimmed(c: nat, e: int)
    requires c > 0 && c % 10 == 0 && e < 0
    ensures Trimmed(Fixed(c, e)) == Trimmed(Fixed(c / 10, e + 1))
  {
    if e == -1 {
      LastFractionDigit(c);
    } else {
      FractionEnds(c, e);
      PointInFixed(c / 10, e + 1);
      hide Fixed;
      StripOne(Fixed(c / 10, e + 1), '0');
    }
  }

  lemma PointInFixed(c: nat, e: int)
    requires e < 0
    ensures '.' in Fixed(c, e)
  {
    var d := Digits(c);
    if |d| > -e {
      assert Fixed(c, e)[|d| + e] == '.';
    } else {
      assert Fixed(c, e)[1] == '.';
    }
  }

  lemma {:induction false} OnlyDigits(n: nat)
    ensures forall i | 0 <= i < |Digits(n)| :: '0' <= Digits(n)[i] <= '9'
    ensures '.' !in Digits(n) && RStrip(Digits(n), '.') == Digits(n)
  {
    if n >= 10 { OnlyDigits(n / 10); }
  }

  /** A value that is not zero is written as its normal form. */
  lemma {:induction false} WrittenAsNormal(c: nat, e: int)
    requires c > 0
    ensures Trimmed(Fixed(c, e)) == Trimmed(Fixed(Reduced(c, e).0, Reduced(c, e).1))
    decreases if e < 0 then -e else e
  {
    if e > 0 {
      AppendZeros(c, e - 1);
      WrittenAsNormal(10 * c, e - 1);
    } else if e < 0 && c % 10 == 0 {
      ZeroIsTrimmed(c, e);
      WrittenAsNormal(c / 10, e + 1);
    }
  }

  lemma FixedLast(c: nat, e: int)
    requires e < 0
    ensures var s := Fixed(c, e); s != "" && s[|s| - 1] == Digit(c % 10)
  {
    DigitsLast(c);
    hide Digits, Zeros;
  }

  /** A normal form needs no trimming. */
  lemma NormalIsNotTrimmed(c: nat, e: int)
    requires c > 0 && e <= 0 && (e < 0 ==> c % 10 != 0)
    ensures Trimmed(Fixed(c, e)) == Fixed(c, e)
  {
    if e == 0 {
      OnlyDigits(c);
      assert Fixed(c, 0) == Digits(c) by { assert Zeros(0) == ""; }
    } else {
      FixedLast(c, e);
      DigitValue(c % 10);
      hide Fixed, RStrip, Digit;
      NoStrip(Fixed(c, e), '0');
      NoStrip(Fixed(c, e), '.');
    }
  }

  // ----- reading it back ---------------------------------------------------

  function NumberOf(s: string): nat {
    if s == "" then 0
    else NumberOf(s[..|s| - 1]) * 10 + (if '0' <= s[|s| - 1] <= '9' then s[|s| - 1] as int - '0' as int else 0)
  }

  function PointAt(s: string): (i: nat)
    ensures i <= |s| && '.' !in s[..i] && (i < |s| ==> s[i] == '.')
  {
    if s == "" || s[0] == '.' then 0
    else
      var i := PointAt(s[1..]);
      assert s[..i + 1] == [s[0]] + s[1..][..i];
      i + 1
  }

  function ParseBody(negative: bool, s: string): Decimal {
    var i := PointAt(s);
    if i == |s| then Finite(negative, NumberOf(s), 0)
    else Finite(negative, NumberOf(s[..i] + s[i + 1..]), -(|s| - i - 1))
  }

  /** Decimal(text) for plain notation. */
  function Parse(s: string): Decimal {
    if s != "" && s[0] == '-' then ParseBody(true, s[1..]) else ParseBody(false, s)
  }

  lemma DigitValue(n: nat)
    requires n < 10
    ensures '0' <= Digit(n) <= '9' && Digit(n) as int - '0' as int == n
  {
  }

  lemma {:induction false} NumberOfDigits(n: nat)
    ensures NumberOf(Digits(n)) == n
  {
    if n < 10 {
      assert Digits(n)[..0] == "";
      DigitValue(n);
    } else {
      NumberOfDigits(n / 10);
      DigitValue(n % 10);
      assert Digits(n)[..|Digits(n)| - 1] == Digits(n / 10);
    }
  }

  lemma {:induction false} LeadingZeros(k: nat, s: string)
    ensures NumberOf(Zeros(k) + s) == NumberOf(s)
    decreases k + |s|
  {
    if s == "" {
      assert Zeros(k) + s == Zeros(k);
      if k != 0 {
        LeadingZeros(k - 1, "");
        assert Zeros(k)[..k - 1] == Zeros(k - 1) == Zeros(k - 1) + "";
      }
    } else {
      assert (Zeros(k) + s)[..k + |s| - 1] == Zeros(k) + s[..|s| - 1];
      LeadingZeros(k, s[..|s| - 1]);
    }
  }

  lemma {:induction false} PointFound(a: string, b: string)
    requires '.' !in a
    ensures PointAt(a + "." + b) == |a|
  {
    var s := a + "." + b;
    assert s[|a|] == '.';
    if a != "" {
      assert s[0] == a[0] && a[0] in a;
      assert s[1..] == a[1..] + "." + b;
      PointFound(a[1..], b);
    }
  }

  lemma {:induction false} NoPoint(a: string)
    requires '.' !in a
    ensures PointAt(a) == |a|
  {
    if a != "" {
      assert a[0] in a;
      NoPoint(a[1..]);
    }
  }

  lemma {:induction false} NoPointInZeros(n: nat)
    ensures forall c | c in Zeros(n) :: c == '0'
  {
    if n != 0 { NoPointInZeros(n - 1); }
  }

  lemma NoPointInPrefix(d: string, n: nat)
    requires '.' !in d && n <= |d|
    ensures '.' !in d[..n]
  {
  }

  lemma ParseJoin(negative: bool, a: string, b: string)
    requires '.' !in a
    ensures ParseBody(negative, a + "." + b) == Finite(negative, NumberOf(a + b), -|b|)
  {
    hide NumberOf, PointAt;
    PointFound(a, b);
    var s := a + "." + b;
    assert s[..|a|] == a && s[|a| + 1..] == b;
  }

  lemma ParseSplit(negative: bool, d: string, k: nat)
    requires '.' !in d && k <= |d|
    ensures ParseBody(negative, d[..k] + "." + d[k..]) == Finite(negative, NumberOf(d), k - |d|)
  {
    hide NumberOf, ParseBody;
    NoPointInPrefix(d, k);
    ParseJoin(negative, d[..k], d[k..]);
    assert d[..k] + d[k..] == d;
  }

  lemma DigitsWithoutPoint(c: nat)
    ensures '.' !in Digits(c)
  {
    OnlyDigits(c);
  }

  lemma MixedReadsBack(negative: bool, c: nat, e: int)
    requires e < 0 && |Digits(c)| > -e
    ensures ParseBody(negative, Fixed(c, e)) == Finite(negative, c, e)
  {
    hide Digits, NumberOf, ParseBody, Fixed;
    DigitsWithoutPoint(c);
    NumberOfDigits(c);
    MixedText(c, e);
    ParseSplit(negative, Digits(c), |Digits(c)| + e);
  }

  lemma FractionNumber(c: nat, k: nat)
    ensures NumberOf("0" + (Zeros(k) + Digits(c))) == c
  {
    NumberOfDigits(c);
    LeadingZeros(k, Digits(c));
    assert "0" == Zeros(1) by { assert Zeros(0) == ""; }
    LeadingZeros(1, Zeros(k) + Digits(c));
  }

  lemma ZeroPoint(z: string, d: string)
    ensures "0." + z + d == "0" + "." + (z + d)
  {
  }

  lemma SmallPointed(c: nat, e: int)
    requires e < 0 && |Digits(c)| <= -e
    ensures Fixed(c, e) == "0" + "." + (Zeros(-e - |Digits(c)|) + Digits(c))
  {
    hide Digits, Zeros, Fixed;
    SmallText(c, e);
    ZeroPoint(Zeros(-e - |Digits(c)|), Digits(c));
  }

  lemma ParseSmall(negative: bool, f: string)
    ensures ParseBody(negative, "0" + "." + f) == Finite(negative, NumberOf("0" + f), -|f|)
  {
    hide NumberOf, ParseBody;
    ParseJoin(negative, "0", f);
  }

  lemma FractionReadsBack(negative: bool, c: nat, e: int)
    requires e < 0 && |Digits(c)| <= -e
    ensures ParseBody(negative, Fixed(c, e)) == Finite(negative, c, e)
  {
    hide Digits, NumberOf, ParseBody, Zeros, Fixed;
    var k := -e - |Digits(c)|;
    SmallPointed(c, e);
    FractionNumber(c, k);
    ParseSmall(negative, Zeros(k) + Digits(c));
  }

  lemma WholeReadsBack(negative: bool, c: nat)
    ensures ParseBody(negative, Fixed(c, 0)) == Finite(negative, c, 0)
  {
    OnlyDigits(c);
    NumberOfDigits(c);
    assert Fixed(c, 0) == Digits(c) by { assert Zeros(0) == ""; }
    NoPoint(Digits(c));
  }

  lemma FixedReadsBack(negative: bool, c: nat, e: int)
    requires e <= 0
    ensures ParseBody(negative, Fixed(c, e)) == Finite(negative, c, e)
  {
    hide ParseBody, Fixed;
    if e == 0 {
      WholeReadsBack(negative, c);
    } else if |Digits(c)| > -e {
      MixedReadsBack(negative, c, e);
    } else {
      FractionReadsBack(negative, c, e);
    }
  }

  lemma FixedStart(c: nat, e: int)
    requires e <= 0
    ensures Fixed(c, e) != "" && Fixed(c, e)[0] != '-'
  {
    OnlyDigits(c);
    assert Digits(c)[0] in Digits(c);
  }

  // ----- main results ------------------------------------------------------

  lemma ParseMinus(s: string)
    ensures Parse("-" + s) == ParseBody(true, s)
  {
    hide ParseBody;
    assert ("-" + s)[1..] == s;
  }

  lemma ParsePlain(s: string)
    requires s != "" && s[0] != '-'
    ensures Parse(s) == ParseBody(false, s)
  {
    hide ParseBody;
  }

  lemma SignedReadsBack(negative: bool, c: nat, e: int)
    requires e <= 0
    ensures Parse((if negative then "-" else "") + Fixed(c, e)) == Finite(negative, c, e)
  {
    hide Fixed, ParseBody, Parse;
    FixedReadsBack(negative, c, e);
    if negative {
      ParseMinus(Fixed(c, e));
    } else {
      FixedStart(c, e);
      ParsePlain(Fixed(c, e));
      assert "" + Fixed(c, e) == Fixed(c, e);
    }
  }

  /** Reading the text back gives the normal form of the value. */
  lemma ReadBack(d: Decimal)
    requires d.Finite?
    ensures Canonical(d).Some? && Parse(Canonical(d).value) == Normal(d) && SameValue(Normal(d), d)
  {
    hide SameValue, Fixed, Trimmed, Parse;
    NormalKeepsValue(d);
    if d.coefficient == 0 {
      SignedReadsBack(false, 0, 0);
      ZeroText();
    } else {
      var (c, e) := Reduced(d.coefficient, d.exponent);
      WrittenAsNormal(d.coefficient, d.exponent);
      NormalIsNotTrimmed(c, e);
      SignedReadsBack(d.negative, c, e);
    }
  }

  lemma ZeroText()
    ensures "" + Fixed(0, 0) == "0"
  {
    assert Zeros(0) == "";
  }

  /** Two finite decimals have the same text exactly when they have the same value. */
  lemma CanonicalDecidesValue(a: Decimal, b: Decimal)
    requires a.Finite? && b.Finite?
    ensures Canonical(a) == Canonical(b) <==> SameValue(a, b)
  {
    hide SameValue, Parse;
    ReadBack(a);
    ReadBack(b);
    NormalDecides(a, b);
    if Normal(a) == Normal(b) {
      SameText(a, b);
    }
  }

  lemma SameText(a: Decimal, b: Decimal)
    requires a.Finite? && b.Finite? && Normal(a) == Normal(b)
    ensures Canonical(a) == Canonical(b)
  {
    if a.coefficient != 0 { WrittenAsNormal(a.coefficient, a.exponent); }
    if b.coefficient != 0 { WrittenAsNormal(b.coefficient, b.exponent); }
  }

  predicate IsDigit(c: char) {
    '0' <= c <= '9'
  }

  /** A positive number without sign or exponent: at most one point, and no superfluous zero on either side of it. */
  predicate Plain(s: string) {
    && s != "" && s != "0" && IsDigit(s[0])
    && (forall i | 0 <= i < |s| :: IsDigit(s[i]) || s[i] == '.')
    && (forall i, j | 0 <= i < j < |s| :: s[i] != '.' || s[j] != '.')
    && (|s| > 1 && s[0] == '0' ==> s[1] == '.')
    && ('.' in s ==> s[|s| - 1] !in {'0', '.'})
  }

  predicate PlainNotation(s: string) {
    s == "0" || Plain(s) || (s != "" && s[0] == '-' && Plain(s[1..]))
  }

  predicate AllDigits(s: string) {
    forall i | 0 <= i < |s| :: IsDigit(s[i])
  }

  lemma {:induction false} NoLeadingZero(n: nat)
    requires n > 0
    ensures Digits(n)[0] != '0'
  {
    if n >= 10 { NoLeadingZero(n / 10); }
  }

  lemma PlainWhole(c: nat)
    requires c > 0
    ensures Plain(Fixed(c, 0))
  {
    OnlyDigits(c);
    NoLeadingZero(c);
    assert Fixed(c, 0) == Digits(c) by { assert Zeros(0) == ""; }
    assert Digits(c)[0] in Digits(c);
  }

  /** Two runs of digits around a point. */
  lemma PlainJoin(a: string, b: string)
    requires a != "" && b != "" && AllDigits(a) && AllDigits(b) && (a[0] == '0' ==> a == "0") && b[|b| - 1] != '0'
    ensures Plain(a + "." + b)
  {
    var s := a + "." + b;
    forall i | 0 <= i < |s| ensures s[i] == '.' <==> i == |a| {
      if i < |a| { assert s[i] == a[i]; } else if i > |a| { assert s[i] == b[i - |a| - 1]; }
    }
    forall i | 0 <= i < |s| ensures IsDigit(s[i]) || s[i] == '.' {
      if i < |a| { assert s[i] == a[i]; } else if i > |a| { assert s[i] == b[i - |a| - 1]; }
    }
    assert s[|s| - 1] == b[|b| - 1] && s[0] == a[0];
  }

  lemma LastDigit(c: nat)
    requires c % 10 != 0
    ensures var d := Digits(c); d[|d| - 1] != '0' && d[0] != '0' && AllDigits(d)
  {
    OnlyDigits(c);
    NoLeadingZero(c);
    DigitsLast(c);
  }

  lemma PlainMixed(c: nat, e: int)
    requires e < 0 && c % 10 != 0 && |Digits(c)| > -e
    ensures Plain(Fixed(c, e))
  {
    LastDigit(c);
    MixedText(c, e);
    hide Digits, Fixed, Plain, IsDigit;
    var d := Digits(c);
    PlainJoin(d[..|d| + e], d[|d| + e..]);
  }

  lemma DigitsJoin(a: string, b: string)
    requires AllDigits(a) && AllDigits(b)
    ensures AllDigits(a + b)
  {
    hide IsDigit;
  }

  lemma ZerosAreDigits(n: nat)
    ensures AllDigits(Zeros(n))
  {
    NoPointInZeros(n);
    var z := Zeros(n);
    hide Zeros;
    forall i | 0 <= i < |z| ensures IsDigit(z[i]) { assert z[i] in z; }
  }

  lemma PlainSmall(f: string)
    requires f != "" && AllDigits(f) && f[|f| - 1] != '0'
    ensures Plain("0" + "." + f)
  {
    hide Plain;
    PlainJoin("0", f);
  }

  lemma PlainFraction(c: nat, e: int)
    requires e < 0 && c % 10 != 0 && |Digits(c)| <= -e
    ensures Plain(Fixed(c, e))
  {
    LastDigit(c);
    SmallPointed(c, e);
    var z, d := Zeros(-e - |Digits(c)|), Digits(c);
    ZerosAreDigits(|z|);
    hide Digits, Fixed, Plain, Zeros, AllDigits;
    DigitsJoin(z, d);
    PlainSmall(z + d);
  }

  lemma PlainBody(c: nat, e: int)
    requires c > 0 && e <= 0 && (e < 0 ==> c % 10 != 0)
    ensures Plain(Fixed(c, e))
  {
    hide Plain;
    if e == 0 {
      PlainWhole(c);
    } else if |Digits(c)| > -e {
      PlainMixed(c, e);
    } else {
      PlainFraction(c, e);
    }
  }

  lemma TextIsPlain(d: Decimal)
    requires d.Finite?
    ensures Canonical(d).Some? && PlainNotation(Canonical(d).value)
  {
    if d.coefficient != 0 {
      var (c, e) := Reduced(d.coefficient, d.exponent);
      WrittenAsNormal(d.coefficient, d.exponent);
      NormalIsNotTrimmed(c, e);
      PlainBody(c, e);
      hide Plain, PlainNotation, Fixed, Trimmed, Reduced;
      SignedPlain(d.negative, Fixed(c, e));
    }
  }

  lemma SignedPlain(negative: bool, s: string)
    requires Plain(s)
    ensures PlainNotation((if negative then "-" else "") + s)
  {
    hide Plain;
    assert ("-" + s)[1..] == s && "" + s == s;
  }

  // ----- every plain text is canonical -------------------------------------

  lemma OneDigit(s: string)
    requires |s| == 1 && IsDigit(s[0])
    ensures NumberOf(s) == s[0] as int - '0' as int && Digit(NumberOf(s)) == s[0]
  {
    assert s[..0] == "" && NumberOf("") == 0;
    assert NumberOf(s) == NumberOf(s[..|s| - 1]) * 10 + (s[0] as int - '0' as int);
  }

  lemma NumberOn(s: string)
    requires s != ""
    ensures NumberOf(s) == NumberOf(s[..|s| - 1]) * 10 + NumberOf([s[|s| - 1]])
  {
    var last := [s[|s| - 1]];
    assert last[..0] == "" && NumberOf("") == 0;
    assert NumberOf(last) == NumberOf(last[..0]) * 10
                             + (if '0' <= last[0] <= '9' then last[0] as int - '0' as int else 0);
  }

  lemma DigitsOn(n: nat, v: nat)
    requires n > 0 && v < 10
    ensures Digits(n * 10 + v) == Digits(n) + [Digit(v)] && (n * 10 + v) % 10 == v
  {
    assert (n * 10 + v) / 10 == n && (n * 10 + v) % 10 == v;
  }

  lemma OneDigitText(s: string)
    requires |s| == 1 && IsDigit(s[0])
    ensures Digits(NumberOf(s)) == s
  {
    OneDigit(s);
    hide NumberOf;
    assert [s[0]] == s;
  }

  /** A run of digits without a leading zero is the text of its number. */
  lemma {:induction false} DigitsOfNumber(s: string)
    requires s != "" && AllDigits(s) && s[0] != '0'
    ensures Digits(NumberOf(s)) == s && NumberOf(s) > 0
    ensures s[|s| - 1] != '0' ==> NumberOf(s) % 10 != 0
  {
    hide Digits, NumberOf, Digit;
    var front, last := s[..|s| - 1], [s[|s| - 1]];
    assert IsDigit(last[0]);
    OneDigit(last);
    assert s == front + last;
    if front == "" {
      assert s == last;
      OneDigitText(s);
    } else {
      DigitsOfNumber(front);
      NumberOn(s);
      DigitsOn(NumberOf(front), NumberOf(last));
    }
  }

  lemma {:induction false} ZerosHead(n: nat)
    ensures Zeros(n + 1) == "0" + Zeros(n)
  {
    if n != 0 { ZerosHead(n - 1); }
  }

  function LeadingRun(s: string): nat {
    if s == "" || s[0] != '0' then 0 else LeadingRun(s[1..]) + 1
  }

  lemma RunOfZeros(t: string, k: nat)
    requires k < |t| && t == Zeros(k) + t[k..]
    ensures "0" + t == Zeros(k + 1) + ("0" + t)[k + 1..]
  {
    ZerosHead(k);
    hide Zeros;
    assert ("0" + t)[k + 1..] == t[k..];
  }

  /** The first digit behind the run, and the run in front of it. */
  predicate Split(s: string) {
    var k := LeadingRun(s);
    k < |s| && s[k] != '0' && s == Zeros(k) + s[k..]
  }

  lemma SplitOn(t: string)
    requires Split(t)
    ensures Split("0" + t)
  {
    var s, k := "0" + t, LeadingRun(t);
    assert s[1..] == t;
    assert LeadingRun(s) == k + 1;
    RunOfZeros(t, k);
  }

  lemma SplitAtOnce(s: string)
    requires s != "" && s[0] != '0'
    ensures Split(s)
  {
    assert Zeros(0) == "";
  }

  lemma {:induction false} RunSplit(s: string)
    requires s != "" && s[|s| - 1] != '0'
    ensures Split(s)
  {
    hide Split;
    if s[0] == '0' {
      RunSplit(s[1..]);
      SplitOn(s[1..]);
      assert s == "0" + s[1..];
    } else {
      SplitAtOnce(s);
    }
  }

  /** A normal decimal other than zero, with this sign and this text. */
  predicate IsNormalOf(d: Decimal, negative: bool, s: string) {
    IsNormal(d) && d.coefficient > 0 && d.negative == negative && Fixed(d.coefficient, d.exponent) == s
  }

  lemma WholeIsText(negative: bool, s: string)
    requires Plain(s) && '.' !in s
    ensures IsNormalOf(ParseBody(negative, s), negative, s)
  {
    assert s[0] != '0';
    assert AllDigits(s) by {
      forall i | 0 <= i < |s| ensures IsDigit(s[i]) { assert s[i] in s; }
    }
    NoPoint(s);
    DigitsOfNumber(s);
    hide Plain, Digits, NumberOf, PointAt;
    assert Fixed(NumberOf(s), 0) == s by { assert Zeros(0) == ""; }
  }

  /** The digits on both sides of the point of a plain text. */
  lemma Sides(s: string, k: nat)
    requires Plain(s) && k < |s| && s[k] == '.'
    ensures var a, b := s[..k], s[k + 1..];
            a != "" && b != "" && AllDigits(a) && AllDigits(b) && (a[0] == '0' ==> a == "0") && b[|b| - 1] != '0'
            && s == a + "." + b
  {
    forall i | 0 <= i < k ensures IsDigit(s[i]) { assert s[i] != '.'; }
    forall i | k < i < |s| ensures IsDigit(s[i]) { assert s[i] != '.'; }
    assert '.' in s;
  }

  lemma ZeroFront(b: string)
    ensures NumberOf("0" + b) == NumberOf(b)
  {
    assert "0" == Zeros(1) by { assert Zeros(0) == ""; }
    LeadingZeros(1, b);
  }

  lemma SuffixDigits(b: string, k: nat)
    requires AllDigits(b) && k < |b|
    ensures AllDigits(b[k..]) && b[k..][|b| - k - 1] == b[|b| - 1] && b[k..][0] == b[k]
  {
    hide IsDigit;
  }

  lemma RestIsText(b: string, k: nat)
    requires AllDigits(b) && k < |b| && b[k] != '0' && b[|b| - 1] != '0'
    ensures Digits(NumberOf(b[k..])) == b[k..] && NumberOf(b[k..]) % 10 != 0
  {
    hide NumberOf, Digits, AllDigits;
    SuffixDigits(b, k);
    DigitsOfNumber(b[k..]);
  }

  lemma RestNumber(b: string, k: nat)
    requires k <= |b| && b == Zeros(k) + b[k..]
    ensures NumberOf("0" + b) == NumberOf(b[k..])
  {
    hide NumberOf, Zeros;
    ZeroFront(b);
    LeadingZeros(k, b[k..]);
  }

  lemma SmallIsText(b: string)
    requires b != "" && AllDigits(b) && b[|b| - 1] != '0'
    ensures NumberOf("0" + b) % 10 != 0 && Fixed(NumberOf("0" + b), -|b|) == "0" + "." + b
  {
    hide Digits, NumberOf, Fixed, Zeros, LeadingRun, AllDigits;
    RunSplit(b);
    var k := LeadingRun(b);
    RestIsText(b, k);
    RestNumber(b, k);
    SmallPointed(NumberOf(b[k..]), -|b|);
  }

  lemma MixedIsText(a: string, b: string)
    requires a != "" && b != "" && AllDigits(a) && AllDigits(b) && a[0] != '0' && b[|b| - 1] != '0'
    ensures var c := NumberOf(a + b); c % 10 != 0 && Fixed(c, -|b|) == a + "." + b
  {
    DigitsJoin(a, b);
    hide Digits, NumberOf, Fixed, AllDigits;
    var d := a + b;
    assert d[..|a|] == a && d[|a|..] == b;
    DigitsOfNumber(d);
    MixedText(NumberOf(d), -|b|);
  }

  lemma PointedIsText(negative: bool, s: string, k: nat)
    requires Plain(s) && k < |s| && s[k] == '.'
    ensures IsNormalOf(ParseBody(negative, s), negative, s)
  {
    var a, b := s[..k], s[k + 1..];
    Sides(s, k);
    DigitsHaveNoPoint(a);
    hide Plain, NumberOf, ParseBody, Fixed, AllDigits, IsDigit;
    ParseJoin(negative, a, b);
    if a[0] == '0' { SmallIsText(b); } else { MixedIsText(a, b); }
  }

  lemma DigitsHaveNoPoint(a: string)
    requires AllDigits(a)
    ensures '.' !in a
  {
  }

  lemma BodyIsText(negative: bool, s: string)
    requires Plain(s)
    ensures IsNormalOf(ParseBody(negative, s), negative, s)
  {
    hide Plain, ParseBody, IsNormalOf;
    if '.' in s {
      var k :| 0 <= k < |s| && s[k] == '.';
      PointedIsText(negative, s, k);
    } else {
      WholeIsText(negative, s);
    }
  }

  /** The plain notations are exactly the texts that canonical_decimal writes. */
  lemma PlainIsWritten(s: string)
    ensures PlainNotation(s) <==> Parse(s).Finite? && Canonical(Parse(s)) == Some(s)
  {
    hide Plain, ParseBody, Fixed, Trimmed;
    if Canonical(Parse(s)) == Some(s) {
      TextIsPlain(Parse(s));
    }
    if s == "0" {
      ReadBack(Finite(false, 0, 0));
    } else if Plain(s) {
      PlainStart(s);
      assert "" + s == s;
      BodyIsText(false, s);
      Untrimmed(ParseBody(false, s));
    } else if s != "" && s[0] == '-' && Plain(s[1..]) {
      BodyIsText(true, s[1..]);
      Untrimmed(ParseBody(true, s[1..]));
      assert "-" + s[1..] == s;
    }
  }

  lemma PlainStart(s: string)
    requires Plain(s)
    ensures s != "" && s[0] != '-'
  {
  }

  lemma Untrimmed(d: Decimal)
    requires IsNormal(d) && d.coefficient > 0
    ensures Canonical(d) == Some((if d.negative then "-" else "") + Fixed(d.coefficient, d.exponent))
  {
    hide Fixed, Trimmed;
    NormalIsNotTrimmed(d.coefficient, d.exponent);
  }
}
