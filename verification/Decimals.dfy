/**
 Conversion between decimal strings and the integers that represent them with a fixed
 number of decimal places.
 */
module Decimals {

  datatype Error = NotPlainDecimal | TooManyPlaces

  datatype Result<+T> = Success(value: T) | Failure(error: Error)

  // --- Strings of digits ---

  predicate IsDigit(c: char) {
    '0' <= c <= '9'
  }

  predicate AllDigits(s: string) {
    forall i :: 0 <= i < |s| ==> IsDigit(s[i])
  }

  function DigitValue(c: char): nat
    requires IsDigit(c)
  {
    c as int - '0' as int
  }

  function DigitOf(d: nat): (c: char)
    requires d < 10
    ensures IsDigit(c) && DigitValue(c) == d
  {
    ('0' as int + d) as char
  }

  // `new BN(s, 10)` on a string of digits.
  function ParseNat(s: string): nat
    requires AllDigits(s)
  {
    if s == "" then 0 else 10 * ParseNat(s[..|s| - 1]) + DigitValue(s[|s| - 1])
  }

  // `BN.toString()`
  function ToString(n: nat): (s: string)
    ensures s != "" && AllDigits(s)
  {
    if n < 10 then [DigitOf(n)] else ToString(n / 10) + [DigitOf(n % 10)]
  }

  function Zeros(n: nat): (s: string)
    ensures |s| == n && AllDigits(s)
  {
    seq(n, _ => '0')
  }

  function Pow10(n: nat): (r: nat)
    ensures r > 0
  {
    if n == 0 then 1 else 10 * Pow10(n - 1)
  }

  // `x` with `n` zeros appended.
  function Scaled(x: nat, n: nat): nat {
    x * Pow10(n)
  }

  lemma ScaledOnce(x: nat, n: nat)
    ensures Scaled(x, n + 1) == 10 * Scaled(x, n)
  {
  }

  lemma {:induction false} ParseToString(n: nat)
    ensures ParseNat(ToString(n)) == n
  {
    if n >= 10 {
      ParseToString(n / 10);
      var s := ToString(n);
      assert s[..|s| - 1] == ToString(n / 10);
    }
  }

  lemma {:induction false} ParseConcat(a: string, b: string)
    requires AllDigits(a) && AllDigits(b)
    ensures AllDigits(a + b) && ParseNat(a + b) == Scaled(ParseNat(a), |b|) + ParseNat(b)
  {
    if b == "" {
      assert a + b == a;
    } else {
      var n := |b| - 1;
      ParseConcat(a, b[..n]);
      assert (a + b)[..|a + b| - 1] == a + b[..n];
      ScaledOnce(ParseNat(a), n);
    }
  }

  lemma {:induction false} ParseZeros(n: nat)
    ensures ParseNat(Zeros(n)) == 0
  {
    if n > 0 {
      ParseZeros(n - 1);
      assert Zeros(n)[..n - 1] == Zeros(n - 1);
    }
  }

  lemma {:induction false} Pow10Sum(a: nat, b: nat)
    ensures Pow10(a + b) == Pow10(a) * Pow10(b)
  {
    if a > 0 {
      Pow10Sum(a - 1, b);
      Associate(10, Pow10(a - 1), Pow10(b));
    }
  }

  // --- What a decimal string denotes ---

  // The number num / 10^places, read one character at a time.
  datatype Reading = Reading(num: nat, places: nat, point: bool)

  // The unsigned plain decimals Decimal accepts: digits with at most one point, and at
  // least one digit.
  predicate IsPlainDecimal(s: string) {
    && (forall i :: 0 <= i < |s| ==> IsDigit(s[i]) || s[i] == '.')
    && (forall i, j :: 0 <= i < j < |s| ==> s[i] != '.' || s[j] != '.')
    && exists i :: 0 <= i < |s| && IsDigit(s[i])
  }

  predicate Readable(s: string) {
    forall i :: 0 <= i < |s| ==> IsDigit(s[i]) || s[i] == '.'
  }

  function Read(s: string): Reading
    requires Readable(s)
  {
    if s == "" then Reading(0, 0, false)
    else
      var r, c := Read(s[..|s| - 1]), s[|s| - 1];
      if c == '.' then r.(point := true)
      else Reading(10 * r.num + DigitValue(c), if r.point then r.places + 1 else r.places, r.point)
  }

  // Equality of the numbers denoted, cross-multiplied.
  predicate SameNumber(a: Reading, b: Reading) {
    Scaled(a.num, b.places) == Scaled(b.num, a.places)
  }

  lemma {:induction false} ReadDigits(s: string)
    requires AllDigits(s)
    ensures Read(s) == Reading(ParseNat(s), 0, false)
  {
    if s != "" {
      ReadDigits(s[..|s| - 1]);
    }
  }

  lemma {:induction false} ReadPoint(a: string, b: string)
    requires AllDigits(a) && AllDigits(b)
    ensures Readable(a + "." + b) && AllDigits(a + b)
    ensures Read(a + "." + b) == Reading(ParseNat(a + b), |b|, true)
  {
    var s := a + "." + b;
    if b == "" {
      ReadDigits(a);
      assert s[..|s| - 1] == a && a + b == a;
    } else {
      var n := |b| - 1;
      ReadPoint(a, b[..n]);
      assert s[..|s| - 1] == a + "." + b[..n];
      assert (a + b)[..|a + b| - 1] == a + b[..n];
    }
  }

  // --- makeBN ---

  // `s.split(".")`
  function Split(s: string): (parts: seq<string>)
    ensures |parts| >= 1
    ensures '.' in s ==> |parts| >= 2
  {
    if '.' !in s then [s]
    else
      var i := FirstPoint(s);
      [s[..i]] + Split(s[i + 1..])
  }

  function FirstPoint(s: string): (i: nat)
    requires '.' in s
    ensures i < |s| && s[i] == '.' && '.' !in s[..i]
  {
    if s[0] == '.' then 0 else 1 + FirstPoint(s[1..])
  }

  function MakeBN(s: string, precision: nat): Result<nat> {
    if !IsPlainDecimal(s) then Failure(NotPlainDecimal)
    else
      var intPart := Split(s)[0];
      var fraction := if '.' in s then Split(s)[1] else "";
      if |fraction| > precision then Failure(TooManyPlaces)
      else
        var digits := intPart + fraction + Zeros(precision - |fraction|);
        SplitDigits(s);
        Success(ParseNat(digits))
  }

  // A plain decimal is digits, or digits around the point that `split` finds.
  lemma SplitDigits(s: string)
    requires IsPlainDecimal(s)
    ensures '.' !in s ==> AllDigits(s) && Split(s) == [s]
    ensures '.' in s ==> Split(s) == [Split(s)[0], Split(s)[1]]
    ensures '.' in s ==> AllDigits(Split(s)[0]) && AllDigits(Split(s)[1])
    ensures '.' in s ==> s == Split(s)[0] + "." + Split(s)[1]
  {
    if '.' in s {
      var i := FirstPoint(s);
      assert '.' !in s[i + 1..];
      assert s == s[..i] + "." + s[i + 1..];
    }
  }

  lemma ReadParts(s: string) returns (intPart: string, fraction: string)
    requires IsPlainDecimal(s)
    ensures AllDigits(intPart) && AllDigits(fraction) && AllDigits(intPart + fraction)
    ensures intPart == Split(s)[0] && fraction == if '.' in s then Split(s)[1] else ""
    ensures Readable(s) && Read(s).num == ParseNat(intPart + fraction) && Read(s).places == |fraction|
  {
    SplitDigits(s);
    intPart, fraction := Split(s)[0], if '.' in s then Split(s)[1] else "";
    if '.' in s {
      ReadPoint(intPart, fraction);
    } else {
      ReadDigits(s);
      assert intPart + fraction == s;
    }
  }

  // A plain decimal is rejected exactly when it has more places than the precision;
  // otherwise the result is its value times 10^precision.
  lemma MakeBNIsExact(s: string, precision: nat)
    requires IsPlainDecimal(s)
    ensures Readable(s)
    ensures MakeBN(s, precision).Failure? <==> Read(s).places > precision
    ensures MakeBN(s, precision).Success? ==>
            SameNumber(Reading(MakeBN(s, precision).value, precision, true), Read(s))
  {
    var intPart, fraction := ReadParts(s);
    MakeBNOfParts(s, precision, intPart, fraction);
    if |fraction| <= precision {
      Padded(intPart + fraction, |fraction|, precision);
    }
  }

  lemma MakeBNOfParts(s: string, precision: nat, intPart: string, fraction: string)
    requires IsPlainDecimal(s) && AllDigits(intPart + fraction)
    requires intPart == Split(s)[0] && fraction == if '.' in s then Split(s)[1] else ""
    ensures MakeBN(s, precision) ==
            if |fraction| > precision then Failure(TooManyPlaces)
            else Success(ParseNat(intPart + fraction + Zeros(precision - |fraction|)))
  {
  }

  lemma Padded(digits: string, places: nat, precision: nat)
    requires AllDigits(digits) && places <= precision
    ensures AllDigits(digits + Zeros(precision - places))
    ensures Scaled(ParseNat(digits + Zeros(precision - places)), places) == Scaled(ParseNat(digits), precision)
  {
    TrailingZeros(digits, precision - places);
    ScaleTwice(ParseNat(digits), precision - places, places);
  }

  lemma ScaleTwice(x: nat, a: nat, b: nat)
    ensures Scaled(Scaled(x, a), b) == Scaled(x, a + b)
  {
    Pow10Sum(a, b);
    Associate(x, Pow10(a), Pow10(b));
  }

  lemma TrailingZeros(digits: string, n: nat)
    requires AllDigits(digits)
    ensures AllDigits(digits + Zeros(n)) && ParseNat(digits + Zeros(n)) == Scaled(ParseNat(digits), n)
  {
    ParseConcat(digits, Zeros(n));
    ParseZeros(n);
  }

  lemma Associate(x: nat, y: nat, z: nat)
    ensures (x * y) * z == x * (y * z) == (x * z) * y
  {
  }

  lemma CancelFactor(x: nat, y: nat, k: nat)
    requires k > 0
    ensures x == y <==> x * k == y * k
  {
    if x < y {
      assert (y - x) * k > 0;
    } else if y < x {
      assert (x - y) * k > 0;
    }
  }

  // At one scale, a result determines the number and the number the result.
  lemma ScaledIsInjective(x: nat, y: nat, scale: nat, a: nat, A: nat, b: nat, B: nat)
    requires scale > 0 && A > 0 && B > 0 && x * A == a * scale && y * B == b * scale
    ensures x == y <==> a * B == b * A
  {
    calc {
      (x * B) * A;
      { Associate(x, B, A); }
      (x * A) * B;
      { Associate(a, scale, B); }
      (a * B) * scale;
    }
    calc {
      (y * B) * A;
      { Associate(b, scale, A); }
      (b * A) * scale;
    }
    CancelFactor(a * B, b * A, scale);
    CancelFactor(x * B, y * B, A);
    CancelFactor(x, y, B);
  }

  lemma EqualResultsIff(s: string, t: string, precision: nat)
    requires IsPlainDecimal(s) && IsPlainDecimal(t)
    requires MakeBN(s, precision).Success? && MakeBN(t, precision).Success?
    ensures Readable(s) && Readable(t)
    ensures MakeBN(s, precision) == MakeBN(t, precision) <==> SameNumber(Read(s), Read(t))
  {
    MakeBNIsExact(s, precision);
    MakeBNIsExact(t, precision);
    ScaledIsInjective(MakeBN(s, precision).value, MakeBN(t, precision).value, Pow10(precision),
                      Read(s).num, Pow10(Read(s).places), Read(t).num, Pow10(Read(t).places));
  }

  // --- makeDecimal ---

  // `s.slice(-k)`. For k = 0 the argument is -0, and the slice is the whole string.
  function SliceFromEnd(s: string, k: nat): string {
    if k == 0 || k >= |s| then s else s[|s| - k..]
  }

  // The string `makeDecimal` hands to Decimal.
  function MakeDecimal(n: nat, digits: nat): string {
    var str := ToString(n);
    if |str| <= digits then "0." + (Zeros(digits - |str|) + str)
    else str[..|str| - digits] + "." + SliceFromEnd(str, digits)
  }

  lemma MakeDecimalParts(n: nat, digits: nat) returns (intPart: string, fraction: string)
    requires digits >= 1
    ensures MakeDecimal(n, digits) == intPart + "." + fraction
    ensures Canonical(intPart) && |fraction| == digits && AllDigits(intPart) && AllDigits(fraction)
    ensures AllDigits(intPart + fraction) && ParseNat(intPart + fraction) == n
  {
    var str := ToString(n);
    ParseToString(n);
    ToStringIsCanonical(n);
    if |str| <= digits {
      fraction := Zeros(digits - |str|) + str;
      intPart := "0";
      PaddedParts(digits - |str|, str);
      ZeroPoint(fraction);
    } else {
      intPart, fraction := CutParts(str, digits);
    }
  }

  lemma CutParts(str: string, digits: nat) returns (intPart: string, fraction: string)
    requires 1 <= digits < |str| && AllDigits(str)
    ensures intPart == str[..|str| - digits] && fraction == SliceFromEnd(str, digits)
    ensures intPart != "" && |fraction| == digits && intPart + fraction == str
    ensures AllDigits(intPart) && AllDigits(fraction)
  {
    intPart, fraction := str[..|str| - digits], str[|str| - digits..];
  }

  lemma ZeroPoint(fraction: string)
    ensures "0." + fraction == "0" + "." + fraction
  {
    assert "0." == "0" + ".";
  }

  lemma PaddedParts(padding: nat, s: string)
    requires AllDigits(s)
    ensures AllDigits("0" + (Zeros(padding) + s)) && ParseNat("0" + (Zeros(padding) + s)) == ParseNat(s)
  {
    LeadingZeros(padding + 1, s);
    assert "0" + (Zeros(padding) + s) == Zeros(padding + 1) + s;
  }

  lemma LeadingZeros(n: nat, s: string)
    requires AllDigits(s)
    ensures AllDigits(Zeros(n) + s) && ParseNat(Zeros(n) + s) == ParseNat(s)
  {
    ParseConcat(Zeros(n), s);
    ParseZeros(n);
  }

  lemma {:induction false} FirstPointAt(s: string, k: nat)
    requires k < |s| && s[k] == '.' && '.' !in s[..k]
    ensures FirstPoint(s) == k
  {
    if k > 0 {
      assert s[0] in s[..k];
      assert s[1..][..k - 1] == s[1..k];
      FirstPointAt(s[1..], k - 1);
    }
  }

  lemma PointedIsPlain(intPart: string, fraction: string)
    requires AllDigits(intPart) && AllDigits(fraction) && intPart != ""
    ensures IsPlainDecimal(intPart + "." + fraction)
    ensures Split(intPart + "." + fraction) == [intPart, fraction]
  {
    var s := intPart + "." + fraction;
    assert IsDigit(s[0]);
    assert s[..|intPart|] == intPart && s[|intPart| + 1..] == fraction;
    FirstPointAt(s, |intPart|);
  }

  // No superfluous zero in front.
  predicate Canonical(s: string) {
    s != "" && AllDigits(s) && (|s| > 1 ==> s[0] != '0')
  }

  lemma {:induction false} ToStringIsCanonical(n: nat)
    ensures Canonical(ToString(n)) && (n > 0 ==> ToString(n)[0] != '0')
  {
    if n >= 10 {
      ToStringIsCanonical(n / 10);
    }
  }

  lemma {:induction false} CanonicalIsPositive(s: string)
    requires Canonical(s) && s[0] != '0'
    ensures ParseNat(s) > 0
  {
    if |s| > 1 {
      CanonicalIsPositive(s[..|s| - 1]);
    } else {
      assert s[..0] == "";
    }
  }

  // There is one way to print a number.
  lemma {:induction false} CanonicalIsPrinted(s: string)
    requires Canonical(s)
    ensures ToString(ParseNat(s)) == s
  {
    var last := |s| - 1;
    if last > 0 {
      CanonicalIsPrinted(s[..last]);
      CanonicalIsPositive(s[..last]);
      assert s == s[..last] + [s[last]];
    } else {
      assert s[..0] == "" && s == [s[0]];
    }
  }

  lemma {:induction false} ParseBelow(s: string)
    requires AllDigits(s)
    ensures ParseNat(s) < Pow10(|s|)
  {
    if s != "" {
      ParseBelow(s[..|s| - 1]);
    }
  }

  function Quotient(n: nat, unit: nat): nat
    requires unit > 0
  {
    n / unit
  }

  function Rest(n: nat, unit: nat): nat
    requires unit > 0
  {
    n % unit
  }

  lemma QuotientAndRest(n: nat, unit: nat, q: nat, r: nat)
    requires unit > 0 && n == q * unit + r && r < unit
    ensures q == Quotient(n, unit) && r == Rest(n, unit)
  {
    var q', r' := n / unit, n % unit;
    assert n == q' * unit + r';
    if q < q' {
      CancelStep(q, q', unit);
    } else if q' < q {
      CancelStep(q', q, unit);
    }
  }

  lemma CancelStep(x: nat, y: nat, unit: nat)
    requires x < y
    ensures x * unit + unit <= y * unit
  {
    var gap := y - x - 1;
    assert y == x + 1 + gap;
    TimesSum(x, gap, unit);
  }

  lemma TimesSum(x: nat, gap: nat, unit: nat)
    ensures (x + 1 + gap) * unit == x * unit + unit + gap * unit >= x * unit + unit
  {
  }

  // Before the point stands the quotient by 10^digits as it is printed, and behind it the
  // rest, in just as many digits.
  lemma PrintsQuotientAndRest(n: nat, digits: nat) returns (fraction: string)
    requires digits >= 1
    ensures MakeDecimal(n, digits) == ToString(Quotient(n, Pow10(digits))) + "." + fraction
    ensures |fraction| == digits && AllDigits(fraction) && ParseNat(fraction) == Rest(n, Pow10(digits))
  {
    var intPart;
    intPart, fraction := MakeDecimalParts(n, digits);
    ParseConcat(intPart, fraction);
    ParseBelow(fraction);
    QuotientAndRest(n, Pow10(digits), ParseNat(intPart), ParseNat(fraction));
    CanonicalIsPrinted(intPart);
  }

  // The number printed is n / 10^digits for every positive number of digits; for zero
  // digits it is only for n = 0, because the fraction then repeats the whole number.
  lemma MakeDecimalDenotes(n: nat, digits: nat)
    ensures IsPlainDecimal(MakeDecimal(n, digits)) && Readable(MakeDecimal(n, digits))
    ensures SameNumber(Read(MakeDecimal(n, digits)), Reading(n, digits, true)) <==> digits >= 1 || n == 0
  {
    if digits >= 1 {
      var intPart, fraction := MakeDecimalParts(n, digits);
      PointedIsPlain(intPart, fraction);
      ReadPoint(intPart, fraction);
    } else {
      var str := ToString(n);
      assert str[..|str| - 0] == str;
      PointedIsPlain(str, str);
      ReadPoint(str, str);
      ParseConcat(str, str);
      ParseToString(n);
      assert (n * Pow10(|str|) + n) * Pow10(0) == n * Pow10(|str|) + n;
    }
  }

  // Parsing what was printed, at the same number of places, gives n back; exactly when
  // there is at least one place.
  lemma PrintThenParse(n: nat, digits: nat)
    ensures MakeBN(MakeDecimal(n, digits), digits) == Success(n) <==> digits >= 1
    ensures digits == 0 ==> MakeBN(MakeDecimal(n, digits), digits) == Failure(TooManyPlaces)
  {
    if digits >= 1 {
      var intPart, fraction := MakeDecimalParts(n, digits);
      PointedIsPlain(intPart, fraction);
      assert intPart + fraction + Zeros(0) == intPart + fraction;
    } else {
      var str := ToString(n);
      assert str[..|str| - 0] == str;
      PointedIsPlain(str, str);
    }
  }

  lemma SameNumberTransitive(a: Reading, b: Reading, c: Reading)
    requires SameNumber(a, b) && SameNumber(b, c)
    ensures SameNumber(a, c)
  {
    CrossTransitive(a.num, Pow10(a.places), b.num, Pow10(b.places), c.num, Pow10(c.places));
  }

  lemma CrossTransitive(a: nat, A: nat, b: nat, B: nat, c: nat, C: nat)
    requires B > 0 && a * B == b * A && b * C == c * B
    ensures a * C == c * A
  {
    calc {
      (a * C) * B;
      { Associate(a, C, B); }
      (a * B) * C;
      { Associate(b, A, C); }
      (b * C) * A;
      { Associate(c, B, A); }
      (c * A) * B;
    }
    CancelFactor(a * C, c * A, B);
  }

  // Printing what was parsed denotes the number that was given.
  lemma ParseThenPrint(s: string, precision: nat)
    requires IsPlainDecimal(s) && precision >= 1 && MakeBN(s, precision).Success?
    ensures var printed := MakeDecimal(MakeBN(s, precision).value, precision);
            Readable(s) && Readable(printed) && SameNumber(Read(printed), Read(s))
  {
    var n := MakeBN(s, precision).value;
    MakeBNIsExact(s, precision);
    MakeDecimalDenotes(n, precision);
    SameNumberTransitive(Read(MakeDecimal(n, precision)), Reading(n, precision, true), Read(s));
  }
}
