/** Plain decimal texts: the canonical form and the conversion to base units
    (packages/keeperhub-client/src/safe-execution.ts). */
module Decimals {
  import opened Results
  import opened Text
  import opened Numerals

  /** A decimal text split at its point. */
  datatype Decimal = Decimal(whole: string, fraction: string)

  predicate DecimalOk(d: Decimal) {
    d.whole != "" && AllDigits(d.whole, Dec) && AllDigits(d.fraction, Dec)
  }

  function Dot(s: string): (i: nat)
    ensures i <= |s| && '.' !in s[..i] && (i < |s| ==> s[i] == '.')
  {
    if s == "" || s[0] == '.' then 0 else 1 + Dot(s[1..])
  }

  /** `/^\d+(?:\.\d+)?$/u` */
  predicate IsDecimal(s: string) {
    var i := Dot(s);
    && i > 0 && AllDigits(s[..i], Dec)
    && (i < |s| ==> i + 1 < |s| && AllDigits(s[i + 1..], Dec))
  }

  /** `text.split(".")` */
  function Split(s: string): (d: Decimal)
    requires IsDecimal(s)
    ensures DecimalOk(d)
  {
    var i := Dot(s);
    Decimal(s[..i], if i < |s| then s[i + 1..] else "")
  }

  /** `replace(/^0+(?=\d)/u, "")` on digits. */
  function StripLeading(s: string): (r: string)
    requires s != "" && AllDigits(s, Dec)
    ensures AllDigits(r, Dec) && Minimal(r)
  {
    if |s| > 1 && s[0] == '0' then StripLeading(s[1..]) else s
  }

  /** `replace(/0+$/u, "")` */
  function StripTrailing(s: string): (r: string)
    requires AllDigits(s, Dec)
    ensures r <= s && AllDigits(r, Dec) && (r != "" ==> r[|r| - 1] != '0')
  {
    if s != "" && s[|s| - 1] == '0' then StripTrailing(s[..|s| - 1]) else s
  }

  function Print(d: Decimal): string {
    if d.fraction != "" then d.whole + "." + d.fraction else d.whole
  }

  function Reduced(d: Decimal): (r: Decimal)
    requires DecimalOk(d)
    ensures IsReduced(r) && DecimalOk(r)
  {
    Decimal(StripLeading(d.whole), StripTrailing(d.fraction))
  }

  predicate IsReduced(d: Decimal) {
    DecimalOk(d) && Minimal(d.whole) && (d.fraction != "" ==> d.fraction[|d.fraction| - 1] != '0')
  }

  datatype DecimalError = NotDecimal | TooManyPlaces

  function CanonicalDecimal(value: string): Result<string, DecimalError> {
    var text := Trim(value);
    if !IsDecimal(text) then Err(NotDecimal) else Ok(Print(Reduced(Split(text))))
  }

  function PadEnd(s: string, width: nat): (r: string)
    ensures |s| <= width ==> |r| == width && r == s + Zeros(width - |s|)
  {
    if |s| < width then s + Zeros(width - |s|) else s
  }

  /** `BigInt(whole) * 10n ** BigInt(decimals) + BigInt(fraction.padEnd(decimals, "0") || "0")` */
  function Units(d: Decimal, decimals: nat): nat
    requires DecimalOk(d) && |d.fraction| <= decimals
  {
    ZerosAreDigits(d.fraction, decimals - |d.fraction|);
    Value(d.whole, Dec) * Pow(Dec, decimals) + Value(PadEnd(d.fraction, decimals), Dec)
  }

  function DecimalToUnits(value: string, decimals: nat): Result<nat, DecimalError> {
    var text := Trim(value);
    if !IsDecimal(text) then Err(NotDecimal)
    else
      var d := Reduced(Split(text));
      if |d.fraction| > decimals then Err(TooManyPlaces) else Ok(Units(d, decimals))
  }

  lemma ZerosAreDigits(s: string, n: nat)
    requires AllDigits(s, Dec)
    ensures AllDigits(s + Zeros(n), Dec)
  {
  }

  // The number a decimal denotes

  /** All digits read as one integer: the number times ten to the number of places. */
  function Mantissa(d: Decimal): nat
    requires DecimalOk(d)
  {
    ValueConcat(d.whole, d.fraction, Dec);
    Value(d.whole + d.fraction, Dec)
  }

  /** Equality of the two rationals, cross-multiplied by the powers of ten of their places. */
  predicate SameNumber(d: Decimal, e: Decimal)
    requires DecimalOk(d) && DecimalOk(e)
  {
    Scaled(Dec, Mantissa(d), |e.fraction|) == Scaled(Dec, Mantissa(e), |d.fraction|)
  }

  /** `n` is the number times ten to the power `places`. */
  predicate IsUnits(d: Decimal, places: nat, n: nat)
    requires DecimalOk(d)
  {
    Scaled(Dec, Mantissa(d), places) == Scaled(Dec, n, |d.fraction|)
  }

  function Rational(d: Decimal): real
    requires DecimalOk(d)
  {
    Mantissa(d) as real / Pow(Dec, |d.fraction|) as real
  }

  lemma CrossMultiply(m: real, p: real, n: real, q: real)
    requires p > 0.0 && q > 0.0
    ensures m / p == n / q <==> m * q == n * p
  {
    var a, b := m / p, n / q;
    assert a * p == m && b * q == n;
    if a == b {
      assert m * q == a * p * q && n * p == b * q * p;
    }
    if m * q == n * p {
      assert a * (p * q) == (a * p) * q && b * (p * q) == (b * q) * p;
    }
  }

  /** The integer formulation is equality of rational numbers. */
  lemma SameNumberIsEqual(d: Decimal, e: Decimal)
    requires DecimalOk(d) && DecimalOk(e)
    ensures SameNumber(d, e) <==> Rational(d) == Rational(e)
  {
    hide Value, Pow, Scaled, AllDigits, Mantissa;
    var m, p, n, q := Mantissa(d), Pow(Dec, |d.fraction|), Mantissa(e), Pow(Dec, |e.fraction|);
    ScaledIsTimes(Dec, m, |e.fraction|);
    ScaledIsTimes(Dec, n, |d.fraction|);
    CrossMultiply(m as real, p as real, n as real, q as real);
    RealProduct(m, q);
    RealProduct(n, p);
  }

  lemma {:induction false} RealProduct(a: nat, b: nat)
    ensures (a * b) as real == a as real * b as real
  {
    if a > 0 {
      RealProduct(a - 1, b);
    }
  }

  // Reduction keeps the number

  lemma {:induction false} StripLeadingValue(s: string)
    requires s != "" && AllDigits(s, Dec)
    ensures Value(StripLeading(s), Dec) == Value(s, Dec)
  {
    if |s| > 1 && s[0] == '0' {
      StripLeadingValue(s[1..]);
      LeadingZeros(1, s[1..], Dec);
      assert Zeros(1) + s[1..] == s;
    }
  }

  lemma {:induction false} ScaledInjective(x: nat, y: nat, k: nat)
    requires Scaled(Dec, x, k) == Scaled(Dec, y, k)
    ensures x == y
  {
    if k > 0 {
      ScaledInjective(x, y, k - 1);
    }
  }

  lemma {:induction false} ScaledScaled(x: nat, j: nat, k: nat)
    ensures Scaled(Dec, Scaled(Dec, x, j), k) == Scaled(Dec, x, j + k)
  {
    if k > 0 {
      ScaledScaled(x, j, k - 1);
    }
  }

  /** Dropping a trailing zero divides the digits by ten. */
  lemma DropZero(s: string)
    requires AllDigits(s, Dec) && s != "" && s[|s| - 1] == '0'
    ensures Value(s, Dec) == Shift(Dec, Value(s[..|s| - 1], Dec))
  {
  }

  lemma {:induction false} StripTrailingValue(whole: string, fraction: string)
    requires AllDigits(whole, Dec) && AllDigits(fraction, Dec)
    ensures var r := StripTrailing(fraction);
      && AllDigits(whole + fraction, Dec) && AllDigits(whole + r, Dec)
      && Value(whole + fraction, Dec) == Scaled(Dec, Value(whole + r, Dec), |fraction| - |r|)
  {
    hide Value, AllDigits;
    ValueConcat(whole, fraction, Dec);
    ValueConcat(whole, StripTrailing(fraction), Dec);
    if fraction != "" && fraction[|fraction| - 1] == '0' {
      var rest := fraction[..|fraction| - 1];
      assert AllDigits(rest, Dec) by { DigitsPrefix(fraction, |rest|); }
      StripTrailingValue(whole, rest);
      assert (whole + fraction)[..|whole + fraction| - 1] == whole + rest;
      DropZero(whole + fraction);
    }
  }

  lemma DigitsPrefix(s: string, n: nat)
    requires AllDigits(s, Dec) && n <= |s|
    ensures AllDigits(s[..n], Dec)
  {
  }

  lemma ReducedSameNumber(d: Decimal)
    requires DecimalOk(d)
    ensures SameNumber(d, Reduced(d))
  {
    hide Value, AllDigits, Scaled;
    var r := Reduced(d);
    ValueConcat(d.whole, r.fraction, Dec);
    ValueConcat(r.whole, r.fraction, Dec);
    StripLeadingValue(d.whole);
    StripTrailingValue(d.whole, d.fraction);
    assert Mantissa(d) == Scaled(Dec, Mantissa(r), |d.fraction| - |r.fraction|);
    ScaledScaled(Mantissa(r), |d.fraction| - |r.fraction|, |r.fraction|);
  }

  // Reduced decimals are unique

  lemma LastDigitNonzero(d: Decimal)
    requires IsReduced(d) && d.fraction != ""
    ensures Mantissa(d) % 10 != 0
  {
    hide AllDigits, Value, Minimal;
    var c := d.fraction[|d.fraction| - 1];
    LastPlace(d.whole, d.fraction);
    NonzeroDigit(c);
    ShiftModTen(Value(d.whole + d.fraction[..|d.fraction| - 1], Dec), DigitValue(c));
  }

  lemma NonzeroDigit(c: char)
    requires IsDigit(c, Dec) && c != '0'
    ensures 0 < DigitValue(c) < 10
  {
  }

  lemma ShiftModTen(x: nat, d: nat)
    requires d < 10
    ensures (Shift(Dec, x) + d) % 10 == d
  {
  }

  lemma ScaledModTen(x: nat, k: nat)
    requires k > 0
    ensures Scaled(Dec, x, k) % 10 == 0
  {
  }

  lemma FewerPlacesImpossible(d: Decimal, e: Decimal)
    requires IsReduced(d) && IsReduced(e) && SameNumber(d, e)
    ensures |e.fraction| <= |d.fraction|
  {
    hide Value, AllDigits, Mantissa, Scaled, Shift;
    var j, k := |d.fraction|, |e.fraction|;
    if j < k {
      assert e.fraction != "";
      LastDigitNonzero(e);
      ScaledModTen(Mantissa(d), k - j);
      ScaledScaled(Mantissa(d), k - j, j);
      ScaledInjective(Scaled(Dec, Mantissa(d), k - j), Mantissa(e), j);
    }
  }

  lemma {:induction false} SameDecimals(v: string, f: string, w: string, g: string)
    requires AllDigits(v, Dec) && AllDigits(w, Dec) && Minimal(v) && Minimal(w)
    requires AllDigits(f, Dec) && AllDigits(g, Dec) && |f| == |g|
    requires AllDigits(v + f, Dec) && AllDigits(w + g, Dec) && Value(v + f, Dec) == Value(w + g, Dec)
    ensures v == w && f == g
  {
    hide Value, AllDigits, IsDigit, DigitValue, Minimal;
    if f == "" {
      assert v + f == v && w + g == w;
      MinimalUnique(v, w);
    } else {
      LastPlace(v, f);
      LastPlace(w, g);
      var f', g' := f[..|f| - 1], g[..|g| - 1];
      SameDigit(f[|f| - 1], g[|g| - 1], Value(v + f', Dec), Value(w + g', Dec), Dec);
      SameDecimals(v, f', w, g');
      DecimalChar(f[|f| - 1]);
      DecimalChar(g[|g| - 1]);
      assert f == f' + [f[|f| - 1]] && g == g' + [g[|g| - 1]];
    }
  }

  lemma LastPlace(v: string, f: string)
    requires AllDigits(v, Dec) && AllDigits(f, Dec) && f != ""
    ensures var f' := f[..|f| - 1]; var c := f[|f| - 1];
      && AllDigits(f', Dec) && AllDigits(v + f', Dec) && AllDigits(v + f, Dec) && IsDigit(c, Dec)
      && Value(v + f, Dec) == Shift(Dec, Value(v + f', Dec)) + DigitValue(c)
  {
    hide Value;
    var f', c := f[..|f| - 1], f[|f| - 1];
    assert v + f == (v + f') + [c];
    LastDigit(v + f', c, Dec);
  }

  lemma DecimalChar(c: char)
    ensures IsDigit(c, Dec) ==> LowerChar(c) == c
  {
  }

  lemma MinimalUnique(v: string, w: string)
    requires AllDigits(v, Dec) && AllDigits(w, Dec) && Minimal(v) && Minimal(w) && Value(v, Dec) == Value(w, Dec)
    ensures v == w
  {
    hide Value;
    NumeralUnique(v, Dec);
    NumeralUnique(w, Dec);
    DecimalsAreLower(v);
    DecimalsAreLower(w);
  }

  lemma DecimalsAreLower(s: string)
    requires AllDigits(s, Dec)
    ensures Lower(s) == s
  {
    assert forall i :: 0 <= i < |s| ==> IsDigit(s[i], Dec) && Lower(s)[i] == s[i];
  }

  lemma ReducedUnique(d: Decimal, e: Decimal)
    requires IsReduced(d) && IsReduced(e) && SameNumber(d, e)
    ensures d == e
  {
    hide Value, AllDigits, Scaled;
    FewerPlacesImpossible(d, e);
    FewerPlacesImpossible(e, d);
    ScaledInjective(Mantissa(d), Mantissa(e), |d.fraction|);
    ValueConcat(d.whole, d.fraction, Dec);
    ValueConcat(e.whole, e.fraction, Dec);
    SameDecimals(d.whole, d.fraction, e.whole, e.fraction);
  }

  // Printing and reading reduced decimals

  lemma DigitsHaveNoDot(s: string)
    requires AllDigits(s, Dec)
    ensures '.' !in s && forall c | c in s :: !IsSpace(c)
  {
    if c :| c in s {
      var i :| 0 <= i < |s| && s[i] == c;
      assert IsDigit(s[i], Dec);
    }
    forall c | c in s ensures c != '.' && !IsSpace(c) {
      var i :| 0 <= i < |s| && s[i] == c;
      assert IsDigit(s[i], Dec);
    }
  }

  lemma {:induction false} DotOfConcat(a: string, b: string)
    requires '.' !in a
    ensures Dot(a + b) == |a| + Dot(b)
  {
    if a == "" {
      assert a + b == b;
    } else {
      DotOfConcat(a[1..], b);
      assert (a + b)[1..] == a[1..] + b;
    }
  }

  lemma PrintWhole(whole: string)
    requires whole != "" && AllDigits(whole, Dec)
    ensures IsDecimal(whole) && Split(whole) == Decimal(whole, "") && Trim(whole) == whole
  {
    hide AllDigits, IsSpace, TrimStart, TrimEnd;
    DigitsHaveNoDot(whole);
    TrimNoSpace(whole);
    DotOfConcat(whole, "");
    assert whole + "" == whole && whole[..|whole|] == whole;
  }

  lemma PrintBoth(whole: string, fraction: string)
    requires whole != "" && fraction != "" && AllDigits(whole, Dec) && AllDigits(fraction, Dec)
    ensures var s := whole + "." + fraction;
      IsDecimal(s) && Split(s) == Decimal(whole, fraction) && Trim(s) == s
  {
    hide AllDigits, IsSpace, TrimStart, TrimEnd, Trim;
    var s := whole + "." + fraction;
    DigitsHaveNoDot(whole);
    DigitsHaveNoDot(fraction);
    DotIsNoSpace();
    TrimNoSpace(s);
    DotOfConcat(whole, "." + fraction);
    assert s == whole + ("." + fraction) && Dot("." + fraction) == 0;
    assert s[..|whole|] == whole && s[|whole| + 1..] == fraction;
  }

  lemma DotIsNoSpace()
    ensures !IsSpace('.')
  {
  }

  lemma PrintSplit(d: Decimal)
    requires DecimalOk(d)
    ensures IsDecimal(Print(d)) && Split(Print(d)) == d && Trim(Print(d)) == Print(d)
  {
    hide AllDigits, IsDecimal, Split, Trim;
    if d.fraction == "" {
      PrintWhole(d.whole);
    } else {
      PrintBoth(d.whole, d.fraction);
    }
  }

  lemma ReducedFixed(d: Decimal)
    requires IsReduced(d)
    ensures Reduced(d) == d
  {
  }

  // Results

  /** The canonical text is a fixed point and denotes the same number. */
  lemma CanonicalIdempotent(value: string)
    requires CanonicalDecimal(value).Ok?
    ensures var c := CanonicalDecimal(value).value;
      && CanonicalDecimal(c) == Ok(c)
      && IsDecimal(Trim(value)) && IsDecimal(c)
      && Rational(Split(c)) == Rational(Split(Trim(value)))
  {
    hide Reduced, IsReduced, IsDecimal, Split, Rational, SameNumber, Print, Trim;
    var d := Split(Trim(value));
    var r := Reduced(d);
    PrintSplit(r);
    ReducedFixed(r);
    ReducedSameNumber(d);
    SameNumberIsEqual(d, r);
  }

  /** Two inputs share a canonical text exactly when they denote the same number. */
  lemma CanonicalIffEqual(v: string, w: string)
    requires CanonicalDecimal(v).Ok? && CanonicalDecimal(w).Ok?
    ensures IsDecimal(Trim(v)) && IsDecimal(Trim(w))
    ensures CanonicalDecimal(v) == CanonicalDecimal(w) <==> Rational(Split(Trim(v))) == Rational(Split(Trim(w)))
  {
    hide Reduced, IsReduced, IsDecimal, Split, Rational, SameNumber, Print, Trim;
    var d, e := Split(Trim(v)), Split(Trim(w));
    CanonicalIdempotent(v);
    CanonicalIdempotent(w);
    var r, q := Reduced(d), Reduced(e);
    PrintSplit(r);
    PrintSplit(q);
    if Rational(d) == Rational(e) {
      SameNumberIsEqual(r, q);
      ReducedUnique(r, q);
    }
  }

  lemma UnitsFromReduced(r: Decimal, decimals: nat)
    requires IsReduced(r) && |r.fraction| <= decimals
    ensures Units(r, decimals) == Scaled(Dec, Mantissa(r), decimals - |r.fraction|)
  {
    hide Value, AllDigits, Scaled, Pow;
    var k := decimals - |r.fraction|;
    ZerosAreDigits(r.fraction, k);
    ZerosAreDigits("", k);
    var padded := r.fraction + Zeros(k);
    assert "" + Zeros(k) == Zeros(k) && Zeros(k) + "" == Zeros(k);
    ZerosValue(k);
    ValueConcat(r.whole, r.fraction, Dec);
    ValueConcat(r.whole + r.fraction, Zeros(k), Dec);
    ValueConcat(r.whole, padded, Dec);
    assert (r.whole + r.fraction) + Zeros(k) == r.whole + padded;
    ScaledIsTimes(Dec, Value(r.whole, Dec), decimals);
  }

  lemma ZerosValue(k: nat)
    ensures AllDigits(Zeros(k), Dec) && Value(Zeros(k), Dec) == 0
  {
    LeadingZeros(k, "", Dec);
    assert Zeros(k) + "" == Zeros(k);
  }

  lemma IntegerOnlyWithinPlaces(r: Decimal, decimals: nat, n: nat)
    requires IsReduced(r) && IsUnits(r, decimals, n)
    ensures |r.fraction| <= decimals
  {
    hide Value, AllDigits, Mantissa, Scaled, Shift;
    var j := |r.fraction|;
    if decimals < j {
      assert r.fraction != "";
      LastDigitNonzero(r);
      ScaledModTen(n, j - decimals);
      ScaledScaled(n, j - decimals, decimals);
      ScaledInjective(Mantissa(r), Scaled(Dec, n, j - decimals), decimals);
    }
  }

  lemma UnitsTransfer(d: Decimal, e: Decimal, places: nat, n: nat)
    requires DecimalOk(d) && DecimalOk(e) && SameNumber(d, e) && IsUnits(d, places, n)
    ensures IsUnits(e, places, n)
  {
    hide Value, AllDigits, Mantissa, Scaled;
    var j, k := |d.fraction|, |e.fraction|;
    ScaledScaled(Mantissa(d), places, k);
    ScaledScaled(Mantissa(d), k, places);
    ScaledScaled(n, j, k);
    ScaledScaled(n, k, j);
    ScaledScaled(Mantissa(e), j, places);
    ScaledScaled(Mantissa(e), places, j);
    ScaledInjective(Scaled(Dec, Mantissa(e), places), Scaled(Dec, n, k), j);
  }

  /** Conversion to base units is exact, and it is refused exactly when the number has no whole number of units. */
  lemma UnitsExact(value: string, decimals: nat)
    requires IsDecimal(Trim(value))
    ensures DecimalToUnits(value, decimals).Ok? ==>
              IsUnits(Split(Trim(value)), decimals, DecimalToUnits(value, decimals).value)
    ensures DecimalToUnits(value, decimals).Ok? <==> exists n :: IsUnits(Split(Trim(value)), decimals, n)
  {
    hide IsDecimal, Split, Trim, Value, AllDigits, Mantissa, SameNumber, IsUnits, Reduced, IsReduced;
    var d := Split(Trim(value));
    var r := Reduced(d);
    ReducedSameNumber(d);
    SameNumberSymmetric(d, r);
    if |r.fraction| <= decimals {
      UnitsFromReduced(r, decimals);
      UnitsOfReduced(r, decimals);
      UnitsTransfer(r, d, decimals, Scaled(Dec, Mantissa(r), decimals - |r.fraction|));
    } else if n :| IsUnits(d, decimals, n) {
      UnitsTransfer(d, r, decimals, n);
      IntegerOnlyWithinPlaces(r, decimals, n);
    }
  }

  lemma SameNumberSymmetric(d: Decimal, e: Decimal)
    requires DecimalOk(d) && DecimalOk(e) && SameNumber(d, e)
    ensures SameNumber(e, d)
  {
  }

  lemma UnitsOfReduced(r: Decimal, decimals: nat)
    requires IsReduced(r) && |r.fraction| <= decimals
    ensures IsUnits(r, decimals, Scaled(Dec, Mantissa(r), decimals - |r.fraction|))
  {
    ScaledScaled(Mantissa(r), decimals - |r.fraction|, |r.fraction|);
  }

  /** The unit count decides a cap exactly: it is above the cap when the number exceeds the cap's share of one. */
  lemma CapIsExact(value: string, decimals: nat, cap: nat)
    requires IsDecimal(Trim(value)) && DecimalToUnits(value, decimals).Ok?
    ensures DecimalToUnits(value, decimals).value > cap <==>
            Scaled(Dec, Mantissa(Split(Trim(value))), decimals) > Scaled(Dec, cap, |Split(Trim(value)).fraction|)
  {
    hide Split, Trim, Mantissa, DecimalToUnits, IsDecimal, Scaled;
    UnitsExact(value, decimals);
    ScaledMonotone(DecimalToUnits(value, decimals).value, cap, |Split(Trim(value)).fraction|);
  }

  lemma {:induction false} ScaledMonotone(x: nat, y: nat, k: nat)
    ensures x > y <==> Scaled(Dec, x, k) > Scaled(Dec, y, k)
  {
    if k > 0 {
      ScaledMonotone(x, y, k - 1);
    }
  }
}
