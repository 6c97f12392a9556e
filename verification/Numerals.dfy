/** Positional numerals in base 10 and base 16: reading, minimal printing and zero padding.
    `BigInt(text)`, `BigInt("0x" + text)`, `toString()` and `toString(16)` are these functions. */
module Numerals {
  import opened Text

  datatype Base = Dec | Hex

  /** `Number.MAX_SAFE_INTEGER` */
  const MAX_SAFE_INTEGER: nat := 9007199254740991

  /** One more digit position; kept linear so that the proofs need no multiplication. */
  function Shift(b: Base, x: nat): nat {
    match b
    case Dec => 10 * x
    case Hex => 16 * x
  }

  function Radix(b: Base): nat {
    match b
    case Dec => 10
    case Hex => 16
  }

  function Pow(b: Base, e: nat): (r: nat)
    ensures r > 0
  {
    if e == 0 then 1 else Shift(b, Pow(b, e - 1))
  }

  /** `x` followed by `k` zero digits: x times the k-th power of the radix. */
  function Scaled(b: Base, x: nat, k: nat): nat {
    if k == 0 then x else Shift(b, Scaled(b, x, k - 1))
  }

  lemma {:induction false} ScaledIsTimes(b: Base, x: nat, k: nat)
    ensures Scaled(b, x, k) == x * Pow(b, k)
  {
    if k > 0 {
      ScaledIsTimes(b, x, k - 1);
      ShiftIsTimes(b, x, Pow(b, k - 1));
    }
  }

  lemma ShiftIsTimes(b: Base, x: nat, p: nat)
    ensures Shift(b, x * p) == x * Shift(b, p)
  {
  }

  lemma {:induction false} PowGrows(b: Base, m: nat, n: nat)
    requires m <= n
    ensures Pow(b, m) <= Pow(b, n)
  {
    if m < n {
      PowGrows(b, m, n - 1);
    }
  }

  /** The value of a digit character in either letter case; 16 for other characters. */
  function DigitValue(c: char): (d: nat)
    ensures d <= 16
  {
    if '0' <= c <= '9' then (c - '0') as int
    else if 'a' <= c <= 'f' then (c - 'a') as int + 10
    else if 'A' <= c <= 'F' then (c - 'A') as int + 10
    else 16
  }

  function DigitChar(d: nat): (c: char)
    requires d < 16
    ensures DigitValue(c) == d && LowerChar(c) == c
  {
    if d < 10 then '0' + d as char else 'a' + (d - 10) as char
  }

  predicate IsDigit(c: char, b: Base) {
    DigitValue(c) < Radix(b)
  }

  predicate AllDigits(s: string, b: Base) {
    forall i :: 0 <= i < |s| ==> IsDigit(s[i], b)
  }

  /** The number a digit text denotes; the empty text denotes zero. */
  function Value(s: string, b: Base): nat
    requires AllDigits(s, b)
  {
    if s == "" then 0 else Shift(b, Value(s[..|s| - 1], b)) + DigitValue(s[|s| - 1])
  }

  /** No redundant leading zero. */
  predicate Minimal(s: string) {
    s != "" && (s[0] == '0' ==> |s| == 1)
  }

  /** The minimal lower-case numeral of a number. */
  function Numeral(n: nat, b: Base): (s: string)
    ensures s != "" && AllDigits(s, b) && IsLower(s)
    ensures Value(s, b) == n
    ensures Minimal(s)
    decreases n
  {
    if n < Radix(b) then
      assert [DigitChar(n)][..0] == "";
      [DigitChar(n)]
    else
      var q := Numeral(n / Radix(b), b);
      var s := q + [DigitChar(n % Radix(b))];
      assert s[..|s| - 1] == q;
      assert q != "0" by { assert "0"[..0] == ""; }
      s
  }

  lemma LastDigit(s: string, c: char, b: Base)
    requires AllDigits(s, b) && IsDigit(c, b)
    ensures AllDigits(s + [c], b)
    ensures Value(s + [c], b) == Shift(b, Value(s, b)) + DigitValue(c)
  {
    assert (s + [c])[..|s|] == s;
  }

  lemma SameDigit(c: char, d: char, x: nat, y: nat, b: Base)
    requires IsDigit(c, b) && IsDigit(d, b)
    requires Shift(b, x) + DigitValue(c) == Shift(b, y) + DigitValue(d)
    ensures x == y && LowerChar(c) == LowerChar(d)
  {
  }

  lemma {:induction false} ValueBound(s: string, b: Base)
    requires AllDigits(s, b)
    ensures Value(s, b) < Pow(b, |s|)
  {
    if s != "" {
      ValueBound(s[..|s| - 1], b);
    }
  }

  lemma {:induction false} ValueConcat(s: string, t: string, b: Base)
    requires AllDigits(s, b) && AllDigits(t, b)
    ensures AllDigits(s + t, b)
    ensures Value(s + t, b) == Scaled(b, Value(s, b), |t|) + Value(t, b)
  {
    if t == "" {
      assert s + t == s;
    } else {
      var u, c := t[..|t| - 1], t[|t| - 1];
      ValueConcat(s, u, b);
      assert s + t == (s + u) + [c];
      LastDigit(s + u, c, b);
    }
  }

  lemma {:induction false} LeadingZeros(n: nat, t: string, b: Base)
    requires AllDigits(t, b)
    ensures AllDigits(Zeros(n) + t, b)
    ensures Value(Zeros(n) + t, b) == Value(t, b)
  {
    if t != "" {
      var u, c := t[..|t| - 1], t[|t| - 1];
      LeadingZeros(n, u, b);
      assert Zeros(n) + t == (Zeros(n) + u) + [c];
      LastDigit(Zeros(n) + u, c, b);
    } else if n > 0 {
      LeadingZeros(n - 1, t, b);
      assert Zeros(n) + t == (Zeros(n - 1) + t) + ['0'];
      LastDigit(Zeros(n - 1) + t, '0', b);
    }
  }

  lemma {:induction false} SameDigits(s: string, t: string, b: Base, i: nat)
    requires AllDigits(s, b) && AllDigits(t, b)
    requires |s| == |t| && Value(s, b) == Value(t, b) && i < |s|
    ensures LowerChar(s[i]) == LowerChar(t[i])
  {
    var s', t' := s[..|s| - 1], t[..|t| - 1];
    SameDigit(s[|s| - 1], t[|t| - 1], Value(s', b), Value(t', b), b);
    if i < |s'| {
      SameDigits(s', t', b, i);
    }
  }

  /** Texts of the same length that denote the same number differ at most in letter case. */
  lemma ValueInjective(s: string, t: string, b: Base)
    requires AllDigits(s, b) && AllDigits(t, b)
    requires |s| == |t| && Value(s, b) == Value(t, b)
    ensures Lower(s) == Lower(t)
  {
    hide Value, AllDigits;
    forall i | 0 <= i < |s| ensures LowerChar(s[i]) == LowerChar(t[i]) {
      SameDigits(s, t, b, i);
    }
  }

  lemma {:induction false} MinimalLowerBound(s: string, b: Base)
    requires AllDigits(s, b) && Minimal(s)
    ensures |s| > 1 ==> Value(s, b) >= Pow(b, |s| - 1)
  {
    if |s| == 2 {
      assert s[..1][..0] == "";
      assert Value(s[..1], b) == DigitValue(s[0]) >= 1;
      assert Pow(b, 1) == Radix(b);
    } else if |s| > 2 {
      MinimalLowerBound(s[..|s| - 1], b);
    }
  }

  lemma SameMinimalLength(s: string, t: string, b: Base)
    requires AllDigits(s, b) && Minimal(s) && AllDigits(t, b) && Minimal(t)
    requires Value(s, b) == Value(t, b)
    ensures |s| <= |t|
  {
    ValueBound(t, b);
    MinimalLowerBound(s, b);
    if |t| < |s| {
      PowGrows(b, |t|, |s| - 1);
    }
  }

  /** Printing gives the only minimal lower-case numeral of a value. */
  lemma NumeralUnique(s: string, b: Base)
    requires AllDigits(s, b) && Minimal(s)
    ensures Numeral(Value(s, b), b) == Lower(s)
  {
    var t := Numeral(Value(s, b), b);
    SameMinimalLength(s, t, b);
    SameMinimalLength(t, s, b);
    ValueInjective(s, t, b);
    LowerOfLower(t);
  }

  lemma NumeralLength(n: nat, width: nat, b: Base)
    requires width >= 1
    ensures |Numeral(n, b)| <= width <==> n < Pow(b, width)
  {
    var s := Numeral(n, b);
    ValueBound(s, b);
    MinimalLowerBound(s, b);
    if |s| <= width {
      PowGrows(b, |s|, width);
    } else {
      PowGrows(b, width, |s| - 1);
    }
  }

  /** A fixed-width numeral: `toString(16).padStart(width, "0")`. */
  function Padded(n: nat, width: nat, b: Base): (s: string)
    requires width >= 1 && n < Pow(b, width)
    ensures |s| == width && AllDigits(s, b) && IsLower(s)
    ensures Value(s, b) == n
  {
    var t := Numeral(n, b);
    NumeralLength(n, width, b);
    LeadingZeros(width - |t|, t, b);
    assert PadZeros(t, width) == Zeros(width - |t|) + t;
    PadZeros(t, width)
  }

  lemma {:induction false} LowerKeepsValue(s: string, b: Base)
    requires AllDigits(s, b)
    ensures AllDigits(Lower(s), b) && Value(Lower(s), b) == Value(s, b)
  {
    assert forall i :: 0 <= i < |s| ==> DigitValue(Lower(s)[i]) == DigitValue(s[i]);
    if s != "" {
      LowerKeepsValue(s[..|s| - 1], b);
      assert Lower(s)[..|s| - 1] == Lower(s[..|s| - 1]);
    }
  }
}
