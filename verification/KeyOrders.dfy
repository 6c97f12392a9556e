/** The order in which the serializer enumerates the keys of a sorted object. */
module KeyOrders {
  import opened Numerals
  import Text

  /** `before(a, b)`: key `a` comes before key `b`. */
  type Order = (string, string) -> bool

  ghost predicate StrictOrder(before: Order) {
    && (forall a :: !before(a, a))
    && (forall a, b, c :: before(a, b) && before(b, c) ==> before(a, c))
  }

  ghost predicate Total(before: Order) {
    forall a, b :: a != b ==> before(a, b) || before(b, a)
  }

  ghost predicate TotalOrder(before: Order) {
    StrictOrder(before) && Total(before)
  }

  // Array sort without a comparator: lexicographic on UTF-16 code units

  /** Orders characters as their UTF-16 encodings: surrogate pairs sort below U+E000. */
  function Rank(c: char): nat {
    var n := c as int;
    if n < 0xD800 then n else if n < 0x10000 then n + 0x100000 else n - 0x10000 + 0xD800
  }

  predicate CodeUnitBefore(a: string, b: string) {
    if a == "" || b == "" then a == "" && b != ""
    else if a[0] == b[0] then CodeUnitBefore(a[1..], b[1..])
    else Rank(a[0]) < Rank(b[0])
  }

  lemma RankInjective(c: char, d: char)
    requires Rank(c) == Rank(d)
    ensures c == d
  {
    assert c as int < 0xD800 || 0xE000 <= c as int < 0x110000;
    assert d as int < 0xD800 || 0xE000 <= d as int < 0x110000;
  }

  lemma {:induction false} CodeUnitTransitive(a: string, b: string, c: string)
    requires CodeUnitBefore(a, b) && CodeUnitBefore(b, c)
    ensures CodeUnitBefore(a, c)
  {
    if a != "" && b != "" && c != "" && a[0] == b[0] == c[0] {
      CodeUnitTransitive(a[1..], b[1..], c[1..]);
    }
  }

  lemma {:induction false} CodeUnitTotal(a: string, b: string)
    ensures !CodeUnitBefore(a, a)
    ensures a != b ==> CodeUnitBefore(a, b) || CodeUnitBefore(b, a)
  {
    if a != "" {
      CodeUnitTotal(a[1..], if b == "" then "" else b[1..]);
      if b != "" {
        if a[0] == b[0] {
          assert a == [a[0]] + a[1..] && b == [b[0]] + b[1..];
        } else if Rank(a[0]) == Rank(b[0]) {
          RankInjective(a[0], b[0]);
        }
      }
    }
  }

  lemma CodeUnitIsTotalOrder()
    ensures TotalOrder(CodeUnitBefore)
  {
    hide CodeUnitBefore;
    forall a, b ensures !CodeUnitBefore(a, a) && (a != b ==> CodeUnitBefore(a, b) || CodeUnitBefore(b, a)) {
      CodeUnitTotal(a, b);
    }
    forall a, b, c | CodeUnitBefore(a, b) && CodeUnitBefore(b, c) ensures CodeUnitBefore(a, c) {
      CodeUnitTransitive(a, b, c);
    }
  }

  /** The UTF-16 encoding of a character, section 2.1 of RFC 2781. */
  function Units(c: char): seq<nat> {
    var n := c as int;
    if n < 0x10000 then [n] else [0xD800 + (n - 0x10000) / 0x400, 0xDC00 + (n - 0x10000) % 0x400]
  }

  function Encoding(s: string): seq<nat> {
    if s == "" then [] else Units(s[0]) + Encoding(s[1..])
  }

  /** The first place where two encodings differ decides; a proper beginning comes first. */
  predicate Decides(x: seq<nat>, y: seq<nat>, k: nat) {
    k <= |x| && k < |y| && (forall i | 0 <= i < k :: x[i] == y[i]) && (k == |x| || x[k] < y[k])
  }

  predicate Lexicographic(x: seq<nat>, y: seq<nat>) {
    exists k | 0 <= k <= |x| :: Decides(x, y, k)
  }

  /** The order of keys is the lexicographic order of their UTF-16 encodings. */
  lemma {:induction false} CodeUnitIff(a: string, b: string)
    ensures CodeUnitBefore(a, b) <==> Lexicographic(Encoding(a), Encoding(b))
  {
    hide Lexicographic;
    if a == "" || b == "" {
      EmptyFirst(Encoding(a), Encoding(b));
    } else if a[0] == b[0] {
      CodeUnitIff(a[1..], b[1..]);
      SameStart(Units(a[0]), Encoding(a[1..]), Encoding(b[1..]));
    } else {
      UnitsDecide(a[0], Encoding(a[1..]), b[0], Encoding(b[1..]));
    }
  }

  lemma EmptyFirst(x: seq<nat>, y: seq<nat>)
    requires x == [] || y == []
    ensures Lexicographic(x, y) <==> x == [] && y != []
  {
    assert x == [] && y != [] ==> Decides(x, y, 0);
  }

  lemma SameStart(u: seq<nat>, x: seq<nat>, y: seq<nat>)
    ensures Lexicographic(u + x, u + y) <==> Lexicographic(x, y)
  {
    hide Decides;
    if k :| 0 <= k <= |x| && Decides(x, y, k) {
      StartAdded(u, x, y, k);
    }
    if k :| 0 <= k <= |u + x| && Decides(u + x, u + y, k) {
      StartDropped(u, x, y, k);
    }
  }

  lemma StartAdded(u: seq<nat>, x: seq<nat>, y: seq<nat>, k: nat)
    requires Decides(x, y, k)
    ensures Decides(u + x, u + y, |u| + k)
  {
  }

  lemma StartDropped(u: seq<nat>, x: seq<nat>, y: seq<nat>, k: nat)
    requires Decides(u + x, u + y, k)
    ensures k >= |u| && Decides(x, y, k - |u|)
  {
    assert forall i | 0 <= i < |u| :: (u + x)[i] == (u + y)[i];
    forall i | 0 <= i < k - |u| ensures x[i] == y[i] {
      assert (u + x)[|u| + i] == x[i] && (u + y)[|u| + i] == y[i];
    }
  }

  lemma HeadDecides(x: seq<nat>, y: seq<nat>)
    requires x != [] && y != [] && x[0] != y[0]
    ensures Lexicographic(x, y) <==> x[0] < y[0]
  {
    assert x[0] < y[0] ==> Decides(x, y, 0);
  }

  lemma UnitsDecide(c: char, x: seq<nat>, d: char, y: seq<nat>)
    requires c != d
    ensures Lexicographic(Units(c) + x, Units(d) + y) <==> Rank(c) < Rank(d)
  {
    hide Lexicographic;
    CharRange(c);
    CharRange(d);
    var u, v := Units(c), Units(d);
    if u[0] != v[0] {
      HeadDecides(u + x, v + y);
    } else {
      assert |u| == 2 && |v| == 2 && u[1] != v[1];
      assert u + x == [u[0]] + ([u[1]] + x) && v + y == [u[0]] + ([v[1]] + y);
      SameStart([u[0]], [u[1]] + x, [v[1]] + y);
      HeadDecides([u[1]] + x, [v[1]] + y);
    }
  }

  lemma CharRange(c: char)
    ensures c as int < 0xD800 || 0xE000 <= c as int < 0x110000
  {
  }

  // Enumeration: keys that are array indices come first, in ascending order

  predicate IsIndex(key: string) {
    AllDigits(key, Dec) && Minimal(key) && Value(key, Dec) < 0xFFFF_FFFF
  }

  /** The enumeration order of an object whose keys were inserted in the order `before`. */
  function Enumerated(before: Order): Order {
    (a, b) =>
      if IsIndex(a) then !IsIndex(b) || Value(a, Dec) < Value(b, Dec)
      else !IsIndex(b) && before(a, b)
  }

  lemma IndexValueInjective(a: string, b: string)
    requires IsIndex(a) && IsIndex(b) && Value(a, Dec) == Value(b, Dec)
    ensures a == b
  {
    hide Value;
    NumeralUnique(a, Dec);
    NumeralUnique(b, Dec);
    assert forall i :: 0 <= i < |a| ==> IsDigit(a[i], Dec);
    assert forall i :: 0 <= i < |b| ==> IsDigit(b[i], Dec);
    assert a == Text.Lower(a) && b == Text.Lower(b);
  }

  /** An index key is the numeral of a number below 2^32 - 1. */
  lemma IndexIff(key: string)
    ensures IsIndex(key) <==> exists n | 0 <= n < 4_294_967_295 :: key == Numeral(n, Dec)
  {
    hide Value, AllDigits, Minimal;
    if IsIndex(key) {
      KeyIsNumeral(key);
      var n := Value(key, Dec);
      assert 0 <= n < 4_294_967_295 && key == Numeral(n, Dec);
    }
    if n :| 0 <= n < 4_294_967_295 && key == Numeral(n, Dec) {
      assert AllDigits(key, Dec) && Minimal(key) && Value(key, Dec) == n;
    }
  }

  lemma KeyIsNumeral(key: string)
    requires IsIndex(key)
    ensures key == Numeral(Value(key, Dec), Dec)
  {
    hide Value, AllDigits, Minimal;
    var t := Numeral(Value(key, Dec), Dec);
    assert IsIndex(t) && Value(t, Dec) == Value(key, Dec);
    IndexValueInjective(key, t);
  }

  /** Index keys come before all others and in ascending order; the others keep the order of their insertion. */
  lemma EnumeratedOrder(before: Order, m: nat, n: nat, a: string, b: string)
    requires m < 4_294_967_295 && n < 4_294_967_295 && !IsIndex(a) && !IsIndex(b)
    ensures Enumerated(before)(Numeral(m, Dec), Numeral(n, Dec)) <==> m < n
    ensures Enumerated(before)(Numeral(m, Dec), a) && !Enumerated(before)(a, Numeral(m, Dec))
    ensures Enumerated(before)(a, b) <==> before(a, b)
  {
    hide Value, AllDigits, Minimal;
    IndexIff(Numeral(m, Dec));
    IndexIff(Numeral(n, Dec));
  }

  lemma EnumeratedStrict(before: Order)
    requires StrictOrder(before)
    ensures StrictOrder(Enumerated(before))
  {
    hide Value, IsIndex;
  }

  /** Enumeration is total exactly when the comparator never ties on two different non-index keys. */
  lemma EnumeratedTotal(before: Order)
    ensures Total(Enumerated(before)) <==>
            forall a, b :: a != b && !IsIndex(a) && !IsIndex(b) ==> before(a, b) || before(b, a)
  {
    hide Value, AllDigits, Minimal;
    var e := Enumerated(before);
    forall a, b | IsIndex(a) && IsIndex(b) && a != b ensures e(a, b) || e(b, a) {
      if Value(a, Dec) == Value(b, Dec) {
        IndexValueInjective(a, b);
      }
    }
    if Total(e) {
      forall a, b | a != b && !IsIndex(a) && !IsIndex(b) ensures before(a, b) || before(b, a) {
        assert e(a, b) || e(b, a);
      }
    }
  }
}
