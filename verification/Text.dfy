/** String operations of the host language, on sequences of characters. */
module Text {

  /** `String.prototype.slice` for non-negative indices: out-of-range bounds are clamped. */
  function Slice(s: string, start: nat, end: nat): (r: string)
    ensures start <= end <= |s| ==> r == s[start..end]
    ensures end <= start || |s| <= start ==> r == ""
  {
    var hi := if end <= |s| then end else |s|;
    if start <= hi then s[start..hi] else ""
  }

  function SliceFrom(s: string, start: nat): (r: string)
    ensures start <= |s| ==> r == s[start..]
    ensures |s| <= start ==> r == ""
  {
    if start <= |s| then s[start..] else ""
  }

  function LowerChar(c: char): (r: char) {
    if 'A' <= c <= 'Z' then c - 'A' + 'a' else c
  }

  /** `toLowerCase` on ASCII text. */
  function Lower(s: string): (r: string)
    ensures |r| == |s|
    ensures forall i :: 0 <= i < |s| ==> r[i] == LowerChar(s[i])
  {
    seq(|s|, i requires 0 <= i < |s| => LowerChar(s[i]))
  }

  /** In code points: capitals are 0x41 to 0x5A and lie 0x20 below their small letters. */
  lemma LowerCodePoint(c: char)
    ensures LowerChar(c) as int == if 0x41 <= c as int <= 0x5A then c as int + 0x20 else c as int
  {
  }

  lemma LowerConcat(a: string, b: string)
    ensures Lower(a + b) == Lower(a) + Lower(b)
  {
  }

  lemma LowerSlice(s: string, i: nat, j: nat)
    requires i <= j <= |s|
    ensures Lower(s[i..j]) == Lower(s)[i..j]
  {
  }

  lemma LowerIdempotent(s: string)
    ensures Lower(Lower(s)) == Lower(s)
  {
  }

  predicate IsLower(s: string) {
    forall i :: 0 <= i < |s| ==> LowerChar(s[i]) == s[i]
  }

  lemma LowerOfLower(s: string)
    ensures Lower(s) == s <==> IsLower(s)
  {
    if Lower(s) == s {
      forall i | 0 <= i < |s| ensures LowerChar(s[i]) == s[i] {
        assert Lower(s)[i] == LowerChar(s[i]);
      }
    }
  }

  function Zeros(n: nat): (r: string)
    ensures |r| == n && forall i :: 0 <= i < n ==> r[i] == '0'
  {
    seq(n, _ => '0')
  }

  /** `padStart(width, "0")`. */
  function PadZeros(s: string, width: nat): (r: string)
    ensures |s| <= width ==> |r| == width
    ensures |s| >= width ==> r == s
    ensures |r| >= |s| && r[|r| - |s|..] == s
    ensures forall i :: 0 <= i < |r| - |s| ==> r[i] == '0'
  {
    if |s| < width then Zeros(width - |s|) + s else s
  }

  /** The characters removed by `trim`: white space and line terminators. */
  predicate IsSpace(c: char) {
    || '\t' <= c <= '\r'
    || c == ' '
    || c == '\U{A0}'
    || c == '\U{1680}'
    || '\U{2000}' <= c <= '\U{200A}'
    || c == '\U{2028}' || c == '\U{2029}' || c == '\U{202F}' || c == '\U{205F}'
    || c == '\U{3000}' || c == '\U{FEFF}'
  }

  function TrimStart(s: string): (r: string)
    ensures r == "" || !IsSpace(r[0])
    ensures |r| <= |s| && r == s[|s| - |r|..]
  {
    if s == "" then "" else if IsSpace(s[0]) then TrimStart(s[1..]) else s
  }

  function TrimEnd(s: string): (r: string)
    ensures r == "" || !IsSpace(r[|r| - 1])
    ensures r <= s
  {
    if s == "" then "" else if IsSpace(s[|s| - 1]) then TrimEnd(s[..|s| - 1]) else s
  }

  function Trim(s: string): (r: string)
    ensures r == "" || (!IsSpace(r[0]) && !IsSpace(r[|r| - 1]))
  {
    TrimEnd(TrimStart(s))
  }

  lemma TrimNoSpace(s: string)
    requires forall c :: c in s ==> !IsSpace(c)
    ensures Trim(s) == s
  {
  }

  /** Space around a text does not matter to its trimming. */
  lemma TrimSpaces(before: string, s: string, after: string)
    requires (forall i | 0 <= i < |before| :: IsSpace(before[i])) && (forall i | 0 <= i < |after| :: IsSpace(after[i]))
    ensures Trim(before + s + after) == Trim(s)
  {
    hide IsSpace, TrimStart, TrimEnd;
    SkipStart(before, s + after);
    assert before + s + after == before + (s + after);
    TrimBack(s, after);
  }

  lemma {:induction false} SkipStart(before: string, s: string)
    requires forall i | 0 <= i < |before| :: IsSpace(before[i])
    ensures TrimStart(before + s) == TrimStart(s)
  {
    hide IsSpace;
    if before == "" {
      assert before + s == s;
    } else {
      assert (before + s)[1..] == before[1..] + s;
      SkipStart(before[1..], s);
    }
  }

  lemma {:induction false} SkipEnd(s: string, after: string)
    requires forall i | 0 <= i < |after| :: IsSpace(after[i])
    ensures TrimEnd(s + after) == TrimEnd(s)
  {
    hide IsSpace;
    if after == "" {
      assert s + after == s;
    } else {
      assert (s + after)[..|s + after| - 1] == s + after[..|after| - 1];
      SkipEnd(s, after[..|after| - 1]);
    }
  }

  lemma {:induction false} TrimBack(s: string, after: string)
    requires forall i | 0 <= i < |after| :: IsSpace(after[i])
    ensures Trim(s + after) == Trim(s)
  {
    hide IsSpace;
    if s == "" {
      assert s + after == after + "";
      SkipStart(after, "");
    } else if IsSpace(s[0]) {
      assert (s + after)[1..] == s[1..] + after;
      TrimBack(s[1..], after);
    } else {
      SkipEnd(s, after);
    }
  }

  /** `parts.join("")` */
  function Concat(parts: seq<string>): string {
    if parts == [] then "" else parts[0] + Concat(parts[1..])
  }

  lemma {:induction false} ConcatEmpty(parts: seq<string>)
    requires forall i :: 0 <= i < |parts| ==> parts[i] == ""
    ensures Concat(parts) == ""
  {
    if parts != [] {
      ConcatEmpty(parts[1..]);
    }
  }

  lemma ConcatOne(part: string)
    ensures Concat([part]) == part
  {
    assert Concat([part][1..]) == "";
  }

  lemma ConcatFirst(words: seq<string>)
    requires words != []
    ensures Concat(words) == words[0] + Concat(words[1..])
  {
  }

  lemma Associative(a: string, b: string, c: string)
    ensures (a + b) + c == a + (b + c)
  {
  }

  lemma {:induction false} ConcatAppend(p: seq<string>, q: seq<string>)
    ensures Concat(p + q) == Concat(p) + Concat(q)
  {
    if p == [] {
      assert p + q == q;
    } else {
      hide Concat;
      ConcatAppend(p[1..], q);
      ConcatFirst(p);
      ConcatFirst(p + q);
      assert (p + q)[1..] == p[1..] + q;
      Associative(p[0], Concat(p[1..]), Concat(q));
    }
  }

  lemma SliceBehind(a: string, t: string, i: nat, j: nat)
    requires i <= j <= |t|
    ensures (a + t)[|a| + i..|a| + j] == t[i..j]
  {
  }

  lemma {:induction false} Widths(width: nat, i: nat, n: nat)
    requires i < n
    ensures width * i + width <= width * n
    ensures i > 0 ==> width * i == width + width * (i - 1)
  {
    OneMore(width, n - 1);
    if i < n - 1 {
      Widths(width, i, n - 1);
    }
    if i > 0 {
      OneMore(width, i - 1);
    }
  }

  lemma OneMore(width: nat, n: nat)
    ensures width * (n + 1) == width * n + width
  {
  }

  /** Words of equal width can be read back from their concatenation. */
  lemma {:induction false} ConcatAt(words: seq<string>, width: nat, i: nat)
    requires forall k :: 0 <= k < |words| ==> |words[k]| == width
    requires i < |words|
    ensures |Concat(words)| == width * |words|
    ensures width * i + width <= width * |words|
    ensures Concat(words)[width * i..width * i + width] == words[i]
  {
    hide Concat;
    ConcatWidth(words, width);
    ConcatFirst(words);
    Widths(width, i, |words|);
    if i > 0 {
      var rest := words[1..];
      ConcatAt(rest, width, i - 1);
      SliceBehind(words[0], Concat(rest), width * (i - 1), width * (i - 1) + width);
    }
  }

  lemma {:induction false} ConcatWidth(words: seq<string>, width: nat)
    requires forall k :: 0 <= k < |words| ==> |words[k]| == width
    ensures |Concat(words)| == width * |words|
  {
    if words != [] {
      ConcatWidth(words[1..], width);
      assert width * |words| == width * (|words| - 1) + width;
    }
  }

  /** `parts.join(sep)` for a one-character separator. */
  function Join(parts: seq<string>, sep: char): string {
    if parts == [] then "" else if |parts| == 1 then parts[0]
    else parts[0] + [sep] + Join(parts[1..], sep)
  }

  lemma JoinCons(a: string, rest: seq<string>, sep: char)
    requires rest != []
    ensures Join([a] + rest, sep) == a + [sep] + Join(rest, sep)
  {
    assert ([a] + rest)[1..] == rest;
  }

  /** Splitting a text at the first separator is unambiguous. */
  lemma SplitUnique(a: string, x: string, b: string, y: string, sep: char)
    requires sep !in a && sep !in b
    requires a + [sep] + x == b + [sep] + y
    ensures a == b && x == y
  {
    var t := a + [sep] + x;
    assert t[|a|] == sep && t[|b|] == sep;
    assert |a| == |b| by {
      assert forall i :: 0 <= i < |a| ==> t[i] == a[i];
      assert t == b + [sep] + y;
      assert forall i :: 0 <= i < |b| ==> t[i] == b[i];
    }
    assert a == t[..|a|] && b == t[..|b|];
    assert x == t[|a| + 1..] && y == t[|b| + 1..];
  }

  lemma JoinHasSeparator(parts: seq<string>, sep: char)
    requires |parts| >= 2
    ensures sep in Join(parts, sep)
  {
    assert Join(parts, sep)[|parts[0]|] == sep;
  }

  /** Joined separator-free parts can be read back: both the number of parts and every part. */
  lemma {:induction false} JoinInjective(p: seq<string>, q: seq<string>, sep: char)
    requires p != [] && q != []
    requires forall i :: 0 <= i < |p| ==> sep !in p[i]
    requires forall i :: 0 <= i < |q| ==> sep !in q[i]
    requires Join(p, sep) == Join(q, sep)
    ensures p == q
  {
    if |p| == 1 && |q| == 1 {
    } else if |p| == 1 {
      JoinHasSeparator(q, sep);
    } else if |q| == 1 {
      JoinHasSeparator(p, sep);
    } else {
      SplitUnique(p[0], Join(p[1..], sep), q[0], Join(q[1..], sep), sep);
      JoinInjective(p[1..], q[1..], sep);
      assert p == [p[0]] + p[1..] && q == [q[0]] + q[1..];
    }
  }
}
