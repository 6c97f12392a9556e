/** Sequence helpers shared by the models: filtering with its uniqueness lemma. */
module Lists {

  function Filter<T(!new)>(p: T -> bool, s: seq<T>): (r: seq<T>)
    ensures forall x :: x in r <==> x in s && p(x)
  {
    if s == [] then [] else
      (if p(s[0]) then [s[0]] else []) + Filter(p, s[1..])
  }

  lemma {:induction false} FilterNone<T(!new)>(p: T -> bool, s: seq<T>)
    requires forall i :: 0 <= i < |s| ==> !p(s[i])
    ensures Filter(p, s) == []
  {
    if s != [] {
      FilterNone(p, s[1..]);
    }
  }

  /** A filter keeps exactly one element when exactly one position satisfies the predicate. */
  lemma {:induction false} FilterOne<T(!new)>(p: T -> bool, s: seq<T>, k: nat)
    requires k < |s| && p(s[k])
    requires forall i :: 0 <= i < |s| && p(s[i]) ==> i == k
    ensures Filter(p, s) == [s[k]]
  {
    if k == 0 {
      FilterNone(p, s[1..]);
    } else {
      assert !p(s[0]);
      FilterOne(p, s[1..], k - 1);
    }
  }

  /** A singleton result names the only position that satisfies the predicate. */
  lemma {:induction false} FilterSingleton<T(!new)>(p: T -> bool, s: seq<T>) returns (k: nat)
    requires |Filter(p, s)| == 1
    ensures k < |s| && p(s[k]) && Filter(p, s) == [s[k]]
    ensures forall i :: 0 <= i < |s| && p(s[i]) ==> i == k
  {
    if p(s[0]) {
      k := 0;
      assert Filter(p, s[1..]) == [];
      forall i | 0 < i < |s| ensures !p(s[i]) {
        assert s[i] == s[1..][i - 1];
        assert s[i] !in Filter(p, s[1..]);
      }
    } else {
      var j := FilterSingleton(p, s[1..]);
      k := j + 1;
      forall i | 0 <= i < |s| && p(s[i]) ensures i == k {
        assert s[1..][i - 1] == s[i];
      }
    }
  }
}
