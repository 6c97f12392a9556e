/** The recommendation quorum (packages/domain/src/quorum.ts). */
module Quorum {
  import opened Results
  import opened Text
  import opened Numerals
  import opened Manifest

  datatype Action = Supply | Hold

  datatype Recommendation = Recommendation(mechAddress: string, requestId: string, chainId: int, asset: string,
                                           action: Action, confidence: int, risk: int, validUntil: int, receivedAt: int)

  datatype Policy = Policy(minimumConfidence: int, maximumRisk: int, maximumDivergence: int, maximumAmount: string,
                           freshnessSeconds: int)

  /** A recommendation that does not parse is absent. */
  datatype Input = Input(policy: Policy, requestId: string, amount: string, recommendations: seq<Option<Recommendation>>,
                         now: int)

  function Parsed(items: seq<Option<Recommendation>>): (r: seq<Recommendation>)
    ensures |r| <= |items|
  {
    if items == [] then []
    else (if items[0].Some? then [items[0].value] else []) + Parsed(items[1..])
  }

  function Highest(rs: seq<Recommendation>): int
    requires rs != []
  {
    if |rs| == 1 then rs[0].risk
    else
      var rest := Highest(rs[1..]);
      if rest < rs[0].risk then rs[0].risk else rest
  }

  function Lowest(rs: seq<Recommendation>): int
    requires rs != []
  {
    if |rs| == 1 then rs[0].risk
    else
      var rest := Lowest(rs[1..]);
      if rs[0].risk < rest then rs[0].risk else rest
  }

  function Mechs(rs: seq<Recommendation>): set<string> {
    set r | r in rs :: Lower(r.mechAddress)
  }

  predicate Fresh(r: Recommendation, policy: Policy, now: int) {
    r.validUntil >= now && now - r.receivedAt <= policy.freshnessSeconds * 1_000
  }

  /** `/^[1-9]\d*$/u` and the cap. */
  predicate AmountWithinCap(amount: string, maximum: string) {
    && IsUnsigned(amount) && amount[0] != '0' && IsUnsigned(maximum)
    && Value(amount, Dec) <= Value(maximum, Dec)
  }

  /** The nine rules, in the order of the evaluation. */
  function Rules(input: Input): seq<bool> {
    var rs := Parsed(input.recommendations);
    var validShape := |rs| == |input.recommendations|;
    var p := input.policy;
    [ validShape && |Mechs(rs)| == |rs|,
      validShape && forall r | r in rs :: r.requestId == input.requestId,
      validShape && forall r | r in rs :: r.chainId == 8453 && r.asset == "USDC",
      validShape && |rs| >= 2 && forall r | r in rs :: r.action == Supply,
      validShape && forall r | r in rs :: r.confidence >= p.minimumConfidence,
      validShape && forall r | r in rs :: r.risk <= p.maximumRisk,
      validShape && |rs| > 0 && Highest(rs) - Lowest(rs) <= p.maximumDivergence,
      validShape && forall r | r in rs :: Fresh(r, p, input.now),
      AmountWithinCap(input.amount, p.maximumAmount) ]
  }

  predicate Passed(input: Input) {
    forall passed | passed in Rules(input) :: passed
  }

  // Independent statement

  /** What one recommendation must say. */
  predicate Acceptable(r: Recommendation, input: Input) {
    var p := input.policy;
    && r.requestId == input.requestId && r.chainId == 8453 && r.asset == "USDC" && r.action == Supply
    && r.confidence >= p.minimumConfidence && r.risk <= p.maximumRisk
    && input.now <= r.validUntil && input.now <= r.receivedAt + p.freshnessSeconds * 1_000
  }

  /** What two recommendations must say of each other. */
  predicate Compatible(r: Recommendation, s: Recommendation, input: Input) {
    && Lower(r.mechAddress) != Lower(s.mechAddress)
    && r.risk - s.risk <= input.policy.maximumDivergence && s.risk - r.risk <= input.policy.maximumDivergence
  }

  /** At least two recommendations, every one of them parsed and acceptable, every two of them compatible. */
  predicate Agreement(input: Input) {
    var items := input.recommendations;
    && |items| >= 2
    && (forall i | 0 <= i < |items| :: items[i].Some? && Acceptable(items[i].value, input))
    && (forall i, j | 0 <= i < j < |items| :: Compatible(items[i].value, items[j].value, input))
    && FitsCap(input.amount, input.policy.maximumAmount)
  }

  /** The amount is a positive whole number in its only decimal spelling, at most the maximum. */
  predicate FitsCap(amount: string, maximum: string) {
    IsUnsigned(maximum) && exists n | 1 <= n <= Value(maximum, Dec) :: amount == Numeral(n, Dec)
  }

  lemma FitsIff(amount: string, maximum: string)
    ensures AmountWithinCap(amount, maximum) <==> FitsCap(amount, maximum)
  {
    hide Value, AllDigits;
    if AmountWithinCap(amount, maximum) {
      NumeralUnique(amount, Dec);
      DigitsAreLower(amount);
      PositiveStart(amount);
      assert amount == Numeral(Value(amount, Dec), Dec);
    }
    if FitsCap(amount, maximum) {
      var n :| 1 <= n <= Value(maximum, Dec) && amount == Numeral(n, Dec);
      PositiveStart(amount);
    }
  }

  lemma DigitsAreLower(s: string)
    requires AllDigits(s, Dec)
    ensures Lower(s) == s
  {
    assert forall i | 0 <= i < |s| :: IsDigit(s[i], Dec) && LowerChar(s[i]) == s[i];
  }

  lemma PositiveStart(amount: string)
    requires amount != "" && AllDigits(amount, Dec) && Minimal(amount)
    ensures Value(amount, Dec) > 0 <==> amount[0] != '0'
  {
    if amount[0] == '0' {
      assert amount == "0";
    } else {
      MinimalLowerBound(amount, Dec);
    }
  }


  lemma {:induction false} ParsedAll(items: seq<Option<Recommendation>>)
    ensures |Parsed(items)| == |items| <==> forall i | 0 <= i < |items| :: items[i].Some?
    ensures |Parsed(items)| == |items| ==> forall i | 0 <= i < |items| :: items[i] == Some(Parsed(items)[i])
  {
    if items != [] {
      ParsedAll(items[1..]);
      if forall i | 0 <= i < |items| :: items[i].Some? {
        assert items[0].Some?;
        forall i | 0 <= i < |items[1..]| ensures items[1..][i].Some? {
          assert items[1..][i] == items[i + 1];
        }
      }
      if |Parsed(items)| == |items| {
        forall i | 0 < i < |items| ensures items[i] == Some(Parsed(items)[i]) {
          assert items[i] == items[1..][i - 1];
        }
      }
    }
  }

  lemma {:induction false} Extremes(rs: seq<Recommendation>)
    requires rs != []
    ensures forall r | r in rs :: Lowest(rs) <= r.risk <= Highest(rs)
    ensures exists r | r in rs :: r.risk == Highest(rs)
    ensures exists r | r in rs :: r.risk == Lowest(rs)
  {
    if |rs| > 1 {
      Extremes(rs[1..]);
      var h :| h in rs[1..] && h.risk == Highest(rs[1..]);
      var l :| l in rs[1..] && l.risk == Lowest(rs[1..]);
      assert h in rs && l in rs && rs[0] in rs;
    } else {
      assert rs[0] in rs;
    }
  }

  /** The divergence of the extremes bounds every pair, and is reached by some pair. */
  lemma DivergenceIff(rs: seq<Recommendation>, limit: int)
    requires rs != []
    ensures Highest(rs) - Lowest(rs) <= limit <==> forall r, s | r in rs && s in rs :: r.risk - s.risk <= limit
  {
    Extremes(rs);
    var h :| h in rs && h.risk == Highest(rs);
    var l :| l in rs && l.risk == Lowest(rs);
    if forall r, s | r in rs && s in rs :: r.risk - s.risk <= limit {
      assert h.risk - l.risk <= limit;
    }
  }

  lemma MechsCons(rs: seq<Recommendation>)
    requires rs != []
    ensures Mechs(rs) == {Lower(rs[0].mechAddress)} + Mechs(rs[1..])
  {
    hide Lower;
    assert rs == [rs[0]] + rs[1..];
  }

  lemma {:induction false} DistinctIff(rs: seq<Recommendation>)
    ensures |Mechs(rs)| <= |rs|
    ensures |Mechs(rs)| == |rs| <==>
            forall i, j | 0 <= i < j < |rs| :: Lower(rs[i].mechAddress) != Lower(rs[j].mechAddress)
  {
    hide Lower;
    if rs == [] {
      assert Mechs(rs) == {};
    } else {
      var m, rest := Lower(rs[0].mechAddress), rs[1..];
      MechsCons(rs);
      DistinctIff(rest);
      FirstDistinct(rs);
      if m in Mechs(rest) {
        assert Mechs(rs) == Mechs(rest);
      } else {
        assert |Mechs(rs)| == 1 + |Mechs(rest)|;
      }
    }
  }

  lemma FirstDistinct(rs: seq<Recommendation>)
    requires rs != []
    ensures (forall i, j | 0 <= i < j < |rs| :: Lower(rs[i].mechAddress) != Lower(rs[j].mechAddress)) <==>
            (Lower(rs[0].mechAddress) !in Mechs(rs[1..])
             && forall i, j | 0 <= i < j < |rs[1..]| :: Lower(rs[1..][i].mechAddress) != Lower(rs[1..][j].mechAddress))
  {
    hide Lower;
    var rest := rs[1..];
    assert forall i | 1 <= i < |rs| :: rs[i] == rest[i - 1];
    if Lower(rs[0].mechAddress) in Mechs(rest) {
      var r :| r in rest && Lower(r.mechAddress) == Lower(rs[0].mechAddress);
      var k :| 0 <= k < |rest| && rest[k] == r;
      assert Lower(rs[0].mechAddress) == Lower(rs[k + 1].mechAddress);
    }
    if (Lower(rs[0].mechAddress) !in Mechs(rest)
        && forall i, j | 0 <= i < j < |rest| :: Lower(rest[i].mechAddress) != Lower(rest[j].mechAddress)) {
      forall i, j | 0 <= i < j < |rs| ensures Lower(rs[i].mechAddress) != Lower(rs[j].mechAddress) {
        assert rest[j - 1] in rest;
        if i > 0 {
          assert rs[i] == rest[i - 1] && rs[j] == rest[j - 1];
        }
      }
    }
    if forall i, j | 0 <= i < j < |rs| :: Lower(rs[i].mechAddress) != Lower(rs[j].mechAddress) {
      forall i, j | 0 <= i < j < |rest| ensures Lower(rest[i].mechAddress) != Lower(rest[j].mechAddress) {
        assert rest[i] == rs[i + 1] && rest[j] == rs[j + 1];
      }
    }
  }

  /** All nine rules at once. */
  lemma PassedUnfolds(input: Input)
    ensures var r := Rules(input);
      Passed(input) <==> r[0] && r[1] && r[2] && r[3] && r[4] && r[5] && r[6] && r[7] && r[8]
  {
    hide Parsed, Mechs, Highest, Lowest, AmountWithinCap, Fresh;
    var r := Rules(input);
    if Passed(input) {
      assert r[0] in r && r[1] in r && r[2] in r && r[3] in r && r[4] in r && r[5] in r && r[6] in r && r[7] in r && r[8] in r;
    }
  }

  lemma SomeParsed(input: Input)
    ensures var rs := Parsed(input.recommendations);
      Passed(input) <==>
        && |rs| == |input.recommendations| && |rs| >= 2
        && (forall r | r in rs :: Acceptable(r, input))
        && |Mechs(rs)| == |rs| && Highest(rs) - Lowest(rs) <= input.policy.maximumDivergence
        && AmountWithinCap(input.amount, input.policy.maximumAmount)
  {
    hide Parsed, Mechs, Highest, Lowest, AmountWithinCap, Passed;
    PassedUnfolds(input);
  }

  /** The pairwise statement on recommendations that all parsed. */
  predicate AllAgree(rs: seq<Recommendation>, input: Input) {
    && |rs| >= 2
    && (forall i | 0 <= i < |rs| :: Acceptable(rs[i], input))
    && (forall i, j | 0 <= i < j < |rs| :: Compatible(rs[i], rs[j], input))
    && AmountWithinCap(input.amount, input.policy.maximumAmount)
  }

  lemma AgreementOfParsed(input: Input)
    ensures var rs := Parsed(input.recommendations);
      Agreement(input) <==> |rs| == |input.recommendations| && AllAgree(rs, input)
  {
    hide Parsed, Acceptable, Compatible, AmountWithinCap, FitsCap;
    FitsIff(input.amount, input.policy.maximumAmount);
    var items, rs := input.recommendations, Parsed(input.recommendations);
    ParsedAll(items);
    if |rs| == |items| {
      assert forall i | 0 <= i < |items| :: items[i].Some? && items[i].value == rs[i];
    }
  }

  /** PASSED means agreement: the sets, maxima and minima of the evaluation say exactly the pairwise statement. */
  lemma PassedIffAgreement(input: Input)
    ensures Passed(input) <==> Agreement(input)
  {
    hide Passed, Agreement, Parsed, Mechs, Highest, Lowest, AmountWithinCap, Acceptable, Lower, Compatible;
    SomeParsed(input);
    AgreementOfParsed(input);
    var rs := Parsed(input.recommendations);
    if |rs| >= 2 {
      DistinctIff(rs);
      DivergenceIff(rs, input.policy.maximumDivergence);
      PairsIff(rs, input);
      assert (forall r | r in rs :: Acceptable(r, input)) <==> forall i | 0 <= i < |rs| :: Acceptable(rs[i], input);
    }
  }

  lemma PairsIff(rs: seq<Recommendation>, input: Input)
    requires |rs| >= 2
    ensures (forall i, j | 0 <= i < j < |rs| :: Compatible(rs[i], rs[j], input)) <==>
            && (forall i, j | 0 <= i < j < |rs| :: Lower(rs[i].mechAddress) != Lower(rs[j].mechAddress))
            && (forall r, s | r in rs && s in rs :: r.risk - s.risk <= input.policy.maximumDivergence)
  {
    hide Lower;
    var limit := input.policy.maximumDivergence;
    if forall i, j | 0 <= i < j < |rs| :: Compatible(rs[i], rs[j], input) {
      assert Compatible(rs[0], rs[1], input);
      forall r, s | r in rs && s in rs ensures r.risk - s.risk <= limit {
        var i :| 0 <= i < |rs| && rs[i] == r;
        var j :| 0 <= j < |rs| && rs[j] == s;
        assert i < j ==> Compatible(rs[i], rs[j], input);
        assert j < i ==> Compatible(rs[j], rs[i], input);
      }
    }
    if (forall r, s | r in rs && s in rs :: r.risk - s.risk <= limit) {
      forall i, j | 0 <= i < j < |rs| ensures rs[i].risk - rs[j].risk <= limit && rs[j].risk - rs[i].risk <= limit {
        assert rs[i] in rs && rs[j] in rs;
      }
    }
  }

  // Consequences

  /** Positions that are picked at most once each. */
  predicate Picks(picked: seq<nat>, size: nat) {
    && (forall k | 0 <= k < |picked| :: picked[k] < size)
    && (forall j, k | 0 <= j < k < |picked| :: picked[j] != picked[k])
  }

  function Picked<T>(items: seq<T>, picked: seq<nat>): (r: seq<T>)
    requires forall k | 0 <= k < |picked| :: picked[k] < |items|
    ensures |r| == |picked| && forall k | 0 <= k < |r| :: r[k] == items[picked[k]]
  {
    seq(|picked|, k requires 0 <= k < |picked| => items[picked[k]])
  }

  /** A quorum survives any reordering and any dropping of recommendations that leaves two. */
  lemma DroppingKeepsQuorum(input: Input, picked: seq<nat>)
    requires Passed(input) && Picks(picked, |input.recommendations|) && |picked| >= 2
    ensures Passed(input.(recommendations := Picked(input.recommendations, picked)))
  {
    hide Passed, FitsCap, Compatible;
    var smaller := input.(recommendations := Picked(input.recommendations, picked));
    PassedIffAgreement(input);
    PassedIffAgreement(smaller);
    var items := input.recommendations;
    forall i, j | 0 <= i < j < |picked| ensures Compatible(items[picked[i]].value, items[picked[j]].value, smaller) {
      PickedCompatible(input, smaller, picked[i], picked[j]);
    }
  }

  lemma PickedCompatible(input: Input, smaller: Input, a: nat, b: nat)
    requires Agreement(input) && smaller.policy == input.policy
    requires a < |input.recommendations| && b < |input.recommendations| && a != b
    ensures Compatible(input.recommendations[a].value, input.recommendations[b].value, smaller)
  {
    hide Lower;
    var items := input.recommendations;
    assert a < b ==> Compatible(items[a].value, items[b].value, input);
    assert b < a ==> Compatible(items[b].value, items[a].value, input);
  }

  function Without<T>(a: seq<T>, k: nat): (r: seq<T>)
    requires k < |a|
    ensures |r| == |a| - 1 && forall i | 0 <= i < |r| :: r[i] == if i < k then a[i] else a[i + 1]
  {
    a[..k] + a[k + 1..]
  }

  lemma WithoutElement<T>(a: seq<T>, k: nat)
    requires k < |a|
    ensures multiset(a) == multiset(Without(a, k)) + multiset{a[k]}
  {
    assert a == a[..k] + ([a[k]] + a[k + 1..]);
  }

  lemma Cancel<T>(x: multiset<T>, y: multiset<T>, e: T)
    requires x + multiset{e} == y + multiset{e}
    ensures x == y
  {
    assert x == (x + multiset{e}) - multiset{e} && y == (y + multiset{e}) - multiset{e};
  }

  lemma RemoveOne<T>(a: seq<T>, k: nat, b: seq<T>)
    requires multiset(a) == multiset(b) && k < |a| && b != [] && a[k] == b[0]
    ensures multiset(Without(a, k)) == multiset(b[1..])
  {
    WithoutElement(a, k);
    WithoutElement(b, 0);
    assert Without(b, 0) == b[1..];
    Cancel(multiset(Without(a, k)), multiset(b[1..]), a[k]);
  }

  /** Every permutation is a pick of all positions. */
  lemma {:induction false} PermutationPicks<T>(a: seq<T>, b: seq<T>) returns (picked: seq<nat>)
    requires multiset(a) == multiset(b)
    ensures Picks(picked, |a|) && |picked| == |b| && Picked(a, picked) == b
  {
    if b == [] {
      picked := [];
    } else {
      assert b[0] in multiset(b) && b[0] in multiset(a);
      var k :| 0 <= k < |a| && a[k] == b[0];
      RemoveOne(a, k, b);
      var tail := PermutationPicks(Without(a, k), b[1..]);
      PicksShift(a, k, tail, b);
      picked := [k] + Shifted(tail, k);
    }
  }

  function Shifted(picked: seq<nat>, k: nat): (r: seq<nat>)
    ensures |r| == |picked| && forall i | 0 <= i < |r| :: r[i] == if picked[i] < k then picked[i] else picked[i] + 1
  {
    seq(|picked|, i requires 0 <= i < |picked| => if picked[i] < k then picked[i] else picked[i] + 1)
  }

  lemma ShiftPicks(picked: seq<nat>, k: nat, size: nat)
    requires Picks(picked, size) && k <= size
    ensures Picks([k] + Shifted(picked, k), size + 1)
  {
    var all := [k] + Shifted(picked, k);
    forall i, j | 0 <= i < j < |all| ensures all[i] != all[j] {
      assert i > 0 ==> picked[i - 1] != picked[j - 1];
    }
  }

  lemma PicksShift<T>(a: seq<T>, k: nat, tail: seq<nat>, b: seq<T>)
    requires k < |a| && b != [] && a[k] == b[0]
    requires Picks(tail, |Without(a, k)|) && Picked(Without(a, k), tail) == b[1..]
    ensures Picks([k] + Shifted(tail, k), |a|) && Picked(a, [k] + Shifted(tail, k)) == b
  {
    ShiftPicks(tail, k, |Without(a, k)|);
    var all := [k] + Shifted(tail, k);
    var r := Picked(a, all);
    forall i | 0 <= i < |b| ensures r[i] == b[i] {
      if i > 0 {
        assert b[i] == b[1..][i - 1] == Without(a, k)[tail[i - 1]];
        assert all[i] == Shifted(tail, k)[i - 1];
      }
    }
    assert r == b;
  }

  /** The order of the recommendations does not matter. */
  lemma OrderDoesNotMatter(input: Input, other: seq<Option<Recommendation>>)
    requires multiset(input.recommendations) == multiset(other)
    ensures Passed(input) <==> Passed(input.(recommendations := other))
  {
    hide Passed;
    PassedUnderPermutation(input, other);
    PassedUnderPermutation(input.(recommendations := other), input.recommendations);
  }

  lemma PassedUnderPermutation(input: Input, other: seq<Option<Recommendation>>)
    requires multiset(input.recommendations) == multiset(other)
    ensures Passed(input) ==> Passed(input.(recommendations := other))
  {
    hide Passed;
    if Passed(input) {
      PassedIffAgreement(input);
      var picked := PermutationPicks(input.recommendations, other);
      assert |other| == |multiset(other)| == |multiset(input.recommendations)| == |input.recommendations|;
      DroppingKeepsQuorum(input, picked);
    }
  }

  /** A policy that asks no more of anything. */
  predicate Looser(p: Policy, q: Policy) {
    && q.minimumConfidence <= p.minimumConfidence && p.maximumRisk <= q.maximumRisk
    && p.maximumDivergence <= q.maximumDivergence && p.freshnessSeconds <= q.freshnessSeconds
    && IsUnsigned(q.maximumAmount) && (IsUnsigned(p.maximumAmount) ==> Value(p.maximumAmount, Dec) <= Value(q.maximumAmount, Dec))
  }

  lemma LooseningKeepsQuorum(input: Input, looser: Policy)
    requires Passed(input) && Looser(input.policy, looser)
    ensures Passed(input.(policy := looser))
  {
    hide Passed, AllDigits, Value, Lower;
    PassedIffAgreement(input);
    PassedIffAgreement(input.(policy := looser));
    forall i, j | 0 <= i < j < |input.recommendations|
      ensures Compatible(input.recommendations[i].value, input.recommendations[j].value, input.(policy := looser))
    {
      assert Compatible(input.recommendations[i].value, input.recommendations[j].value, input);
    }
  }
}
