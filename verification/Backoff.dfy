/** The bounded exponential retry delay (packages/queue/src/index.ts). */
module Backoff {

  function Clamp(x: real, lo: real, hi: real): real {
    if x < lo then lo else if hi < x then hi else x
  }

  function TwoTo(n: nat): nat {
    if n == 0 then 1 else 2 * TwoTo(n - 1)
  }

  /** `min(60_000, 1_000 * 2 ** clamp(attempts - 1, 0, 30))` */
  function Ceiling(attempts: int): nat {
    var exponent := if attempts < 1 then 0 else if attempts > 31 then 30 else attempts - 1;
    var delay := 1_000 * TwoTo(exponent);
    if delay < 60_000 then delay else 60_000
  }

  function Jitter(ceiling: nat, fraction: real): real {
    ceiling as real * 0.35 * fraction
  }

  /** `Math.round` of the jittered delay; `random` is clamped to the unit interval. */
  function BoundedBackoff(attempts: int, random: real): int {
    var ceiling := Ceiling(attempts);
    (ceiling as real * 0.65 + Jitter(ceiling, Clamp(random, 0.0, 1.0)) + 0.5).Floor
  }

  lemma {:induction false} TwoToGrows(m: nat, n: nat)
    requires m <= n
    ensures 1 <= TwoTo(m) <= TwoTo(n)
    decreases n
  {
    if m < n {
      TwoToGrows(m, n - 1);
    } else if n > 0 {
      TwoToGrows(m - 1, n - 1);
    }
  }

  lemma CeilingBounds(attempts: int)
    ensures 1_000 <= Ceiling(attempts) <= 60_000
    ensures Ceiling(attempts) <= Ceiling(attempts + 1)
  {
    hide TwoTo;
    var e := if attempts < 1 then 0 else if attempts > 31 then 30 else attempts - 1;
    var f := if attempts < 0 then 0 else if attempts > 30 then 30 else attempts;
    TwoToGrows(0, e);
    TwoToGrows(e, f);
    assert TwoTo(0) == 1 by { ZeroPower(); }
  }

  lemma ZeroPower()
    ensures TwoTo(0) == 1
  {
  }

  lemma TwoToLeast(n: nat)
    requires n >= 6
    ensures TwoTo(n) >= 64
  {
    hide TwoTo;
    TwoToGrows(6, n);
    SixDoublings();
  }

  lemma SixDoublings()
    ensures TwoTo(6) == 64
  {
    assert TwoTo(3) == 8;
  }

  /** The ceiling is one second up to the first attempt and doubles with every further attempt until it reaches a minute,
      where it stays. */
  lemma CeilingDoubles(attempts: int)
    ensures attempts <= 1 ==> Ceiling(attempts) == 1_000
    ensures attempts >= 1 ==> Ceiling(attempts + 1) == if 2 * Ceiling(attempts) < 60_000 then 2 * Ceiling(attempts) else 60_000
  {
    if attempts > 30 {
      TwoToLeast(30);
      SameExponent(attempts);
    }
  }

  lemma SameExponent(attempts: int)
    requires attempts > 30
    ensures Ceiling(attempts) == Ceiling(attempts + 1) == Ceiling(31)
  {
    hide TwoTo;
  }

  /** From 650 ms to a minute; the ceiling is kept and never falls with more attempts. */
  lemma BackoffBounds(attempts: int, random: real)
    ensures 1_000 <= Ceiling(attempts) <= 60_000
    ensures Ceiling(attempts) <= Ceiling(attempts + 1)
    ensures 650 <= BoundedBackoff(attempts, random) <= Ceiling(attempts)
    ensures BoundedBackoff(attempts, random) as real >= Ceiling(attempts) as real * 0.65 - 0.5
  {
    hide Ceiling, Jitter;
    CeilingBounds(attempts);
    JitterBounds(Ceiling(attempts), Clamp(random, 0.0, 1.0));
    RoundBounds(Ceiling(attempts), Jitter(Ceiling(attempts), Clamp(random, 0.0, 1.0)));
  }

  lemma RoundBounds(c: nat, jitter: real)
    requires 0.0 <= jitter <= c as real * 0.35 && 1_000 <= c
    ensures 650 <= (c as real * 0.65 + jitter + 0.5).Floor <= c
    ensures (c as real * 0.65 + jitter + 0.5).Floor as real >= c as real * 0.65 - 0.5
  {
    var x := c as real * 0.65 + jitter + 0.5;
    assert x < c as real + 1.0 && x >= 650.0;
  }

  lemma JitterBounds(c: nat, r: real)
    requires 0.0 <= r <= 1.0
    ensures 0.0 <= Jitter(c, r) <= c as real * 0.35
  {
    var d := c as real * 0.35;
    assert d * r <= d * 1.0;
  }

  /** The delay grows with the random value, from 65 percent of the ceiling, rounded, to the ceiling itself. */
  lemma BackoffSpreads(attempts: int, less: real, more: real)
    requires less <= more
    ensures BoundedBackoff(attempts, less) <= BoundedBackoff(attempts, more)
    ensures more <= 0.0 ==> BoundedBackoff(attempts, more) == (Ceiling(attempts) as real * 0.65 + 0.5).Floor
    ensures 1.0 <= less ==> BoundedBackoff(attempts, less) == Ceiling(attempts)
  {
    hide Ceiling;
    var c := Ceiling(attempts);
    JitterGrows(c, Clamp(less, 0.0, 1.0), Clamp(more, 0.0, 1.0));
    FloorGrows(c as real * 0.65 + Jitter(c, Clamp(less, 0.0, 1.0)) + 0.5, c as real * 0.65 + Jitter(c, Clamp(more, 0.0, 1.0)) + 0.5);
    if 1.0 <= less {
      assert c as real * 0.65 + c as real * 0.35 * 1.0 + 0.5 == c as real + 0.5;
    }
  }

  lemma JitterGrows(c: nat, less: real, more: real)
    requires 0.0 <= less <= more <= 1.0
    ensures Jitter(c, less) <= Jitter(c, more)
    ensures Jitter(c, 0.0) == 0.0 && Jitter(c, 1.0) == c as real * 0.35
  {
    var d := c as real * 0.35;
    assert d * more - d * less == d * (more - less);
  }

  lemma FloorGrows(x: real, y: real)
    requires x <= y
    ensures x.Floor <= y.Floor
  {
  }
}
