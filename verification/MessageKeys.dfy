/** Deduplication keys of outbox messages and the job ids derived from message ids
    (apps/worker/src/coordinator.ts and packages/queue/src/index.ts). */
module MessageKeys {
  import opened Numerals

  datatype Topic = Advance | Reconcile

  /** Why a message was enqueued. */
  datatype Origin =
    | Advanced(intentId: string, topic: Topic, version: nat)
    | Reconciled(intentId: string, version: nat)
    | External(source: string, eventKey: string)

  function TopicText(t: Topic): string {
    match t
    case Advance => "intent.advance"
    case Reconcile => "intent.reconcile"
  }

  /** What stands between the intent id and the version. */
  function Middle(o: Origin): string {
    match o
    case Advanced(_, topic, _) => "-" + TopicText(topic)
    case Reconciled(_, _) => "-reconcile"
    case External(_, _) => ""
  }

  function Versioned(stem: string, version: nat): string {
    stem + "-v" + Numeral(version, Dec)
  }

  function KeyText(o: Origin): string {
    match o
    case External(source, eventKey) => "event-" + source + "-" + eventKey
    case _ => Versioned("intent-" + o.intentId + Middle(o), o.version)
  }

  lemma SuffixLength(a: string, m: string, b: string, n: string)
    requires AllDigits(m, Dec) && AllDigits(n, Dec)
    requires a + "v" + m == b + "v" + n
    ensures |m| <= |n|
  {
    var t := a + "v" + m;
    assert forall i :: |a| < i < |t| ==> t[i] == m[i - |a| - 1] && IsDigit(t[i], Dec);
    assert t == b + "v" + n && t[|b|] == 'v' && !IsDigit('v', Dec);
  }

  /** The version is read off the end. */
  lemma VersionedInjective(a: string, m: nat, b: string, n: nat)
    requires Versioned(a, m) == Versioned(b, n)
    ensures a == b && m == n
  {
    hide Numeral, AllDigits, Value;
    var x, y := Numeral(m, Dec), Numeral(n, Dec);
    VersionedText(a, m);
    VersionedText(b, n);
    SuffixLength(a + "-", x, b + "-", y);
    SuffixLength(b + "-", y, a + "-", x);
    SameSuffix(a, x, b, y);
    assert Value(x, Dec) == m && Value(y, Dec) == n;
  }

  lemma VersionedText(stem: string, n: nat)
    ensures AllDigits(Numeral(n, Dec), Dec)
    ensures Versioned(stem, n) == (stem + "-") + "v" + Numeral(n, Dec) == stem + "-v" + Numeral(n, Dec)
  {
    hide Numeral, AllDigits;
  }

  lemma SameSuffix(a: string, x: string, b: string, y: string)
    requires a + "-v" + x == b + "-v" + y && |x| == |y|
    ensures a == b && x == y
  {
    var t := a + "-v" + x;
    assert x == t[|t| - |x|..] && y == t[|t| - |y|..];
    assert a == t[..|t| - |x| - 2] && b == t[..|t| - |y| - 2];
  }

  lemma SameTail(p: string, x: string, q: string, y: string, k: nat)
    requires p + x == q + y && 0 < k <= |x| && k <= |y|
    ensures x[|x| - k] == y[|y| - k]
  {
    var t := p + x;
    assert t[|t| - k] == x[|x| - k] && t[|t| - k] == y[|y| - k];
  }

  lemma SameStem(id: string, o: string, jd: string, u: string)
    requires "intent-" + id + o == "intent-" + jd + u && |o| == |u|
    ensures id == jd
  {
    var t := "intent-" + id + o;
    assert id == t[7..|t| - |o|] && jd == t[7..|t| - |u|];
  }

  predicate Advances(o: Origin) {
    o.Advanced? && o.topic.Advance?
  }

  lemma MiddleMarks(o: Origin)
    requires !o.External?
    ensures |Middle(o)| >= 10
    ensures Middle(o)[|Middle(o)| - 2] == 'c' <==> Advances(o)
    ensures !Advances(o) ==> (Middle(o)[|Middle(o)| - 10] == '-' <==> o.Reconciled?)
  {
    if o.Advanced? {
      TopicMarks(o.topic);
    }
  }

  lemma TopicMarks(t: Topic)
    ensures var m := "-" + TopicText(t);
      && |m| == |TopicText(t)| + 1 && |m| >= 10 && (m[|m| - 2] == 'c' <==> t.Advance?)
      && (t.Reconcile? ==> m[|m| - 10] == '.')
  {
  }

  /** Which kind of key a middle part belongs to shows within its last ten characters. */
  lemma MiddlesDiffer(o: Origin, p: Origin)
    requires !o.External? && !p.External?
    requires "intent-" + o.intentId + Middle(o) == "intent-" + p.intentId + Middle(p)
    ensures Middle(o) == Middle(p)
    ensures o.Reconciled? <==> p.Reconciled?
    ensures Advances(o) <==> Advances(p)
  {
    MiddleMarks(o);
    MiddleMarks(p);
    KindsMatch("intent-" + o.intentId, o, "intent-" + p.intentId, p);
  }

  lemma KindsMatch(a: string, o: Origin, b: string, p: Origin)
    requires !o.External? && !p.External? && a + Middle(o) == b + Middle(p)
    ensures o.Reconciled? <==> p.Reconciled?
    ensures Advances(o) <==> Advances(p)
  {
    hide Middle;
    MiddleMarks(o);
    MiddleMarks(p);
    SameTail(a, Middle(o), b, Middle(p), 2);
    SameTail(a, Middle(o), b, Middle(p), 10);
  }

  /** Advance and reconcile keys determine the intent, the kind and the version. */
  lemma KeyInjective(o: Origin, p: Origin)
    requires !o.External? && !p.External? && KeyText(o) == KeyText(p)
    ensures o == p
  {
    VersionedInjective("intent-" + o.intentId + Middle(o), o.version, "intent-" + p.intentId + Middle(p), p.version);
    MiddlesDiffer(o, p);
    SameStem(o.intentId, Middle(o), p.intentId, Middle(p));
  }

  /** Event keys never equal the others. */
  lemma EventKeysApart(o: Origin, p: Origin)
    requires o.External? && !p.External?
    ensures KeyText(o) != KeyText(p)
  {
    assert KeyText(o)[0] == 'e' && KeyText(p)[0] == 'i';
  }

  /** Within one source, an event key determines the event. */
  lemma EventKeyInjective(source: string, k: string, l: string)
    requires KeyText(External(source, k)) == KeyText(External(source, l))
    ensures k == l
  {
    var t := KeyText(External(source, k));
    assert k == t[|"event-" + source + "-"|..] && l == t[|"event-" + source + "-"|..];
  }

  function Source(s: string): string {
    s + "-"
  }

  lemma EventText(s: string, k: string)
    ensures KeyText(External(s, k))[6..] == Source(s) + k && |KeyText(External(s, k))| >= 6
    ensures KeyText(External(s, k)) == "event-" + (Source(s) + k)
  {
    assert KeyText(External(s, k)) == "event-" + (Source(s) + k);
  }

  lemma SameTextPrefix(x: string, k: string, y: string, l: string)
    requires x + k == y + l && |x| <= |y|
    ensures x <= y
  {
    assert (x + k)[..|x|] == x && (y + l)[..|x|] == y[..|x|];
  }

  lemma CollisionMeansPrefix(s: string, k: string, r: string, l: string)
    requires KeyText(External(s, k)) == KeyText(External(r, l))
    ensures Source(s) <= Source(r) || Source(r) <= Source(s)
  {
    hide KeyText, Source;
    EventText(s, k);
    EventText(r, l);
    if |Source(s)| <= |Source(r)| {
      SameTextPrefix(Source(s), k, Source(r), l);
    } else {
      SameTextPrefix(Source(r), l, Source(s), k);
    }
  }

  lemma PrefixMeansCollision(s: string, r: string)
    requires Source(s) <= Source(r)
    ensures KeyText(External(s, Source(r)[|Source(s)|..])) == KeyText(External(r, ""))
  {
    hide KeyText, Source;
    EventText(s, Source(r)[|Source(s)|..]);
    EventText(r, "");
    assert Source(s) + Source(r)[|Source(s)|..] == Source(r) + "";
  }

  /** Two sources can produce one key exactly when one name, with its separator, starts the other. */
  lemma EventKeysCollideIff(s: string, r: string)
    ensures (exists k, l :: KeyText(External(s, k)) == KeyText(External(r, l))) <==>
            Source(s) <= Source(r) || Source(r) <= Source(s)
  {
    hide KeyText, Source;
    if k, l :| KeyText(External(s, k)) == KeyText(External(r, l)) {
      CollisionMeansPrefix(s, k, r, l);
    }
    if Source(s) <= Source(r) {
      PrefixMeansCollision(s, r);
    }
    if Source(r) <= Source(s) {
      PrefixMeansCollision(r, s);
    }
  }

  // Job ids

  function Dashed(s: string): (r: string)
    ensures |r| == |s| && forall i :: 0 <= i < |s| ==> r[i] == if s[i] == ':' then '-' else s[i]
  {
    seq(|s|, i requires 0 <= i < |s| => if s[i] == ':' then '-' else s[i])
  }

  function OutboxJobId(outboxId: string): string {
    "outbox-" + Dashed(outboxId)
  }

  lemma SameJobSameDashes(a: string, b: string)
    ensures OutboxJobId(a) == OutboxJobId(b) <==> Dashed(a) == Dashed(b)
  {
    assert Dashed(a) == OutboxJobId(a)[7..] && Dashed(b) == OutboxJobId(b)[7..];
  }

  /** Which ids share a job: those that differ only in colons against dashes. */
  lemma SameJobIff(a: string, b: string)
    ensures OutboxJobId(a) == OutboxJobId(b) <==>
            |a| == |b| && forall i | 0 <= i < |a| :: a[i] == b[i] || {a[i], b[i]} == {':', '-'}
  {
    hide OutboxJobId;
    SameJobSameDashes(a, b);
    if Dashed(a) == Dashed(b) {
      forall i | 0 <= i < |a| ensures a[i] == b[i] || {a[i], b[i]} == {':', '-'} {
        assert Dashed(a)[i] == Dashed(b)[i];
      }
    } else if |a| == |b| {
      var i :| 0 <= i < |a| && Dashed(a)[i] != Dashed(b)[i];
      assert ':' in {':', '-'} && '-' in {':', '-'};
    }
  }

  /** The other spelling of a character that the job id does not keep apart. */
  function Flipped(c: char): char {
    if c == ':' then '-' else ':'
  }

  lemma FlippedShares(a: string, i: nat)
    requires i < |a| && a[i] in {':', '-'}
    ensures a[i := Flipped(a[i])] != a && OutboxJobId(a[i := Flipped(a[i])]) == OutboxJobId(a)
  {
    hide OutboxJobId;
    SameJobIff(a[i := Flipped(a[i])], a);
    assert a[i := Flipped(a[i])][i] != a[i];
  }

  /** An id has its job to itself exactly when it holds neither a colon nor a dash. */
  lemma JobIdSharedIff(a: string)
    ensures (exists b :: b != a && OutboxJobId(b) == OutboxJobId(a)) <==> ':' in a || '-' in a
  {
    hide OutboxJobId;
    if b :| b != a && OutboxJobId(b) == OutboxJobId(a) {
      SameJobIff(b, a);
      var i :| 0 <= i < |a| && b[i] != a[i];
      assert a[i] in {b[i], a[i]};
    }
    if ':' in a || '-' in a {
      var i :| 0 <= i < |a| && a[i] in {':', '-'};
      FlippedShares(a, i);
    }
  }
}
