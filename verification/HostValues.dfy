/** What the two canonical texts identify, said on host values alone: which values are accepted, and which two values
    share a text (packages/keeperhub-client/src/safe-execution.ts and packages/domain/src/hashing.ts). */
module HostValues {
  import opened Results
  import opened Text
  import opened Numerals
  import opened KeyOrders
  import opened Json
  import opened CanonicalJson
  import Decimals

  /** The text is the integer in decimal digits, without leading zeros, behind a sign when it is negative. */
  predicate IsDecimalText(t: string, n: int)
    decreases n < 0
  {
    if n < 0 then t != "" && t[0] == '-' && IsDecimalText(t[1..], -n)
    else AllDigits(t, Dec) && Minimal(t) && Value(t, Dec) == n
  }

  lemma NaturalText(t: string, n: nat)
    ensures IsDecimalText(t, n) <==> t == Numeral(n, Dec)
  {
    hide Value, AllDigits, Minimal, Numeral;
    if IsDecimalText(t, n) {
      NumeralUnique(t, Dec);
      Decimals.DecimalsAreLower(t);
    }
  }

  lemma DecimalTextIff(t: string, n: int)
    ensures IsDecimalText(t, n) <==> t == IntegerText(n)
  {
    hide Value, AllDigits, Minimal, Numeral;
    if n < 0 {
      var digits := if t == "" then "" else t[1..];
      NaturalText(digits, -n);
      assert ("-" + Numeral(-n, Dec))[1..] == Numeral(-n, Dec);
      assert t != "" && t[0] == '-' ==> t == "-" + digits;
    } else {
      NaturalText(t, n);
    }
  }

  // The client

  /** Values the client's canonical text accepts: nothing undefined and no number that is not finite, at any depth. */
  predicate Writable(v: HostValue) {
    match v
    case VUndefined => false
    case VNonFinite => false
    case VArray(items) => forall i | 0 <= i < |items| :: Writable(items[i])
    case VObject(fields) => forall i | 0 <= i < |fields| :: Writable(fields[i].value)
    case _ => true
  }

  /** The same kind and leaf, a bigint standing for its decimal text, arrays place by place, objects as maps. */
  predicate SameValue(v: HostValue, w: HostValue) {
    match (v, w)
    case (VNull, VNull) => true
    case (VBool(a), VBool(b)) => a == b
    case (VNumber(m), VNumber(n)) => m == n
    case (VString(s), VString(t)) => s == t
    case (VBigInt(m), VBigInt(n)) => m == n
    case (VBigInt(m), VString(t)) => IsDecimalText(t, m)
    case (VString(s), VBigInt(n)) => IsDecimalText(s, n)
    case (VArray(a), VArray(b)) => |a| == |b| && forall i | 0 <= i < |a| :: SameValue(a[i], b[i])
    case (VObject(f), VObject(g)) =>
      PropertyKeys(f) == PropertyKeys(g) && forall i | 0 <= i < |f| :: HasMember(f[i], g)
    case _ => false
  }

  /** The object has a member with this key and the same value. */
  predicate HasMember(p: Property, g: seq<Property>) {
    exists j | 0 <= j < |g| :: g[j].key == p.key && SameValue(p.value, g[j].value)
  }

  lemma {:induction false} StrictItemAt(items: seq<HostValue>)
    ensures StrictItems(items).Ok? <==> forall i | 0 <= i < |items| :: StrictTree(items[i]).Ok?
    ensures StrictItems(items).Ok? ==>
              |StrictItems(items).value| == |items|
              && forall i | 0 <= i < |items| :: StrictItems(items).value[i] == StrictTree(items[i]).value
  {
    hide StrictTree;
    if items != [] {
      StrictItemAt(items[1..]);
      assert forall i | 0 < i < |items| :: items[i] == items[1..][i - 1];
    }
  }

  lemma {:induction false} StrictFieldAt(fields: seq<Property>)
    ensures StrictFields(fields).Ok? <==> forall i | 0 <= i < |fields| :: StrictTree(fields[i].value).Ok?
    ensures StrictFields(fields).Ok? ==>
              |StrictFields(fields).value| == |fields|
              && forall i | 0 <= i < |fields| ::
                   StrictFields(fields).value[i] == Field(fields[i].key, StrictTree(fields[i].value).value)
  {
    hide StrictTree;
    if fields != [] {
      StrictFieldAt(fields[1..]);
      assert forall i | 0 < i < |fields| :: fields[i] == fields[1..][i - 1];
    }
  }

  /** The client's canonical text exists exactly for writable values. */
  lemma {:induction false} WritableIff(v: HostValue)
    ensures StrictTree(v).Ok? <==> Writable(v)
  {
    match v
    case VArray(items) =>
      StrictItemAt(items);
      forall i | 0 <= i < |items| ensures StrictTree(items[i]).Ok? <==> Writable(items[i]) { WritableIff(items[i]); }
    case VObject(fields) =>
      StrictFieldAt(fields);
      forall i | 0 <= i < |fields| ensures StrictTree(fields[i].value).Ok? <==> Writable(fields[i].value) {
        WritableIff(fields[i].value);
      }
    case _ =>
  }

  lemma {:induction false} ProperItem(items: seq<HostValue>, i: nat)
    requires ProperItems(items) && i < |items|
    ensures Proper(items[i])
  {
    hide Proper;
    if i > 0 {
      ProperItem(items[1..], i - 1);
    }
  }

  lemma {:induction false} ProperMember(fields: seq<Property>, i: nat)
    requires ProperFields(fields) && i < |fields|
    ensures Proper(fields[i].value)
  {
    hide Proper;
    if i > 0 {
      ProperMember(fields[1..], i - 1);
    }
  }

  predicate HasField(f: Field, fields: seq<Field>) {
    exists j | 0 <= j < |fields| :: fields[j].key == f.key && MeaningOf(f.value) == MeaningOf(fields[j].value)
  }

  lemma FieldFound(f: Field, fields: seq<Field>)
    requires UniqueKeys(fields)
    ensures HasField(f, fields) <==>
            f.key in MeaningOfFields(fields) && MeaningOfFields(fields)[f.key] == MeaningOf(f.value)
  {
    hide MeaningOf, MeaningOfFields, UniqueKeys, Keys;
    if HasField(f, fields) {
      var j :| 0 <= j < |fields| && fields[j].key == f.key && MeaningOf(f.value) == MeaningOf(fields[j].value);
      FieldMeans(fields, j);
    } else if f.key in MeaningOfFields(fields) {
      KeyPlace(fields, f.key);
      var j :| 0 <= j < |fields| && fields[j].key == f.key;
      FieldMeans(fields, j);
    }
  }

  /** Two objects mean the same exactly when they have the same keys and each member of one is in the other. */
  lemma MapsAgree(x: seq<Field>, y: seq<Field>)
    requires UniqueKeys(x) && UniqueKeys(y)
    ensures MeaningOfFields(x) == MeaningOfFields(y) <==>
            Keys(x) == Keys(y) && forall i | 0 <= i < |x| :: HasField(x[i], y)
  {
    hide MeaningOf, MeaningOfFields, UniqueKeys, Keys, HasField;
    var m, n := MeaningOfFields(x), MeaningOfFields(y);
    forall i | 0 <= i < |x| ensures x[i].key in m && m[x[i].key] == MeaningOf(x[i].value) { FieldMeans(x, i); }
    forall i | 0 <= i < |x|
      ensures HasField(x[i], y) <==> x[i].key in n && n[x[i].key] == MeaningOf(x[i].value)
    {
      FieldFound(x[i], y);
    }
    if Keys(x) == Keys(y) && forall i | 0 <= i < |x| :: HasField(x[i], y) {
      forall k | k in m ensures k in n && m[k] == n[k] {
        KeyPlace(x, k);
        var i :| 0 <= i < |x| && x[i].key == k;
      }
    }
  }

  lemma {:induction false} KeyPlace(fields: seq<Field>, k: string)
    requires k in Keys(fields)
    ensures exists i | 0 <= i < |fields| :: fields[i].key == k
  {
    if fields[0].key != k {
      KeyPlace(fields[1..], k);
      var i :| 0 <= i < |fields[1..]| && fields[1..][i].key == k;
      assert fields[i + 1].key == k;
    }
  }

  /** The relation on host values is equality of what their trees mean. */
  lemma {:induction false} SameValueIff(v: HostValue, w: HostValue)
    requires Proper(v) && Proper(w) && StrictTree(v).Ok? && StrictTree(w).Ok?
    ensures SameValue(v, w) <==> MeaningOf(StrictTree(v).value) == MeaningOf(StrictTree(w).value)
  {
    match (v, w)
    case (VBigInt(m), VBigInt(n)) =>
      DecimalTextIff(IntegerText(m), m);
      DecimalTextIff(IntegerText(m), n);
      SameInteger(m, n);
    case (VBigInt(m), VString(t)) => DecimalTextIff(t, m);
    case (VString(s), VBigInt(n)) => DecimalTextIff(s, n);
    case (VArray(a), VArray(b)) => SameArrays(a, b);
    case (VObject(f), VObject(g)) => SameObjects(f, g);
    case _ =>
  }

  lemma SameInteger(m: int, n: int)
    ensures IntegerText(m) == IntegerText(n) <==> m == n
  {
    hide Value, AllDigits, Minimal, Numeral;
    if IntegerText(m) == IntegerText(n) {
      DecimalTextIff(IntegerText(m), m);
      DecimalTextIff(IntegerText(n), n);
      OneInteger(IntegerText(m), m, n);
    }
  }

  lemma OneInteger(t: string, m: int, n: int)
    requires IsDecimalText(t, m) && IsDecimalText(t, n)
    ensures m == n
  {
    hide Value, Minimal;
    assert m >= 0 || n >= 0 ==> t == "" || t[0] != '-' || !AllDigits(t, Dec) by { SignIsNoDigit(t); }
  }

  lemma SignIsNoDigit(t: string)
    ensures t != "" && t[0] == '-' ==> !AllDigits(t, Dec)
  {
    assert !IsDigit('-', Dec);
  }

  lemma {:induction false} SameArrays(a: seq<HostValue>, b: seq<HostValue>)
    requires ProperItems(a) && ProperItems(b) && StrictItems(a).Ok? && StrictItems(b).Ok?
    ensures SameValue(VArray(a), VArray(b)) <==>
            MeaningOfItems(StrictItems(a).value) == MeaningOfItems(StrictItems(b).value)
    decreases a
  {
    hide Proper, StrictTree, MeaningOf, StrictItems, ProperItems, MeaningOfItems;
    StrictItemAt(a);
    StrictItemAt(b);
    var x, y := StrictItems(a).value, StrictItems(b).value;
    if |a| == |b| {
      forall i | 0 <= i < |a| ensures SameValue(a[i], b[i]) <==> MeaningOf(x[i]) == MeaningOf(y[i]) {
        ProperItem(a, i);
        ProperItem(b, i);
        SameValueIff(a[i], b[i]);
      }
      forall i | 0 <= i < |a| ensures MeaningOfItems(x)[i] == MeaningOf(x[i]) && MeaningOfItems(y)[i] == MeaningOf(y[i]) {
      }
      assert MeaningOfItems(x) == MeaningOfItems(y) <==> forall i | 0 <= i < |a| :: MeaningOf(x[i]) == MeaningOf(y[i]);
    } else {
      assert |MeaningOfItems(x)| == |a| && |MeaningOfItems(y)| == |b|;
    }
  }

  lemma {:induction false} SameObjects(f: seq<Property>, g: seq<Property>)
    requires ProperFields(f) && ProperFields(g) && StrictFields(f).Ok? && StrictFields(g).Ok?
    ensures SameValue(VObject(f), VObject(g)) <==>
            MeaningOfFields(StrictFields(f).value) == MeaningOfFields(StrictFields(g).value)
    decreases f, 1
  {
    hide Proper, ProperFields, StrictTree, StrictFields, MeaningOf, MeaningOfFields, UniqueKeys, HasMember, HasField;
    StrictFieldAt(f);
    StrictFieldAt(g);
    StrictFieldsValid(f);
    StrictFieldsValid(g);
    var x, y := StrictFields(f).value, StrictFields(g).value;
    MapsAgree(x, y);
    forall i | 0 <= i < |f| ensures HasMember(f[i], g) <==> HasField(x[i], y) {
      MemberAgrees(f, i, g);
    }
  }

  lemma MemberAgrees(f: seq<Property>, i: nat, g: seq<Property>)
    requires ProperFields(f) && ProperFields(g) && StrictFields(f).Ok? && StrictFields(g).Ok? && i < |f|
    ensures |StrictFields(f).value| == |f|
    ensures HasMember(f[i], g) <==> HasField(StrictFields(f).value[i], StrictFields(g).value)
    decreases f, 0
  {
    hide Proper, ProperFields, StrictTree, StrictFields, MeaningOf, SameValue;
    StrictFieldAt(f);
    StrictFieldAt(g);
    var x, y := StrictFields(f).value, StrictFields(g).value;
    ProperMember(f, i);
    forall j | 0 <= j < |g| ensures SameValue(f[i].value, g[j].value) <==> MeaningOf(x[i].value) == MeaningOf(y[j].value) {
      ProperMember(g, j);
      SameValueIff(f[i].value, g[j].value);
    }
  }

  /** The client's canonical text, on host values: accepted exactly when writable, and shared exactly by values that are
      the same. */
  lemma StrictTextIff(v: HostValue, w: HostValue)
    requires Proper(v) && Proper(w)
    ensures StrictText(v).Ok? <==> Writable(v)
    ensures Writable(v) && Writable(w) ==> (StrictText(v) == StrictText(w) <==> SameValue(v, w))
  {
    hide Proper, StrictTree, MeaningOf, SameValue, Writable, CanonicalText;
    WritableIff(v);
    WritableIff(w);
    if Writable(v) && Writable(w) {
      SameValueIff(v, w);
      StrictTextIsNormalForm(v, w);
    }
  }

  // The domain

  /** Values the domain's canonical text exists for: no bigint, and undefined only as an item or a member. */
  predicate Serializable(v: HostValue) {
    match v
    case VUndefined => false
    case VBigInt(_) => false
    case VArray(items) => forall i | 0 <= i < |items| :: items[i].VUndefined? || Serializable(items[i])
    case VObject(fields) => forall i | 0 <= i < |fields| :: fields[i].value.VUndefined? || Serializable(fields[i].value)
    case _ => true
  }

  /** What serialization sees: numbers that are not finite and undefined items are null, undefined members are gone. */
  function Plain(v: HostValue): HostValue {
    match v
    case VNonFinite => VNull
    case VArray(items) => VArray(PlainItems(items))
    case VObject(fields) => VObject(PlainMembers(fields))
    case _ => v
  }

  function PlainItems(items: seq<HostValue>): seq<HostValue> {
    if items == [] then []
    else [if items[0].VUndefined? then VNull else Plain(items[0])] + PlainItems(items[1..])
  }

  function PlainMembers(fields: seq<Property>): seq<Property> {
    if fields == [] then []
    else if fields[0].value.VUndefined? then PlainMembers(fields[1..])
    else [Property(fields[0].key, Plain(fields[0].value))] + PlainMembers(fields[1..])
  }

  lemma {:induction false} SerializableIff(v: HostValue)
    ensures LooseTree(v).Ok? <==> Serializable(v)
    ensures LooseTree(v).Ok? ==> StrictTree(Plain(v)) == LooseTree(v)
  {
    match v
    case VArray(items) => SerializableItems(items);
    case VObject(fields) => SerializableMembers(fields);
    case _ =>
  }

  lemma {:induction false} SerializableItems(items: seq<HostValue>)
    ensures LooseItems(items).Ok? <==> forall i | 0 <= i < |items| :: items[i].VUndefined? || Serializable(items[i])
    ensures LooseItems(items).Ok? ==> StrictItems(PlainItems(items)) == LooseItems(items)
  {
    hide StrictTree, LooseTree, Serializable, Plain;
    if items != [] {
      SerializableIff(items[0]);
      SerializableItems(items[1..]);
      NullTree();
      assert forall i | 0 < i < |items| :: items[i] == items[1..][i - 1];
      assert PlainItems(items)[1..] == PlainItems(items[1..]);
    }
  }

  lemma NullTree()
    ensures StrictTree(VNull) == Ok(Null)
  {
  }

  lemma {:induction false} SerializableMembers(fields: seq<Property>)
    ensures LooseFields(fields).Ok? <==>
            forall i | 0 <= i < |fields| :: fields[i].value.VUndefined? || Serializable(fields[i].value)
    ensures LooseFields(fields).Ok? ==> StrictFields(PlainMembers(fields)) == LooseFields(fields)
  {
    hide StrictTree, LooseTree, Serializable, Plain;
    if fields != [] {
      SerializableIff(fields[0].value);
      SerializableMembers(fields[1..]);
      assert forall i | 0 < i < |fields| :: fields[i] == fields[1..][i - 1];
      if !fields[0].value.VUndefined? {
        assert PlainMembers(fields)[1..] == PlainMembers(fields[1..]);
      }
    }
  }

  lemma {:induction false} PlainIsProper(v: HostValue)
    requires Proper(v)
    ensures Proper(Plain(v))
  {
    match v
    case VArray(items) => PlainItemsProper(items);
    case VObject(fields) => PlainMembersProper(fields);
    case _ =>
  }

  lemma {:induction false} PlainItemsProper(items: seq<HostValue>)
    requires ProperItems(items)
    ensures ProperItems(PlainItems(items))
  {
    if items != [] {
      PlainIsProper(items[0]);
      PlainItemsProper(items[1..]);
    }
  }

  lemma {:induction false} PlainMembersProper(fields: seq<Property>)
    requires ProperFields(fields)
    ensures ProperFields(PlainMembers(fields)) && PropertyKeys(PlainMembers(fields)) <= PropertyKeys(fields)
  {
    hide Proper, Plain;
    if fields != [] {
      PlainIsProper(fields[0].value);
      PlainMembersProper(fields[1..]);
      if !fields[0].value.VUndefined? {
        assert PlainMembers(fields)[1..] == PlainMembers(fields[1..]);
      }
    }
  }

  /** The domain's canonical text, on host values: it exists exactly for serializable values; values that share it look
      the same to serialization; and where no keys tie, values that look the same share it. */
  lemma LooseTextIff(locale: Order, v: HostValue, w: HostValue)
    requires Proper(v) && Proper(w)
    ensures LooseText(locale, v).Ok? <==> Serializable(v)
    ensures Serializable(v) && Serializable(w) && LooseText(locale, v) == LooseText(locale, w) ==>
              SameValue(Plain(v), Plain(w))
    ensures TotalOrder(Enumerated(locale)) && Serializable(v) && Serializable(w) && SameValue(Plain(v), Plain(w)) ==>
              LooseText(locale, v) == LooseText(locale, w)
  {
    hide Proper, StrictTree, LooseTree, MeaningOf, SameValue, Serializable, Plain, CanonicalText, Enumerated;
    SerializableIff(v);
    SerializableIff(w);
    if Serializable(v) && Serializable(w) {
      PlainIsProper(v);
      PlainIsProper(w);
      SameValueIff(Plain(v), Plain(w));
      LooseTextKeepsMeaning(locale, v, w);
      if TotalOrder(Enumerated(locale)) {
        LooseTreeValid(v);
        LooseTreeValid(w);
        TotalIsUntied(Enumerated(locale), MeaningOf(LooseTree(v).value));
        NormalForm(Enumerated(locale), LooseTree(v).value, LooseTree(w).value);
      }
    }
  }
}
