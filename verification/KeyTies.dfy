/** Which JSON values have one canonical text when the comparator of keys may tie: those in which no object, at any
    depth, holds two keys that tie (packages/domain/src/hashing.ts). */
module KeyTies {
  import opened KeyOrders
  import opened Json
  import opened CanonicalJson

  // Two orders of two members

  /** The fields without the one that has this key. */
  function Without(fields: seq<Field>, key: string): seq<Field> {
    if fields == [] then []
    else if fields[0].key == key then fields[1..]
    else [fields[0]] + Without(fields[1..], key)
  }

  lemma {:induction false} WithoutKeys(fields: seq<Field>, key: string)
    requires UniqueKeys(fields)
    ensures Keys(Without(fields, key)) == Keys(fields) - {key} && UniqueKeys(Without(fields, key))
    ensures ValidFields(fields) ==> ValidFields(Without(fields, key))
  {
    hide Valid;
    if fields != [] && fields[0].key != key {
      WithoutKeys(fields[1..], key);
      Prepended(fields[0], Without(fields[1..], key));
    }
  }

  lemma {:induction false} WithoutMeaning(fields: seq<Field>, key: string)
    requires UniqueKeys(fields)
    ensures MeaningOfFields(Without(fields, key)) == MeaningOfFields(fields) - {key}
  {
    hide MeaningOf, Valid;
    if fields != [] && fields[0].key != key {
      WithoutMeaning(fields[1..], key);
      Prepended(fields[0], Without(fields[1..], key));
    }
  }

  lemma {:induction false} FieldOf(fields: seq<Field>, key: string) returns (i: nat)
    requires UniqueKeys(fields) && key in Keys(fields)
    ensures i < |fields| && fields[i].key == key
    ensures MeaningOfFields(fields)[key] == MeaningOf(fields[i].value)
    ensures ValidFields(fields) ==> Valid(fields[i].value)
  {
    hide MeaningOf, Valid;
    if fields[0].key == key {
      i := 0;
    } else {
      var j := FieldOf(fields[1..], key);
      i := j + 1;
    }
  }

  /** The object with the members `f` and `g` first, in this order. */
  function Led(f: Field, g: Field, fields: seq<Field>): seq<Field> {
    [f, g] + Without(Without(fields, f.key), g.key)
  }

  lemma LedFacts(f: Field, g: Field, fields: seq<Field>)
    requires UniqueKeys(fields) && ValidFields(fields) && f.key != g.key && f.key in Keys(fields) && g.key in Keys(fields)
    requires Valid(f.value) && MeaningOf(f.value) == MeaningOfFields(fields)[f.key]
    requires Valid(g.value) && MeaningOf(g.value) == MeaningOfFields(fields)[g.key]
    ensures var r := Led(f, g, fields);
      UniqueKeys(r) && ValidFields(r) && MeaningOfFields(r) == MeaningOfFields(fields)
  {
    hide MeaningOf, Valid, Without, UniqueKeys, ValidFields, Keys, MeaningOfFields;
    var m := MeaningOfFields(fields);
    var inner := Without(fields, f.key);
    var rest := Without(inner, g.key);
    WithoutKeys(fields, f.key);
    WithoutKeys(inner, g.key);
    WithoutMeaning(fields, f.key);
    WithoutMeaning(inner, g.key);
    Prepended(g, rest);
    Prepended(f, [g] + rest);
    assert [f] + ([g] + rest) == Led(f, g, fields);
    assert (m - {f.key} - {g.key})[g.key := m[g.key]][f.key := m[f.key]] == m;
  }

  /** Which of two keys comes first. */
  function Leader(fields: seq<Field>, k: string, l: string): string {
    if fields == [] then ""
    else if fields[0].key == k || fields[0].key == l then fields[0].key
    else Leader(fields[1..], k, l)
  }

  /** An inserted field goes in front of every key it ties with. */
  lemma {:induction false} InsertLeads(before: Order, f: Field, fields: seq<Field>, l: string)
    requires f.key !in Keys(fields) && l in Keys(fields) && l != f.key && !before(l, f.key)
    ensures Leader(Insert(before, f, fields), f.key, l) == f.key
  {
    if before(fields[0].key, f.key) {
      InsertLeads(before, f, fields[1..], l);
      assert ([fields[0]] + Insert(before, f, fields[1..]))[1..] == Insert(before, f, fields[1..]);
    }
  }

  lemma {:induction false} KeysSorted(before: Order, fields: seq<Field>)
    requires UniqueKeys(fields)
    ensures Keys(SortedValues(before, fields)) == Keys(fields) && UniqueKeys(SortedValues(before, fields))
  {
    hide Sorted;
    if fields != [] {
      KeysSorted(before, fields[1..]);
    }
  }

  /** The first of two tying members stays first when the object is sorted. */
  lemma LeaderStays(before: Order, f: Field, fields: seq<Field>, l: string)
    requires fields != [] && fields[0] == f && UniqueKeys(fields) && l in Keys(fields) && l != f.key && !before(l, f.key)
    ensures Leader(SortFields(before, SortedValues(before, fields)), f.key, l) == f.key
  {
    hide Sorted, Insert;
    var vs := SortedValues(before, fields);
    KeysSorted(before, fields);
    SortFieldsMeaning(before, vs[1..]);
    InsertLeads(before, vs[0], SortFields(before, vs[1..]), l);
  }

  /** An object with two tying keys has a twin: the same meaning, sorted into another tree. */
  lemma TiedTwin(before: Order, fields: seq<Field>, k: string, l: string) returns (w: Json)
    requires UniqueKeys(fields) && ValidFields(fields) && k in Keys(fields) && l in Keys(fields)
    requires k != l && !before(k, l) && !before(l, k)
    ensures Valid(w) && MeaningOf(w) == MeaningOf(Obj(fields)) && Sorted(before, w) != Sorted(before, Obj(fields))
  {
    hide SortFields, SortedValues, Led, Leader, UniqueKeys, ValidFields, Keys, MeaningOfFields;
    var i := FieldOf(fields, k);
    var j := FieldOf(fields, l);
    var f, g := fields[i], fields[j];
    var a, b := Led(f, g, fields), Led(g, f, fields);
    LedFacts(f, g, fields);
    LedFacts(g, f, fields);
    SecondKey(f, g, fields);
    SecondKey(g, f, fields);
    LeaderStays(before, f, a, l);
    LeaderStays(before, g, b, k);
    LeaderSwaps(SortFields(before, SortedValues(before, b)), k, l);
    assert Sorted(before, Obj(a)) != Sorted(before, Obj(b));
    w := if Sorted(before, Obj(a)) != Sorted(before, Obj(fields)) then Obj(a) else Obj(b);
  }

  lemma SecondKey(f: Field, g: Field, fields: seq<Field>)
    ensures Led(f, g, fields) != [] && Led(f, g, fields)[0] == f && g.key in Keys(Led(f, g, fields))
  {
    var r := Led(f, g, fields);
    assert r[1..][0] == g;
  }

  lemma {:induction false} LeaderSwaps(fields: seq<Field>, k: string, l: string)
    ensures Leader(fields, k, l) == Leader(fields, l, k)
  {
    if fields != [] {
      LeaderSwaps(fields[1..], k, l);
    }
  }

  // A twin inside

  lemma {:induction false} InsertMembers(before: Order, f: Field, fields: seq<Field>)
    ensures forall x :: x in Insert(before, f, fields) <==> x == f || x in fields
  {
    if fields != [] && before(fields[0].key, f.key) {
      InsertMembers(before, f, fields[1..]);
    }
  }

  lemma {:induction false} SortMembers(before: Order, fields: seq<Field>)
    ensures forall x :: x in SortFields(before, fields) <==> x in fields
  {
    hide Insert;
    if fields != [] {
      SortMembers(before, fields[1..]);
      InsertMembers(before, fields[0], SortFields(before, fields[1..]));
    }
  }

  lemma {:induction false} SortedValueAt(before: Order, fields: seq<Field>, i: nat)
    requires i < |fields|
    ensures SortedValues(before, fields)[i] == Field(fields[i].key, Sorted(before, fields[i].value))
  {
    hide Sorted;
    if i > 0 {
      SortedValueAt(before, fields[1..], i - 1);
    }
  }

  lemma {:induction false} SortedItemAt(before: Order, items: seq<Json>, i: nat)
    requires i < |items|
    ensures |SortedItems(before, items)| == |items| && SortedItems(before, items)[i] == Sorted(before, items[i])
  {
    hide Sorted;
    if |items| > 1 {
      SortedItemAt(before, items[1..], if i == 0 then 0 else i - 1);
    }
  }

  lemma {:induction false} ItemReplaced(items: seq<Json>, i: nat, w: Json)
    requires i < |items| && ValidItems(items) && Valid(w) && MeaningOf(w) == MeaningOf(items[i])
    ensures Valid(items[i]) && ValidItems(items[i := w]) && MeaningOfItems(items[i := w]) == MeaningOfItems(items)
  {
    hide Valid, MeaningOf;
    ItemsValid(items);
    ItemsValid(items[i := w]);
  }

  lemma {:induction false} ItemsValid(items: seq<Json>)
    ensures ValidItems(items) <==> forall i | 0 <= i < |items| :: Valid(items[i])
  {
    hide Valid;
    if items != [] {
      ItemsValid(items[1..]);
      assert forall i | 0 < i < |items| :: items[i] == items[1..][i - 1];
    }
  }

  lemma {:induction false} FieldReplaced(fields: seq<Field>, i: nat, w: Json)
    requires i < |fields| && UniqueKeys(fields) && ValidFields(fields) && Valid(w) && MeaningOf(w) == MeaningOf(fields[i].value)
    ensures var r := fields[i := Field(fields[i].key, w)];
      && UniqueKeys(r) && ValidFields(r) && Keys(r) == Keys(fields) && MeaningOfFields(r) == MeaningOfFields(fields)
  {
    hide Valid, MeaningOf;
    var r := fields[i := Field(fields[i].key, w)];
    if i == 0 {
      assert r[1..] == fields[1..];
    } else {
      FieldReplaced(fields[1..], i - 1, w);
      assert r[1..] == fields[1..][i - 1 := Field(fields[i].key, w)];
    }
  }

  lemma {:induction false} KeysApart(fields: seq<Field>, i: nat, j: nat)
    requires UniqueKeys(fields) && i < j < |fields|
    ensures fields[i].key != fields[j].key
  {
    if i == 0 {
      FieldMeans(fields[1..], j - 1);
    } else {
      KeysApart(fields[1..], i - 1, j - 1);
    }
  }

  /** Replacing a member's value by one that sorts differently changes the sorted object. */
  lemma FieldShows(before: Order, fields: seq<Field>, i: nat, w: Json)
    requires i < |fields| && UniqueKeys(fields) && Sorted(before, w) != Sorted(before, fields[i].value)
    ensures Sorted(before, Obj(fields[i := Field(fields[i].key, w)])) != Sorted(before, Obj(fields))
  {
    hide SortFields, SortedValues;
    var r := fields[i := Field(fields[i].key, w)];
    var x := Field(fields[i].key, Sorted(before, fields[i].value));
    SortMembers(before, SortedValues(before, fields));
    SortMembers(before, SortedValues(before, r));
    SortedValueAt(before, fields, i);
    assert x in SortedValues(before, fields);
    if j :| 0 <= j < |r| && SortedValues(before, r)[j] == x {
      SortedValueAt(before, r, j);
      if i < j {
        KeysApart(fields, i, j);
      } else if j < i {
        KeysApart(fields, j, i);
      }
    }
  }

  /** A value with a tie somewhere has a twin. */
  lemma {:induction false} Twin(before: Order, v: Json) returns (w: Json)
    requires Valid(v) && !Untied(before, MeaningOf(v))
    ensures Valid(w) && MeaningOf(w) == MeaningOf(v) && Sorted(before, w) != Sorted(before, v)
  {
    hide SortFields, SortedValues, SortedItems, MeaningOfFields;
    match v
    case Arr(items) =>
      var i :| 0 <= i < |items| && !Untied(before, MeaningOf(items[i]));
      ItemsValid(items);
      var x := Twin(before, items[i]);
      ItemReplaced(items, i, x);
      SortedItemAt(before, items, i);
      SortedItemAt(before, items[i := x], i);
      w := Arr(items[i := x]);
    case Obj(fields) =>
      if k, l :| k in Keys(fields) && l in Keys(fields) && k != l && !before(k, l) && !before(l, k) {
        w := TiedTwin(before, fields, k, l);
      } else {
        var k :| k in Keys(fields) && !Untied(before, MeaningOfFields(fields)[k]);
        var i := FieldOf(fields, k);
        var x := Twin(before, fields[i].value);
        FieldReplaced(fields, i, x);
        FieldShows(before, fields, i, x);
        w := Obj(fields[i := Field(fields[i].key, x)]);
      }
  }

  // The condition

  ghost predicate HasOneText(before: Order, v: Json) {
    forall w | Valid(w) && MeaningOf(w) == MeaningOf(v) :: CanonicalText(before, w) == CanonicalText(before, v)
  }

  /** A value has a single canonical text, whatever the order its members are written in, exactly when no object in it
      holds two keys that tie. */
  lemma OneTextIff(before: Order, v: Json)
    requires StrictOrder(before) && Valid(v)
    ensures HasOneText(before, v) <==> Untied(before, MeaningOf(v))
  {
    hide Valid, MeaningOf, Sorted, Untied;
    if Untied(before, MeaningOf(v)) {
      forall w | Valid(w) && MeaningOf(w) == MeaningOf(v) ensures CanonicalText(before, w) == CanonicalText(before, v) {
        NormalForm(before, v, w);
      }
    } else {
      var w := Twin(before, v);
      SortedMeaning(before, v);
      SortedMeaning(before, w);
      if CanonicalText(before, w) == CanonicalText(before, v) {
        StringifyInjective(Sorted(before, w), Sorted(before, v));
      }
    }
  }
}
