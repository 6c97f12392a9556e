/** The canonical texts that are hashed: `canonicalJson` of the KeeperHub client
    (packages/keeperhub-client/src/safe-execution.ts) and of the domain package
    (packages/domain/src/hashing.ts), and the normal-form laws they obey. */
module CanonicalJson {
  import opened Results
  import opened Numerals
  import opened Json
  import opened KeyOrders

  /** Host-language values that a caller may pass. */
  datatype HostValue =
    | VNull
    | VBool(b: bool)
    | VNumber(numeral: string)
    | VNonFinite
    | VBigInt(n: int)
    | VString(s: string)
    | VUndefined
    | VArray(items: seq<HostValue>)
    | VObject(fields: seq<Property>)

  datatype Property = Property(key: string, value: HostValue)

  datatype Unsupported = NonFiniteNumber | NotJson

  function IntegerText(n: int): string {
    if n < 0 then "-" + Numeral(-n, Dec) else Numeral(n, Dec)
  }

  // The KeeperHub client: bigints become decimal strings, anything else that is not JSON throws

  function StrictTree(v: HostValue): Result<Json, Unsupported> {
    match v
    case VNull => Ok(Null)
    case VBool(b) => Ok(Bool(b))
    case VNumber(n) => Ok(Num(n))
    case VNonFinite => Err(NonFiniteNumber)
    case VBigInt(n) => Ok(Str(IntegerText(n)))
    case VString(s) => Ok(Str(s))
    case VUndefined => Err(NotJson)
    case VArray(items) => var js :- StrictItems(items); Ok(Arr(js))
    case VObject(fields) => var js :- StrictFields(fields); Ok(Obj(js))
  }

  function StrictItems(items: seq<HostValue>): Result<seq<Json>, Unsupported> {
    if items == [] then Ok([]) else
      var j :- StrictTree(items[0]);
      var js :- StrictItems(items[1..]);
      Ok([j] + js)
  }

  function StrictFields(fields: seq<Property>): Result<seq<Field>, Unsupported> {
    if fields == [] then Ok([]) else
      var j :- StrictTree(fields[0].value);
      var js :- StrictFields(fields[1..]);
      Ok([Field(fields[0].key, j)] + js)
  }

  // The domain package: undefined members are dropped, and the serializer supplies the rest

  function LooseTree(v: HostValue): Result<Json, Unsupported> {
    match v
    case VNull => Ok(Null)
    case VBool(b) => Ok(Bool(b))
    case VNumber(n) => Ok(Num(n))
    case VNonFinite => Ok(Null)
    case VBigInt(_) => Err(NotJson)
    case VString(s) => Ok(Str(s))
    case VUndefined => Err(NotJson)
    case VArray(items) => var js :- LooseItems(items); Ok(Arr(js))
    case VObject(fields) => var js :- LooseFields(fields); Ok(Obj(js))
  }

  function LooseItems(items: seq<HostValue>): Result<seq<Json>, Unsupported> {
    if items == [] then Ok([]) else
      var j :- if items[0].VUndefined? then Ok(Null) else LooseTree(items[0]);
      var js :- LooseItems(items[1..]);
      Ok([j] + js)
  }

  function LooseFields(fields: seq<Property>): Result<seq<Field>, Unsupported> {
    if fields == [] then Ok([]) else
      var js :- LooseFields(fields[1..]);
      if fields[0].value.VUndefined? then Ok(js) else
        var j :- LooseTree(fields[0].value);
        Ok([Field(fields[0].key, j)] + js)
  }

  // Sorting

  /** Stable insertion: keys that tie keep their original order. */
  function Insert(before: Order, f: Field, fields: seq<Field>): seq<Field> {
    if fields == [] then [f]
    else if before(fields[0].key, f.key) then [fields[0]] + Insert(before, f, fields[1..])
    else [f] + fields
  }

  function SortFields(before: Order, fields: seq<Field>): seq<Field> {
    if fields == [] then [] else Insert(before, fields[0], SortFields(before, fields[1..]))
  }

  /** The tree with the fields of every object sorted. */
  function Sorted(before: Order, j: Json): Json {
    match j
    case Arr(items) => Arr(SortedItems(before, items))
    case Obj(fields) => Obj(SortFields(before, SortedValues(before, fields)))
    case _ => j
  }

  function SortedItems(before: Order, items: seq<Json>): seq<Json> {
    if items == [] then [] else [Sorted(before, items[0])] + SortedItems(before, items[1..])
  }

  function SortedValues(before: Order, fields: seq<Field>): (r: seq<Field>)
    ensures |r| == |fields|
    ensures forall i :: 0 <= i < |r| ==> r[i].key == fields[i].key
  {
    if fields == [] then []
    else [Field(fields[0].key, Sorted(before, fields[0].value))] + SortedValues(before, fields[1..])
  }

  /** The canonical text of a tree. */
  function CanonicalText(before: Order, j: Json): string {
    Stringify(Sorted(before, j))
  }

  // Sorting keeps the meaning

  lemma Prepended(f: Field, rest: seq<Field>)
    ensures UniqueKeys([f] + rest) <==> f.key !in Keys(rest) && UniqueKeys(rest)
    ensures ValidFields([f] + rest) <==> Valid(f.value) && ValidFields(rest)
    ensures Keys([f] + rest) == {f.key} + Keys(rest)
    ensures MeaningOfFields([f] + rest) == MeaningOfFields(rest)[f.key := MeaningOf(f.value)]
  {
    hide MeaningOf, Valid;
    assert ([f] + rest)[1..] == rest;
  }

  lemma FirstAndRest(fields: seq<Field>)
    requires fields != [] && UniqueKeys(fields)
    ensures fields[0].key !in Keys(fields[1..]) && UniqueKeys(fields[1..])
    ensures Keys(fields) == {fields[0].key} + Keys(fields[1..])
    ensures MeaningOfFields(fields) == MeaningOfFields(fields[1..])[fields[0].key := MeaningOf(fields[0].value)]
  {
    hide MeaningOf;
  }

  lemma {:induction false} InsertMeaning(before: Order, f: Field, fields: seq<Field>)
    requires f.key !in Keys(fields) && UniqueKeys(fields)
    ensures MeaningOfFields(Insert(before, f, fields)) == MeaningOfFields(fields)[f.key := MeaningOf(f.value)]
    ensures Keys(Insert(before, f, fields)) == {f.key} + Keys(fields)
    ensures UniqueKeys(Insert(before, f, fields))
  {
    hide MeaningOf, MeaningOfFields, Keys, UniqueKeys;
    if fields != [] && before(fields[0].key, f.key) {
      FirstAndRest(fields);
      InsertMeaning(before, f, fields[1..]);
      Prepended(fields[0], Insert(before, f, fields[1..]));
    } else {
      Prepended(f, fields);
      assert fields == [] ==> [f] + fields == [f];
    }
  }

  lemma {:induction false} SortFieldsMeaning(before: Order, fields: seq<Field>)
    requires UniqueKeys(fields)
    ensures MeaningOfFields(SortFields(before, fields)) == MeaningOfFields(fields)
    ensures Keys(SortFields(before, fields)) == Keys(fields)
    ensures UniqueKeys(SortFields(before, fields))
  {
    hide MeaningOf;
    if fields != [] {
      SortFieldsMeaning(before, fields[1..]);
      InsertMeaning(before, fields[0], SortFields(before, fields[1..]));
    }
  }

  lemma {:induction false} InsertValid(before: Order, f: Field, fields: seq<Field>)
    requires Valid(f.value) && ValidFields(fields)
    ensures ValidFields(Insert(before, f, fields))
  {
    hide Valid;
    if fields != [] && before(fields[0].key, f.key) {
      InsertValid(before, f, fields[1..]);
    }
  }

  lemma {:induction false} SortFieldsValid(before: Order, fields: seq<Field>)
    requires ValidFields(fields)
    ensures ValidFields(SortFields(before, fields))
  {
    hide Valid;
    if fields != [] {
      SortFieldsValid(before, fields[1..]);
      InsertValid(before, fields[0], SortFields(before, fields[1..]));
    }
  }

  /** Sorting changes neither what a tree means nor whether it is a JSON value. */
  lemma {:induction false} SortedMeaning(before: Order, j: Json)
    requires Valid(j)
    ensures MeaningOf(Sorted(before, j)) == MeaningOf(j) && Valid(Sorted(before, j))
  {
    match j
    case Arr(items) => SortedItemsMeaning(before, items);
    case Obj(fields) =>
      SortedValuesMeaning(before, fields);
      var vs := SortedValues(before, fields);
      SortFieldsMeaning(before, vs);
      SortFieldsValid(before, vs);
    case _ =>
  }

  lemma {:induction false} SortedItemsMeaning(before: Order, items: seq<Json>)
    requires ValidItems(items)
    ensures MeaningOfItems(SortedItems(before, items)) == MeaningOfItems(items)
    ensures ValidItems(SortedItems(before, items))
  {
    if items != [] {
      SortedMeaning(before, items[0]);
      SortedItemsMeaning(before, items[1..]);
    }
  }

  lemma {:induction false} SortedValuesMeaning(before: Order, fields: seq<Field>)
    requires ValidFields(fields)
    ensures MeaningOfFields(SortedValues(before, fields)) == MeaningOfFields(fields)
    ensures Keys(SortedValues(before, fields)) == Keys(fields)
    ensures UniqueKeys(fields) ==> UniqueKeys(SortedValues(before, fields))
    ensures ValidFields(SortedValues(before, fields))
  {
    if fields != [] {
      SortedMeaning(before, fields[0].value);
      SortedValuesMeaning(before, fields[1..]);
    }
  }

  // Sorted trees are determined by their meaning

  predicate Ordered(before: Order, fields: seq<Field>) {
    fields == [] || ((forall k | k in Keys(fields[1..]) :: before(fields[0].key, k)) && Ordered(before, fields[1..]))
  }

  predicate Canonical(before: Order, j: Json) {
    match j
    case Arr(items) => CanonicalItems(before, items)
    case Obj(fields) => Ordered(before, fields) && CanonicalFields(before, fields)
    case _ => true
  }

  predicate CanonicalItems(before: Order, items: seq<Json>) {
    items == [] || (Canonical(before, items[0]) && CanonicalItems(before, items[1..]))
  }

  predicate CanonicalFields(before: Order, fields: seq<Field>) {
    fields == [] || (Canonical(before, fields[0].value) && CanonicalFields(before, fields[1..]))
  }

  /** Different keys of the set never tie. */
  predicate Separates(before: Order, keys: set<string>) {
    forall k, l | k in keys && l in keys && k != l :: before(k, l) || before(l, k)
  }

  /** No object of the value, at any depth, has two keys that tie. */
  predicate Untied(before: Order, m: Meaning) {
    match m
    case MArr(items) => forall i | 0 <= i < |items| :: Untied(before, items[i])
    case MObj(fields) => Separates(before, fields.Keys) && forall k | k in fields :: Untied(before, fields[k])
    case _ => true
  }

  lemma {:induction false} InsertOrdered(before: Order, f: Field, fields: seq<Field>)
    requires StrictOrder(before) && Ordered(before, fields) && f.key !in Keys(fields)
    requires Separates(before, {f.key} + Keys(fields))
    requires Canonical(before, f.value) && CanonicalFields(before, fields)
    ensures var r := Insert(before, f, fields);
      Ordered(before, r) && CanonicalFields(before, r) && Keys(r) == {f.key} + Keys(fields)
  {
    hide Canonical;
    if fields != [] {
      if before(fields[0].key, f.key) {
        InsertOrdered(before, f, fields[1..]);
        assert ([fields[0]] + Insert(before, f, fields[1..]))[1..] == Insert(before, f, fields[1..]);
      } else {
        assert ([f] + fields)[1..] == fields;
      }
    }
  }

  lemma {:induction false} SortFieldsOrdered(before: Order, fields: seq<Field>)
    requires StrictOrder(before) && UniqueKeys(fields) && CanonicalFields(before, fields)
    requires Separates(before, Keys(fields))
    ensures var r := SortFields(before, fields);
      Ordered(before, r) && CanonicalFields(before, r) && Keys(r) == Keys(fields)
  {
    hide Canonical;
    if fields != [] {
      SortFieldsOrdered(before, fields[1..]);
      InsertOrdered(before, fields[0], SortFields(before, fields[1..]));
    }
  }

  lemma {:induction false} MembersUntied(before: Order, fields: seq<Field>)
    requires UniqueKeys(fields) && forall k | k in MeaningOfFields(fields) :: Untied(before, MeaningOfFields(fields)[k])
    ensures forall i | 0 <= i < |fields| :: Untied(before, MeaningOf(fields[i].value))
  {
    hide Untied;
    forall i | 0 <= i < |fields| ensures Untied(before, MeaningOf(fields[i].value)) {
      FieldMeans(fields, i);
    }
  }

  /** With unique keys each field gives the meaning of its key. */
  lemma {:induction false} FieldMeans(fields: seq<Field>, i: nat)
    requires UniqueKeys(fields) && i < |fields|
    ensures fields[i].key in MeaningOfFields(fields) && MeaningOfFields(fields)[fields[i].key] == MeaningOf(fields[i].value)
    ensures fields[i].key in Keys(fields)
  {
    hide MeaningOf;
    if i > 0 {
      FieldMeans(fields[1..], i - 1);
    }
  }

  lemma {:induction false} TotalIsUntied(before: Order, m: Meaning)
    requires Total(before)
    ensures Untied(before, m)
  {
    match m
    case MArr(items) =>
      forall i | 0 <= i < |items| ensures Untied(before, items[i]) { TotalIsUntied(before, items[i]); }
    case MObj(fields) =>
      forall k | k in fields ensures Untied(before, fields[k]) { TotalIsUntied(before, fields[k]); }
    case _ =>
  }

  lemma {:induction false} SortedIsCanonical(before: Order, j: Json)
    requires StrictOrder(before) && Valid(j) && Untied(before, MeaningOf(j))
    ensures Canonical(before, Sorted(before, j))
  {
    match j
    case Arr(items) =>
      assert forall i | 0 <= i < |items| :: MeaningOf(j).items[i] == MeaningOf(items[i]);
      SortedItemsCanonical(before, items);
    case Obj(fields) =>
      MembersUntied(before, fields);
      SortedValuesCanonical(before, fields);
      SortedValuesMeaning(before, fields);
      SortFieldsOrdered(before, SortedValues(before, fields));
    case _ =>
  }

  lemma {:induction false} SortedItemsCanonical(before: Order, items: seq<Json>)
    requires StrictOrder(before) && ValidItems(items)
    requires forall i | 0 <= i < |items| :: Untied(before, MeaningOf(items[i]))
    ensures CanonicalItems(before, SortedItems(before, items))
  {
    if items != [] {
      assert forall i | 0 <= i < |items| - 1 :: items[1..][i] == items[i + 1];
      SortedIsCanonical(before, items[0]);
      SortedItemsCanonical(before, items[1..]);
    }
  }

  lemma {:induction false} SortedValuesCanonical(before: Order, fields: seq<Field>)
    requires StrictOrder(before) && ValidFields(fields)
    requires forall i | 0 <= i < |fields| :: Untied(before, MeaningOf(fields[i].value))
    ensures CanonicalFields(before, SortedValues(before, fields))
  {
    if fields != [] {
      assert forall i | 0 <= i < |fields| - 1 :: fields[1..][i] == fields[i + 1];
      SortedIsCanonical(before, fields[0].value);
      SortedValuesCanonical(before, fields[1..]);
    }
  }

  /** A canonical tree is the only canonical tree with its meaning. */
  lemma {:induction false} CanonicalUnique(before: Order, a: Json, b: Json)
    requires StrictOrder(before) && Canonical(before, a) && Canonical(before, b)
    requires MeaningOf(a) == MeaningOf(b)
    ensures a == b
  {
    match a
    case Arr(items) => CanonicalItemsUnique(before, items, b.items);
    case Obj(fields) => CanonicalFieldsUnique(before, fields, b.fields);
    case _ =>
  }

  lemma {:induction false} CanonicalItemsUnique(before: Order, a: seq<Json>, b: seq<Json>)
    requires StrictOrder(before) && CanonicalItems(before, a) && CanonicalItems(before, b)
    requires MeaningOfItems(a) == MeaningOfItems(b)
    ensures a == b
  {
    hide Canonical, MeaningOf, StrictOrder;
    assert |a| == |MeaningOfItems(a)| == |b|;
    if a != [] {
      assert MeaningOfItems(a)[0] == MeaningOf(a[0]) && MeaningOfItems(b)[0] == MeaningOf(b[0]);
      CanonicalUnique(before, a[0], b[0]);
      assert MeaningOfItems(a)[1..] == MeaningOfItems(a[1..]) && MeaningOfItems(b)[1..] == MeaningOfItems(b[1..]);
      CanonicalItemsUnique(before, a[1..], b[1..]);
      assert a == [a[0]] + a[1..] && b == [b[0]] + b[1..];
    }
  }

  lemma FirstIsBefore(before: Order, fields: seq<Field>, key: string)
    requires Ordered(before, fields) && key in Keys(fields)
    ensures fields != [] && (fields[0].key == key || before(fields[0].key, key))
  {
  }

  /** The smallest key comes first, so sorted field lists over the same keys start alike. */
  lemma HeadKey(before: Order, a: seq<Field>, b: seq<Field>)
    requires StrictOrder(before) && Ordered(before, a) && Ordered(before, b) && a != [] && b != []
    requires MeaningOfFields(a) == MeaningOfFields(b)
    ensures a[0].key == b[0].key
  {
    hide MeaningOfFields;
    assert a[0].key in Keys(b) && b[0].key in Keys(a);
    FirstIsBefore(before, a, b[0].key);
    FirstIsBefore(before, b, a[0].key);
    assert before(a[0].key, b[0].key) && before(b[0].key, a[0].key) ==> before(a[0].key, a[0].key);
  }

  lemma TailMeaning(before: Order, a: seq<Field>)
    requires StrictOrder(before) && Ordered(before, a) && a != []
    ensures MeaningOfFields(a[1..]) == MeaningOfFields(a) - {a[0].key}
    ensures MeaningOfFields(a)[a[0].key] == MeaningOf(a[0].value)
  {
    hide MeaningOf;
    assert a[0].key !in Keys(a[1..]);
  }

  lemma {:induction false} CanonicalFieldsUnique(before: Order, a: seq<Field>, b: seq<Field>)
    requires StrictOrder(before) && Ordered(before, a) && Ordered(before, b)
    requires CanonicalFields(before, a) && CanonicalFields(before, b)
    requires MeaningOfFields(a) == MeaningOfFields(b)
    ensures a == b
  {
    assert Keys(a) == Keys(b);
    if a != [] && b != [] {
      HeadKey(before, a, b);
      TailMeaning(before, a);
      TailMeaning(before, b);
      CanonicalUnique(before, a[0].value, b[0].value);
      CanonicalFieldsUnique(before, a[1..], b[1..]);
      assert a == [a[0]] + a[1..] && b == [b[0]] + b[1..];
    }
  }

  // The normal form

  /** A JSON value in which no keys tie has the same canonical text as another exactly when they mean the same: equal
      up to object key order at every depth. */
  lemma NormalForm(before: Order, a: Json, b: Json)
    requires StrictOrder(before) && Valid(a) && Valid(b) && Untied(before, MeaningOf(a))
    ensures CanonicalText(before, a) == CanonicalText(before, b) <==> MeaningOf(a) == MeaningOf(b)
  {
    SameTextSameMeaning(before, a, b);
    SortedMeaning(before, a);
    SortedMeaning(before, b);
    if MeaningOf(a) == MeaningOf(b) {
      SortedIsCanonical(before, a);
      SortedIsCanonical(before, b);
      CanonicalUnique(before, Sorted(before, a), Sorted(before, b));
    }
  }

  /** This direction needs no order at all: whatever the comparator does, the text keeps the meaning. */
  lemma SameTextSameMeaning(before: Order, a: Json, b: Json)
    requires Valid(a) && Valid(b)
    ensures CanonicalText(before, a) == CanonicalText(before, b) ==> MeaningOf(a) == MeaningOf(b)
  {
    SortedMeaning(before, a);
    SortedMeaning(before, b);
    if CanonicalText(before, a) == CanonicalText(before, b) {
      StringifyInjective(Sorted(before, a), Sorted(before, b));
    }
  }

  /** An object with two null members. */
  function Pair(k: string, l: string): Json {
    Obj([Field(k, Null), Field(l, Null)])
  }

  lemma PairFacts(k: string, l: string)
    requires k != l
    ensures Valid(Pair(k, l))
    ensures MeaningOf(Pair(k, l)) == MObj(map[k := MNull, l := MNull])
  {
    var f, g := Field(k, Null), Field(l, Null);
    assert [f, g][1..] == [g] && [g][1..] == [];
    assert MeaningOfFields([g]) == map[l := MNull];
    assert UniqueKeys([]) && ValidFields([]) && Keys([]) == {};
    assert UniqueKeys([g]) && Keys([g]) == {l};
    assert Valid(g.value) && ValidFields([g]);
  }

  lemma PairSorted(before: Order, k: string, l: string)
    requires !before(l, k)
    ensures Sorted(before, Pair(k, l)) == Pair(k, l)
  {
    var f, g := Field(k, Null), Field(l, Null);
    assert [f, g][1..] == [g] && [g][1..] == [];
    assert SortedValues(before, [g]) == [g];
    assert SortedValues(before, [f, g]) == [f, g];
    assert SortFields(before, [g]) == [g];
    assert SortFields(before, [f, g]) == Insert(before, f, [g]) == [f, g];
  }

  /** Keys on which the comparator ties keep their original order, so one meaning has two texts. */
  lemma TiedKeys(before: Order, k: string, l: string)
    requires k != l && !before(k, l) && !before(l, k)
    ensures Valid(Pair(k, l)) && Valid(Pair(l, k)) && MeaningOf(Pair(k, l)) == MeaningOf(Pair(l, k))
    ensures CanonicalText(before, Pair(k, l)) != CanonicalText(before, Pair(l, k))
  {
    PairFacts(k, l);
    PairFacts(l, k);
    PairSorted(before, k, l);
    PairSorted(before, l, k);
    assert Pair(k, l).fields[0].key != Pair(l, k).fields[0].key;
    if Stringify(Pair(k, l)) == Stringify(Pair(l, k)) {
      StringifyInjective(Pair(k, l), Pair(l, k));
    }
  }

  ghost predicate IsNormalForm(before: Order) {
    forall a, b | Valid(a) && Valid(b) ::
      CanonicalText(before, a) == CanonicalText(before, b) <==> MeaningOf(a) == MeaningOf(b)
  }

  /** The canonical text is a normal form exactly when the key order never ties on different keys. */
  lemma NormalFormIff(before: Order)
    requires StrictOrder(before)
    ensures IsNormalForm(before) <==> Total(before)
  {
    hide Valid, CanonicalText, MeaningOf;
    if Total(before) {
      forall m ensures Untied(before, m) { TotalIsUntied(before, m); }
      forall a, b | Valid(a) && Valid(b)
        ensures CanonicalText(before, a) == CanonicalText(before, b) <==> MeaningOf(a) == MeaningOf(b)
      {
        NormalForm(before, a, b);
      }
    } else {
      var k, l :| k != l && !before(k, l) && !before(l, k);
      TiedKeys(before, k, l);
    }
  }

  // The two serializers

  /** The KeeperHub client sorts keys by code unit. */
  function StrictOrderOfKeys(): Order {
    Enumerated(CodeUnitBefore)
  }

  /** What the host language guarantees of a value: printed numerals and unique property keys. */
  predicate Proper(v: HostValue) {
    match v
    case VNumber(n) => IsNumeral(n)
    case VArray(items) => ProperItems(items)
    case VObject(fields) => ProperFields(fields)
    case _ => true
  }

  predicate ProperItems(items: seq<HostValue>) {
    items == [] || (Proper(items[0]) && ProperItems(items[1..]))
  }

  function PropertyKeys(fields: seq<Property>): set<string> {
    if fields == [] then {} else {fields[0].key} + PropertyKeys(fields[1..])
  }

  predicate ProperFields(fields: seq<Property>) {
    fields == [] || (Proper(fields[0].value) && fields[0].key !in PropertyKeys(fields[1..]) && ProperFields(fields[1..]))
  }

  lemma {:induction false} StrictTreeValid(v: HostValue)
    requires Proper(v) && StrictTree(v).Ok?
    ensures Valid(StrictTree(v).value)
  {
    match v
    case VArray(items) => StrictItemsValid(items);
    case VObject(fields) => StrictFieldsValid(fields);
    case _ =>
  }

  lemma {:induction false} StrictItemsValid(items: seq<HostValue>)
    requires ProperItems(items) && StrictItems(items).Ok?
    ensures ValidItems(StrictItems(items).value)
  {
    if items != [] {
      StrictTreeValid(items[0]);
      StrictItemsValid(items[1..]);
    }
  }

  lemma {:induction false} StrictFieldsValid(fields: seq<Property>)
    requires ProperFields(fields) && StrictFields(fields).Ok?
    ensures var js := StrictFields(fields).value;
      ValidFields(js) && UniqueKeys(js) && Keys(js) == PropertyKeys(fields)
  {
    hide Valid;
    if fields != [] {
      StrictTreeValid(fields[0].value);
      StrictFieldsValid(fields[1..]);
      var js := StrictFields(fields).value;
      assert js[1..] == StrictFields(fields[1..]).value;
    }
  }

  lemma {:induction false} LooseTreeValid(v: HostValue)
    requires Proper(v) && LooseTree(v).Ok?
    ensures Valid(LooseTree(v).value)
  {
    match v
    case VArray(items) => LooseItemsValid(items);
    case VObject(fields) => LooseFieldsValid(fields);
    case _ =>
  }

  lemma {:induction false} LooseItemsValid(items: seq<HostValue>)
    requires ProperItems(items) && LooseItems(items).Ok?
    ensures ValidItems(LooseItems(items).value)
  {
    if items != [] {
      if !items[0].VUndefined? {
        LooseTreeValid(items[0]);
      }
      LooseItemsValid(items[1..]);
    }
  }

  lemma {:induction false} LooseFieldsValid(fields: seq<Property>)
    requires ProperFields(fields) && LooseFields(fields).Ok?
    ensures var js := LooseFields(fields).value;
      ValidFields(js) && UniqueKeys(js) && Keys(js) <= PropertyKeys(fields)
  {
    hide Valid;
    if fields != [] {
      LooseFieldsValid(fields[1..]);
      if !fields[0].value.VUndefined? {
        LooseTreeValid(fields[0].value);
        var js := LooseFields(fields).value;
        assert js[1..] == LooseFields(fields[1..]).value;
      }
    }
  }

  /** The client's `canonicalJson`. */
  function StrictText(v: HostValue): Result<string, Unsupported> {
    var j :- StrictTree(v);
    Ok(CanonicalText(StrictOrderOfKeys(), j))
  }

  /** The domain's `canonicalJson`, for a locale whose comparator puts `a` before `b` when `locale(a, b)`. */
  function LooseText(locale: Order, v: HostValue): Result<string, Unsupported> {
    var j :- LooseTree(v);
    Ok(CanonicalText(Enumerated(locale), j))
  }

  lemma StrictOrderIsTotal()
    ensures TotalOrder(StrictOrderOfKeys())
  {
    hide CodeUnitBefore, Enumerated;
    CodeUnitIsTotalOrder();
    EnumeratedStrict(CodeUnitBefore);
    EnumeratedTotal(CodeUnitBefore);
  }

  /** The client's canonical text is a normal form without further conditions. */
  lemma StrictTextIsNormalForm(v: HostValue, w: HostValue)
    requires Proper(v) && Proper(w) && StrictTree(v).Ok? && StrictTree(w).Ok?
    ensures StrictText(v) == StrictText(w) <==>
            MeaningOf(StrictTree(v).value) == MeaningOf(StrictTree(w).value)
  {
    hide CanonicalText, StrictOrderOfKeys;
    StrictTreeValid(v);
    StrictTreeValid(w);
    StrictOrderIsTotal();
    TotalIsUntied(StrictOrderOfKeys(), MeaningOf(StrictTree(v).value));
    NormalForm(StrictOrderOfKeys(), StrictTree(v).value, StrictTree(w).value);
  }

  /** The domain's canonical text never merges two meanings, and gives each meaning one text
      exactly when the locale comparator separates all different keys that are not indices. */
  lemma LooseTextIsNormalForm(locale: Order)
    requires StrictOrder(locale)
    ensures IsNormalForm(Enumerated(locale)) <==>
            forall a, b :: a != b && !IsIndex(a) && !IsIndex(b) ==> locale(a, b) || locale(b, a)
  {
    hide Enumerated, IsIndex, IsNormalForm;
    EnumeratedStrict(locale);
    EnumeratedTotal(locale);
    NormalFormIff(Enumerated(locale));
  }

  lemma LooseTextKeepsMeaning(locale: Order, v: HostValue, w: HostValue)
    requires Proper(v) && Proper(w) && LooseTree(v).Ok? && LooseTree(w).Ok?
    ensures LooseText(locale, v) == LooseText(locale, w) ==>
            MeaningOf(LooseTree(v).value) == MeaningOf(LooseTree(w).value)
  {
    hide CanonicalText, Enumerated;
    LooseTreeValid(v);
    LooseTreeValid(w);
    SameTextSameMeaning(Enumerated(locale), LooseTree(v).value, LooseTree(w).value);
  }
}
