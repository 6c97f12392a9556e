/** Laws of receipt evidence: normal forms are equal exactly when the raw evidence agrees field by field, and receipt
    hashes bind every field. */
module ReceiptLaws {
  import opened Results
  import opened Text
  import opened Numerals
  import opened Manifest
  import opened Json
  import opened CanonicalJson
  import opened Hashing
  import opened SafeExecution
  import opened Receipts
  import L = SafeExecutionLaws

  /** Two quantities share a normal form exactly when they denote the same number, however each is written. */
  lemma QuantityIffEqual(a: Option<HostValue>, b: Option<HostValue>)
    requires NormalizeQuantity(a).Ok? && NormalizeQuantity(b).Ok?
    ensures NormalizeQuantity(a) == NormalizeQuantity(b) <==> QuantityValue(a) == QuantityValue(b)
  {
    hide QuantityValue, Value, AllDigits, Numeral;
    var m, n := QuantityValue(a).value, QuantityValue(b).value;
    assert ("0x" + Numeral(m, Hex))[2..] == Numeral(m, Hex) && ("0x" + Numeral(n, Hex))[2..] == Numeral(n, Hex);
    assert Value(Numeral(m, Hex), Hex) == m && Value(Numeral(n, Hex), Hex) == n;
  }

  /** A number, its decimal text and its hexadecimal text in either case are one quantity. */
  lemma SpellingsAgree(n: nat)
    requires n <= MAX_SAFE_INTEGER
    ensures QuantityValue(Some(VNumber(Numeral(n, Dec)))) == Some(n)
    ensures QuantityValue(Some(VString(Numeral(n, Dec)))) == Some(n)
    ensures QuantityValue(Some(VString("0x" + Numeral(n, Hex)))) == Some(n)
  {
    hide Value, Numeral, Trim, AllDigits;
    PlainText(Numeral(n, Dec), Dec);
    PlainText(Numeral(n, Hex), Hex);
    var h := "0x" + Numeral(n, Hex);
    assert h[2..] == Numeral(n, Hex) && h[1] == 'x';
    NotDecimal(h, 1);
  }

  /** A number beyond the safe integers is no quantity, because its digits may have been rounded; a text may be longer. */
  lemma LargeNumbers(n: nat)
    requires n > MAX_SAFE_INTEGER
    ensures QuantityValue(Some(VNumber(Numeral(n, Dec)))) == None
    ensures QuantityValue(Some(VString(Numeral(n, Dec)))) == Some(n)
  {
    hide Value, Numeral, Trim, AllDigits;
    PlainText(Numeral(n, Dec), Dec);
  }

  lemma NotDecimal(s: string, i: nat)
    requires i < |s| && s[i] == 'x'
    ensures !IsUnsigned(s)
  {
    assert IsUnsigned(s) ==> IsDigit(s[i], Dec);
  }

  lemma PlainText(s: string, b: Base)
    requires s != "" && AllDigits(s, b)
    ensures Trim(s) == s && Trim("0x" + s) == "0x" + s
  {
    hide Trim;
    forall c | c in s ensures !IsSpace(c) {
      var i :| 0 <= i < |s| && s[i] == c;
      assert IsDigit(s[i], b);
    }
    TrimNoSpace(s);
    TrimNoSpace("0x" + s);
  }

  // Receipt hashes

  lemma {:induction false} TextsMeaning(a: seq<string>, b: seq<string>)
    requires StrictItems(Texts(a)).Ok? && StrictItems(Texts(b)).Ok?
    requires MeaningOfItems(StrictItems(Texts(a)).value) == MeaningOfItems(StrictItems(Texts(b)).value)
    ensures a == b
  {
    TextsTrees(a);
    TextsTrees(b);
    var x, y := StrictItems(Texts(a)).value, StrictItems(Texts(b)).value;
    assert |x| == |MeaningOfItems(x)| == |y|;
    forall i | 0 <= i < |a| ensures a[i] == b[i] {
      assert MeaningOfItems(x)[i] == MeaningOf(x[i]) && MeaningOfItems(y)[i] == MeaningOf(y[i]);
    }
  }

  lemma {:induction false} TextsTrees(a: seq<string>)
    ensures StrictItems(Texts(a)).Ok? && ProperItems(Texts(a))
    ensures var x := StrictItems(Texts(a)).value; |x| == |a| && forall i :: 0 <= i < |a| ==> x[i] == Str(a[i])
  {
    if a != [] {
      TextsTrees(a[1..]);
      assert Texts(a)[1..] == Texts(a[1..]);
    }
  }

  /** Objects written with the same keys in the same places that mean the same agree place by place. */
  lemma SamePlaces(x: seq<Property>, y: seq<Property>, i: nat)
    requires ProperFields(x) && ProperFields(y) && StrictFields(x).Ok? && StrictFields(y).Ok?
    requires i < |x| == |y| && x[i].key == y[i].key
    requires MeaningOfFields(StrictFields(x).value) == MeaningOfFields(StrictFields(y).value)
    ensures StrictTree(x[i].value).Ok? && StrictTree(y[i].value).Ok?
    ensures MeaningOf(StrictTree(x[i].value).value) == MeaningOf(StrictTree(y[i].value).value)
  {
    hide StrictTree, MeaningOf, StrictFields, MeaningOfFields, ProperFields;
    L.MeaningAt(x, i);
    L.MeaningAt(y, i);
  }

  lemma {:induction false} FieldsAreTrees(fields: seq<Property>)
    requires forall i :: 0 <= i < |fields| ==> StrictTree(fields[i].value).Ok?
    ensures StrictFields(fields).Ok?
  {
    hide StrictTree;
    if fields != [] {
      FieldsAreTrees(fields[1..]);
    }
  }

  lemma LogIsTree(l: Log)
    ensures ProperFields(LogProperties(l)) && StrictFields(LogProperties(l)).Ok?
  {
    hide StrictTree, Proper;
    var f := LogProperties(l);
    forall i | 0 <= i < 4 ensures StrictTree(f[i].value).Ok? && Proper(f[i].value) {
      LogPart(l, i);
    }
    L.FieldsProper(f);
    FieldsAreTrees(f);
  }

  lemma LogPart(l: Log, i: nat)
    requires i < 4
    ensures StrictTree(LogProperties(l)[i].value).Ok? && Proper(LogProperties(l)[i].value)
  {
    TextsTrees(l.topics);
  }

  lemma StringMeaning(s: string)
    ensures StrictTree(VString(s)) == Ok(Str(s)) && MeaningOf(Str(s)) == MStr(s)
  {
  }

  lemma TopicsMeaning(a: seq<string>, b: seq<string>)
    requires StrictTree(VArray(Texts(a))).Ok? && StrictTree(VArray(Texts(b))).Ok?
    requires MeaningOf(StrictTree(VArray(Texts(a))).value) == MeaningOf(StrictTree(VArray(Texts(b))).value)
    ensures a == b
  {
    TextsMeaning(a, b);
  }

  lemma SameLog(a: Log, b: Log)
    requires StrictFields(LogProperties(a)).Ok? && StrictFields(LogProperties(b)).Ok?
    requires MeaningOfFields(StrictFields(LogProperties(a)).value) == MeaningOfFields(StrictFields(LogProperties(b)).value)
    ensures a == b
  {
    hide StrictTree, MeaningOf, StrictFields, MeaningOfFields, ProperFields;
    LogIsTree(a);
    LogIsTree(b);
    var x, y := LogProperties(a), LogProperties(b);
    SamePlaces(x, y, 0);
    SamePlaces(x, y, 1);
    SamePlaces(x, y, 2);
    SamePlaces(x, y, 3);
    TopicsMeaning(a.topics, b.topics);
    StringMeaning(a.address);
    StringMeaning(b.address);
    StringMeaning(a.data);
    StringMeaning(b.data);
    StringMeaning(a.logIndex);
    StringMeaning(b.logIndex);
  }

  lemma {:induction false} LogsAreTrees(logs: seq<Log>)
    ensures StrictItems(LogValues(logs)).Ok? && ProperItems(LogValues(logs))
  {
    hide StrictFields, ProperFields;
    if logs != [] {
      LogIsTree(logs[0]);
      LogsAreTrees(logs[1..]);
      assert LogValues(logs)[1..] == LogValues(logs[1..]);
    }
  }

  lemma {:induction false} SameLogs(a: seq<Log>, b: seq<Log>)
    requires StrictItems(LogValues(a)).Ok? && StrictItems(LogValues(b)).Ok?
    requires MeaningOfItems(StrictItems(LogValues(a)).value) == MeaningOfItems(StrictItems(LogValues(b)).value)
    ensures a == b
  {
    hide StrictFields, StrictItems, StrictTree, MeaningOf, MeaningOfItems, MeaningOfFields, ProperFields, LogProperties, LogValues;
    ItemCount(LogValues(a));
    ItemCount(LogValues(b));
    if a != [] {
      FirstLog(a);
      FirstLog(b);
      SameLog(a[0], b[0]);
      SameLogs(a[1..], b[1..]);
      assert a == [a[0]] + a[1..] && b == [b[0]] + b[1..];
    }
  }

  /** The first log and the rest, in what a list of logs means. */
  lemma FirstLog(logs: seq<Log>)
    requires logs != [] && StrictItems(LogValues(logs)).Ok?
    ensures StrictFields(LogProperties(logs[0])).Ok? && StrictItems(LogValues(logs[1..])).Ok?
    ensures var m := MeaningOfItems(StrictItems(LogValues(logs)).value);
      && m != [] && m[0] == MObj(MeaningOfFields(StrictFields(LogProperties(logs[0])).value))
      && m[1..] == MeaningOfItems(StrictItems(LogValues(logs[1..])).value)
  {
    hide StrictFields, StrictItems, MeaningOfItems, MeaningOfFields, ProperFields, LogProperties;
    FirstItem(LogValues(logs));
    LogIsTree(logs[0]);
    assert LogValues(logs)[1..] == LogValues(logs[1..]);
  }

  lemma {:induction false} ItemCount(items: seq<HostValue>)
    requires StrictItems(items).Ok?
    ensures |MeaningOfItems(StrictItems(items).value)| == |items|
  {
    if items != [] {
      ItemCount(items[1..]);
    }
  }

  lemma FirstItem(items: seq<HostValue>)
    requires items != [] && StrictItems(items).Ok?
    ensures StrictTree(items[0]).Ok? && StrictItems(items[1..]).Ok?
    ensures var m := MeaningOfItems(StrictItems(items).value);
      m == [MeaningOf(StrictTree(items[0]).value)] + MeaningOfItems(StrictItems(items[1..]).value)
    ensures var m := MeaningOfItems(StrictItems(items).value);
      m != [] && m[0] == MeaningOf(StrictTree(items[0]).value) && m[1..] == MeaningOfItems(StrictItems(items[1..]).value)
  {
    var x := StrictItems(items).value;
    assert x == [StrictTree(items[0]).value] + StrictItems(items[1..]).value;
    assert x[1..] == StrictItems(items[1..]).value;
  }

  lemma ReceiptPart(f: Fields, i: nat)
    requires i < 11
    ensures StrictTree(ReceiptProperties(f)[i].value).Ok? && Proper(ReceiptProperties(f)[i].value)
  {
    hide StrictItems, ProperItems;
    LogsAreTrees(f.logs);
  }

  lemma ReceiptKeys(f: Fields, g: Fields, i: nat)
    requires i < 11
    ensures ReceiptProperties(f)[i].key == ReceiptProperties(g)[i].key
    ensures forall j :: i < j < 11 ==> ReceiptProperties(f)[i].key != ReceiptProperties(f)[j].key
  {
    var k := ["transactionHash", "blockHash", "blockNumber", "transactionIndex", "from", "to", "cumulativeGasUsed",
              "gasUsed", "effectiveGasPrice", "status", "logs"];
    assert forall j :: 0 <= j < 11 ==> ReceiptProperties(f)[j].key == k[j] && ReceiptProperties(g)[j].key == k[j];
    KeyLengths(k);
  }

  lemma KeyLengths(k: seq<string>)
    requires k == ["transactionHash", "blockHash", "blockNumber", "transactionIndex", "from", "to", "cumulativeGasUsed",
                   "gasUsed", "effectiveGasPrice", "status", "logs"]
    ensures forall i, j :: 0 <= i < j < 11 ==> k[i] != k[j]
  {
    assert |k[0]| == 15 && |k[1]| == 9 && |k[2]| == 11 && |k[3]| == 16 && |k[4]| == 4 && |k[5]| == 2 && |k[6]| == 17;
    assert |k[7]| == 7 && k[8][0] == 'e' && |k[9]| == 6 && k[10][0] == 'l' && k[4][0] == 'f' && k[6][0] == 'c';
  }

  lemma ReceiptIsTree(f: Fields)
    ensures ProperFields(ReceiptProperties(f)) && StrictFields(ReceiptProperties(f)).Ok?
  {
    hide StrictTree, Proper, ReceiptProperties;
    var p := ReceiptProperties(f);
    assert |p| == 11 by { ReceiptCount(f); }
    forall i | 0 <= i < 11 ensures StrictTree(p[i].value).Ok? && Proper(p[i].value) {
      ReceiptPart(f, i);
    }
    forall i, j | 0 <= i < j < 11 ensures p[i].key != p[j].key {
      ReceiptKeys(f, f, i);
    }
    L.FieldsProper(p);
    FieldsAreTrees(p);
  }

  lemma ReceiptCount(f: Fields)
    ensures |ReceiptProperties(f)| == 11
  {
  }

  lemma PlaceMeans(f: Fields, g: Fields, i: nat)
    requires i < 11 && StrictFields(ReceiptProperties(f)).Ok? && StrictFields(ReceiptProperties(g)).Ok?
    requires MeaningOfFields(StrictFields(ReceiptProperties(f)).value) == MeaningOfFields(StrictFields(ReceiptProperties(g)).value)
    ensures |ReceiptProperties(f)| == |ReceiptProperties(g)| == 11
    ensures StrictTree(ReceiptProperties(f)[i].value).Ok? && StrictTree(ReceiptProperties(g)[i].value).Ok?
    ensures MeaningOf(StrictTree(ReceiptProperties(f)[i].value).value) == MeaningOf(StrictTree(ReceiptProperties(g)[i].value).value)
  {
    hide StrictTree, MeaningOf, StrictFields, MeaningOfFields, ProperFields, ReceiptProperties;
    ReceiptIsTree(f);
    ReceiptIsTree(g);
    ReceiptCount(f);
    ReceiptCount(g);
    ReceiptKeys(f, g, i);
    SamePlaces(ReceiptProperties(f), ReceiptProperties(g), i);
  }

  lemma TextPlace(f: Fields, g: Fields, i: nat, s: string, t: string)
    requires i < 11 && StrictFields(ReceiptProperties(f)).Ok? && StrictFields(ReceiptProperties(g)).Ok?
    requires MeaningOfFields(StrictFields(ReceiptProperties(f)).value) == MeaningOfFields(StrictFields(ReceiptProperties(g)).value)
    requires |ReceiptProperties(f)| == |ReceiptProperties(g)| == 11
    requires ReceiptProperties(f)[i].value == VString(s) && ReceiptProperties(g)[i].value == VString(t)
    ensures s == t
  {
    hide StrictTree, MeaningOf, StrictFields, MeaningOfFields, ReceiptProperties;
    PlaceMeans(f, g, i);
    StringMeaning(s);
    StringMeaning(t);
  }

  predicate SameMeaning(f: Fields, g: Fields)
    requires StrictFields(ReceiptProperties(f)).Ok? && StrictFields(ReceiptProperties(g)).Ok?
  {
    MeaningOfFields(StrictFields(ReceiptProperties(f)).value) == MeaningOfFields(StrictFields(ReceiptProperties(g)).value)
  }

  lemma FirstTexts(f: Fields)
    ensures var p := ReceiptProperties(f);
      && |p| == 11 && p[0].value == VString(f.transactionHash) && p[1].value == VString(f.blockHash)
      && p[2].value == VString(f.blockNumber) && p[3].value == VString(f.transactionIndex) && p[4].value == VString(f.sender)
  {
  }

  lemma FirstPlaces(f: Fields, g: Fields)
    requires StrictFields(ReceiptProperties(f)).Ok? && StrictFields(ReceiptProperties(g)).Ok? && SameMeaning(f, g)
    ensures f.transactionHash == g.transactionHash && f.blockHash == g.blockHash && f.blockNumber == g.blockNumber
    ensures f.transactionIndex == g.transactionIndex && f.sender == g.sender
  {
    hide StrictTree, MeaningOf, StrictFields, MeaningOfFields, ReceiptProperties;
    FirstTexts(f);
    FirstTexts(g);
    TextPlace(f, g, 0, f.transactionHash, g.transactionHash);
    TextPlace(f, g, 1, f.blockHash, g.blockHash);
    TextPlace(f, g, 2, f.blockNumber, g.blockNumber);
    TextPlace(f, g, 3, f.transactionIndex, g.transactionIndex);
    TextPlace(f, g, 4, f.sender, g.sender);
  }

  lemma GasPlaces(f: Fields, g: Fields)
    requires StrictFields(ReceiptProperties(f)).Ok? && StrictFields(ReceiptProperties(g)).Ok? && SameMeaning(f, g)
    ensures f.cumulativeGasUsed == g.cumulativeGasUsed && f.gasUsed == g.gasUsed && f.effectiveGasPrice == g.effectiveGasPrice
  {
    hide StrictTree, MeaningOf, StrictFields, MeaningOfFields;
    TextPlace(f, g, 6, f.cumulativeGasUsed, g.cumulativeGasUsed);
    TextPlace(f, g, 7, f.gasUsed, g.gasUsed);
    TextPlace(f, g, 8, f.effectiveGasPrice, g.effectiveGasPrice);
  }

  lemma StatusPlace(f: Fields, g: Fields)
    requires StrictFields(ReceiptProperties(f)).Ok? && StrictFields(ReceiptProperties(g)).Ok? && SameMeaning(f, g)
    ensures f.success == g.success
  {
    hide StrictTree, MeaningOf, StrictFields, MeaningOfFields;
    var s, t := if f.success then "success" else "reverted", if g.success then "success" else "reverted";
    TextPlace(f, g, 9, s, t);
    assert s[0] == 's' <==> f.success;
    assert t[0] == 's' <==> g.success;
  }

  lemma RecipientMeaning(a: Option<string>)
    ensures var v := if a.None? then VNull else VString(a.value);
      StrictTree(v).Ok? && MeaningOf(StrictTree(v).value) == if a.None? then MNull else MStr(a.value)
  {
  }

  lemma LogsMeaning(logs: seq<Log>)
    ensures StrictItems(LogValues(logs)).Ok? && StrictTree(VArray(LogValues(logs))).Ok?
    ensures MeaningOf(StrictTree(VArray(LogValues(logs))).value) == MArr(MeaningOfItems(StrictItems(LogValues(logs)).value))
  {
    hide StrictItems, MeaningOfItems;
    LogsAreTrees(logs);
  }

  lemma SameReceipt(f: Fields, g: Fields)
    requires StrictFields(ReceiptProperties(f)).Ok? && StrictFields(ReceiptProperties(g)).Ok?
    requires MeaningOfFields(StrictFields(ReceiptProperties(f)).value) == MeaningOfFields(StrictFields(ReceiptProperties(g)).value)
    ensures f == g
  {
    hide StrictTree, MeaningOf, StrictFields, StrictItems, MeaningOfFields, MeaningOfItems;
    FirstPlaces(f, g);
    GasPlaces(f, g);
    StatusPlace(f, g);
    PlaceMeans(f, g, 5);
    RecipientMeaning(f.recipient);
    RecipientMeaning(g.recipient);
    PlaceMeans(f, g, 10);
    LogsMeaning(f.logs);
    LogsMeaning(g.logs);
    SameLogs(f.logs, g.logs);
  }

  /** A receipt hash stands for the normalized receipt, field by field and log by log. */
  lemma ReceiptHashBinds(hash: Hash, f: Fields, g: Fields)
    requires CollisionFree(hash)
    ensures HashReceipt(hash, f) == HashReceipt(hash, g) <==> f == g
  {
    hide StrictFields, MeaningOfFields, ReceiptProperties, CanonicalText, AllDigits, ProperFields;
    ReceiptIsTree(f);
    ReceiptIsTree(g);
    var v, w := VObject(ReceiptProperties(f)), VObject(ReceiptProperties(g));
    assert StrictTree(v) == Ok(Obj(StrictFields(ReceiptProperties(f)).value));
    assert StrictTree(w) == Ok(Obj(StrictFields(ReceiptProperties(g)).value));
    var x, y := StrictText(v).value, StrictText(w).value;
    assert ("sha256:" + hash(x))[7..] == hash(x) && ("sha256:" + hash(y))[7..] == hash(y);
    if HashReceipt(hash, f) == HashReceipt(hash, g) {
      StrictTextIsNormalForm(v, w);
      SameReceipt(f, g);
    }
  }

  // What normalized receipts say of the raw ones

  /** The same number, however each side writes it. */
  predicate SameQuantity(a: Option<HostValue>, b: Option<HostValue>) {
    QuantityValue(a).Some? && QuantityValue(a) == QuantityValue(b)
  }

  /** The same hexadecimal text up to letter case. */
  predicate SameHex(a: Option<HostValue>, b: Option<HostValue>) {
    match (a, b)
    case (Some(VString(s)), Some(VString(t))) => Lower(s) == Lower(t)
    case _ => false
  }

  predicate SameTopics(a: seq<HostValue>, b: seq<HostValue>) {
    |a| == |b| && forall i | 0 <= i < |a| :: SameHex(Some(a[i]), Some(b[i]))
  }

  predicate AgreeingLogs(a: HostValue, b: HostValue) {
    match (a, b)
    case (VObject(x), VObject(y)) =>
      && SameHex(Lookup(x, "address"), Lookup(y, "address")) && SameHex(Lookup(x, "data"), Lookup(y, "data"))
      && SameQuantity(Lookup(x, "logIndex"), Lookup(y, "logIndex"))
      && (match (Lookup(x, "topics"), Lookup(y, "topics"))
          case (Some(VArray(s)), Some(VArray(t))) => SameTopics(s, t)
          case _ => false)
    case _ => false
  }

  predicate AgreeingLogLists(a: seq<HostValue>, b: seq<HostValue>) {
    |a| == |b| && forall i | 0 <= i < |a| :: AgreeingLogs(a[i], b[i])
  }

  /** How a receipt says that its transaction succeeded: the boolean, the number one in the spellings that are taken, or
      the word. */
  predicate SaysSuccess(v: Option<HostValue>) {
    v == Some(VBool(true)) || v == Some(VNumber("1")) || v == Some(VString("1")) || v == Some(VString("0x1"))
    || v == Some(VString("success"))
  }

  /** How it says that the transaction was reverted: the boolean, zero, or the word. */
  predicate SaysReverted(v: Option<HostValue>) {
    v == Some(VBool(false)) || v == Some(VNumber("0")) || v == Some(VString("0")) || v == Some(VString("0x0"))
    || v == Some(VString("reverted"))
  }

  predicate SameStatus(a: Option<HostValue>, b: Option<HostValue>) {
    (SaysSuccess(a) && SaysSuccess(b)) || (SaysReverted(a) && SaysReverted(b))
  }

  /** A status reads as success or as reverted exactly when it says so, and everything else is refused. */
  lemma StatusIff(v: Option<HostValue>)
    ensures NormalizeStatus(v) == Ok(true) <==> SaysSuccess(v)
    ensures NormalizeStatus(v) == Ok(false) <==> SaysReverted(v)
  {
    StatusTexts();
  }

  lemma StatusTexts()
    ensures |"1"| == 1 && |"0"| == 1 && |"0x1"| == 3 && |"0x0"| == 3 && |"success"| == 7 && |"reverted"| == 8
    ensures "1"[0] == '1' && "0"[0] == '0' && "0x1"[2] == '1' && "0x0"[2] == '0'
  {
  }

  /** A status that is a quantity is read by its number: one is success, zero is reverted, and no other is taken. */
  lemma StatusIsNumber(v: Option<HostValue>)
    requires QuantityValue(v).Some? && NormalizeStatus(v).Ok?
    ensures QuantityValue(v).value == if NormalizeStatus(v).value then 1 else 0
  {
    hide QuantityValue;
    StatusIff(v);
    StatusNumbers();
    StatusWords();
    BooleansAreNoQuantities();
  }

  lemma BooleansAreNoQuantities()
    ensures forall b :: QuantityValue(Some(VBool(b))) == None
  {
  }

  lemma StatusNumbers()
    ensures QuantityValue(Some(VNumber("1"))) == Some(1) && QuantityValue(Some(VNumber("0"))) == Some(0)
    ensures QuantityValue(Some(VString("1"))) == Some(1) && QuantityValue(Some(VString("0"))) == Some(0)
    ensures QuantityValue(Some(VString("0x1"))) == Some(1) && QuantityValue(Some(VString("0x0"))) == Some(0)
  {
    hide QuantityValue, Value, AllDigits;
    SpellingsAgree(1);
    SpellingsAgree(0);
    assert Numeral(1, Hex) == "1" && Numeral(1, Dec) == "1";
    assert Numeral(0, Hex) == "0" && Numeral(0, Dec) == "0";
    assert "0x" + "1" == "0x1" && "0x" + "0" == "0x0";
  }

  lemma StatusWords()
    ensures QuantityValue(Some(VString("success"))) == None && QuantityValue(Some(VString("reverted"))) == None
  {
    hide Value;
    assert forall c | c in "success" :: !IsSpace(c);
    assert forall c | c in "reverted" :: !IsSpace(c);
    WordIsNoQuantity("success");
    WordIsNoQuantity("reverted");
  }

  lemma WordIsNoQuantity(s: string)
    requires |s| > 2 && s[0] in {'s', 'r'} && forall c | c in s :: !IsSpace(c)
    ensures QuantityValue(Some(VString(s))) == None
  {
    hide Value, IsSpace, Trim;
    TrimNoSpace(s);
    assert !IsDigit(s[0], Dec);
    assert !IsUnsigned(s) && !IsHexQuantity(s);
  }

  /** Two raw receipts that agree in every field and every log: numbers as numbers, hexadecimal texts up to case. */
  predicate AgreeingReceipts(x: seq<Property>, y: seq<Property>) {
    && SameHex(Lookup(x, "transactionHash"), Lookup(y, "transactionHash"))
    && SameHex(Lookup(x, "blockHash"), Lookup(y, "blockHash"))
    && SameQuantity(Lookup(x, "blockNumber"), Lookup(y, "blockNumber"))
    && SameQuantity(Lookup(x, "transactionIndex"), Lookup(y, "transactionIndex"))
    && SameHex(Lookup(x, "from"), Lookup(y, "from"))
    && (SameHex(Lookup(x, "to"), Lookup(y, "to")) || (Lookup(x, "to") == Some(VNull) && Lookup(y, "to") == Some(VNull)))
    && SameQuantity(Lookup(x, "cumulativeGasUsed"), Lookup(y, "cumulativeGasUsed"))
    && SameQuantity(Lookup(x, "gasUsed"), Lookup(y, "gasUsed"))
    && SameQuantity(Lookup(x, "effectiveGasPrice"), Lookup(y, "effectiveGasPrice"))
    && SameStatus(Lookup(x, "status"), Lookup(y, "status"))
    && (match (Lookup(x, "logs"), Lookup(y, "logs"))
        case (Some(VArray(a)), Some(VArray(b))) => AgreeingLogLists(a, b)
        case _ => false)
  }

  lemma QuantityAgrees(a: Option<HostValue>, b: Option<HostValue>)
    requires NormalizeQuantity(a).Ok? && NormalizeQuantity(b).Ok?
    ensures NormalizeQuantity(a) == NormalizeQuantity(b) <==> SameQuantity(a, b)
  {
    hide QuantityValue, Numeral;
    QuantityIffEqual(a, b);
  }

  lemma {:induction false} TopicsAgree(a: seq<HostValue>, b: seq<HostValue>)
    requires NormalizeTopics(a).Ok? && NormalizeTopics(b).Ok?
    ensures NormalizeTopics(a) == NormalizeTopics(b) <==> SameTopics(a, b)
  {
    hide Lower;
    if a != [] && b != [] {
      TopicsAgree(a[1..], b[1..]);
      var s, t := NormalizeTopics(a).value, NormalizeTopics(b).value;
      assert s[0] == Lower(a[0].s) && t[0] == Lower(b[0].s);
      assert s[1..] == NormalizeTopics(a[1..]).value && t[1..] == NormalizeTopics(b[1..]).value;
      assert s == [s[0]] + s[1..] && t == [t[0]] + t[1..];
      SplitTopics(a, b);
    }
  }

  lemma SplitTopics(a: seq<HostValue>, b: seq<HostValue>)
    requires a != [] && b != []
    ensures SameTopics(a, b) <==> SameHex(Some(a[0]), Some(b[0])) && SameTopics(a[1..], b[1..])
  {
    hide SameHex;
    if SameHex(Some(a[0]), Some(b[0])) && SameTopics(a[1..], b[1..]) {
      forall i | 0 <= i < |a| ensures SameHex(Some(a[i]), Some(b[i])) {
        assert i > 0 ==> a[i] == a[1..][i - 1] && b[i] == b[1..][i - 1];
      }
    }
    if SameTopics(a, b) {
      forall i | 0 <= i < |a| - 1 ensures SameHex(Some(a[1..][i]), Some(b[1..][i])) {
        assert a[1..][i] == a[i + 1] && b[1..][i] == b[i + 1];
      }
    }
  }

  lemma LogsAgree(a: HostValue, b: HostValue)
    requires NormalizeLog(a).Ok? && NormalizeLog(b).Ok?
    ensures NormalizeLog(a) == NormalizeLog(b) <==> AgreeingLogs(a, b)
  {
    hide Lower, QuantityValue, NormalizeQuantity, NormalizeTopics, SameTopics, SameQuantity, Lookup;
    QuantityAgrees(Lookup(a.fields, "logIndex"), Lookup(b.fields, "logIndex"));
    TopicsAgree(Lookup(a.fields, "topics").value.items, Lookup(b.fields, "topics").value.items);
  }

  lemma LogListsAgree(a: seq<HostValue>, b: seq<HostValue>)
    requires NormalizeLogs(a).Ok? && NormalizeLogs(b).Ok?
    ensures NormalizeLogs(a) == NormalizeLogs(b) <==> AgreeingLogLists(a, b)
  {
    hide NormalizeLog, AgreeingLogs;
    var l, m := NormalizeLogs(a).value, NormalizeLogs(b).value;
    if |a| == |b| {
      forall i | 0 <= i < |a| ensures l[i] == m[i] <==> AgreeingLogs(a[i], b[i]) {
        LogsAgree(a[i], b[i]);
      }
    }
  }

  /** Receipts that can be read have one normal form exactly when they agree in every field and every log. */
  lemma ReceiptsAgreeIff(x: seq<Property>, y: seq<Property>)
    requires NormalizeReceipt(x).Ok? && NormalizeReceipt(y).Ok?
    ensures NormalizeReceipt(x) == NormalizeReceipt(y) <==> AgreeingReceipts(x, y)
  {
    hide Lower, QuantityValue, NormalizeQuantity, NormalizeLogs, NormalizeStatus, AgreeingLogLists, SameQuantity, Lookup,
         SaysSuccess, SaysReverted;
    StatusIff(Lookup(x, "status"));
    StatusIff(Lookup(y, "status"));
    QuantityAgrees(Lookup(x, "blockNumber"), Lookup(y, "blockNumber"));
    QuantityAgrees(Lookup(x, "transactionIndex"), Lookup(y, "transactionIndex"));
    QuantityAgrees(Lookup(x, "cumulativeGasUsed"), Lookup(y, "cumulativeGasUsed"));
    QuantityAgrees(Lookup(x, "gasUsed"), Lookup(y, "gasUsed"));
    QuantityAgrees(Lookup(x, "effectiveGasPrice"), Lookup(y, "effectiveGasPrice"));
    LogListsAgree(Lookup(x, "logs").value.items, Lookup(y, "logs").value.items);
  }

  // Which receipts can be read, and what each field is read from

  predicate HexText(v: Option<HostValue>, digits: nat) {
    v.Some? && v.value.VString? && IsHexOfLength(v.value.s, digits)
  }

  predicate BytesText(v: Option<HostValue>) {
    v.Some? && v.value.VString? && IsHexData(v.value.s) && |v.value.s| % 2 == 0
  }

  predicate ReadableLog(v: HostValue) {
    match v
    case VObject(x) =>
      && HexText(Lookup(x, "address"), 40) && BytesText(Lookup(x, "data")) && QuantityValue(Lookup(x, "logIndex")).Some?
      && (match Lookup(x, "topics")
          case Some(VArray(items)) => forall i | 0 <= i < |items| :: BytesText(Some(items[i]))
          case _ => false)
    case _ => false
  }

  /** A receipt that can be read: hashes and addresses of their lengths, quantities, a status, a recipient or null, and logs. */
  predicate Readable(x: seq<Property>) {
    && HexText(Lookup(x, "transactionHash"), 64) && BytesText(Lookup(x, "blockHash"))
    && QuantityValue(Lookup(x, "blockNumber")).Some? && QuantityValue(Lookup(x, "transactionIndex")).Some?
    && HexText(Lookup(x, "from"), 40) && (Lookup(x, "to") == Some(VNull) || HexText(Lookup(x, "to"), 40))
    && QuantityValue(Lookup(x, "cumulativeGasUsed")).Some? && QuantityValue(Lookup(x, "gasUsed")).Some?
    && QuantityValue(Lookup(x, "effectiveGasPrice")).Some?
    && (SaysSuccess(Lookup(x, "status")) || SaysReverted(Lookup(x, "status")))
    && (match Lookup(x, "logs")
        case Some(VArray(items)) => forall i | 0 <= i < |items| :: ReadableLog(items[i])
        case _ => false)
  }

  predicate IsText(s: string, v: Option<HostValue>) {
    v.Some? && v.value.VString? && s == Lower(v.value.s)
  }

  predicate IsQuantity(s: string, v: Option<HostValue>) {
    QuantityValue(v).Some? && s == "0x" + Numeral(QuantityValue(v).value, Hex)
  }

  predicate IsLog(l: Log, v: HostValue) {
    match v
    case VObject(x) =>
      && IsText(l.address, Lookup(x, "address")) && IsText(l.data, Lookup(x, "data")) && IsQuantity(l.logIndex, Lookup(x, "logIndex"))
      && (match Lookup(x, "topics")
          case Some(VArray(items)) => |l.topics| == |items| && forall i | 0 <= i < |items| :: IsText(l.topics[i], Some(items[i]))
          case _ => false)
    case _ => false
  }

  /** Every field of a normal form and the raw member it is read from. */
  predicate Reads(f: Fields, x: seq<Property>) {
    && IsText(f.transactionHash, Lookup(x, "transactionHash")) && IsText(f.blockHash, Lookup(x, "blockHash"))
    && IsQuantity(f.blockNumber, Lookup(x, "blockNumber")) && IsQuantity(f.transactionIndex, Lookup(x, "transactionIndex"))
    && IsText(f.sender, Lookup(x, "from"))
    && (if f.recipient.Some? then IsText(f.recipient.value, Lookup(x, "to")) else Lookup(x, "to") == Some(VNull))
    && IsQuantity(f.cumulativeGasUsed, Lookup(x, "cumulativeGasUsed")) && IsQuantity(f.gasUsed, Lookup(x, "gasUsed"))
    && IsQuantity(f.effectiveGasPrice, Lookup(x, "effectiveGasPrice"))
    && (if f.success then SaysSuccess(Lookup(x, "status")) else SaysReverted(Lookup(x, "status")))
    && (match Lookup(x, "logs")
        case Some(VArray(items)) => |f.logs| == |items| && forall i | 0 <= i < |items| :: IsLog(f.logs[i], items[i])
        case _ => false)
  }

  lemma {:induction false} TopicsRead(items: seq<HostValue>)
    ensures NormalizeTopics(items).Ok? <==> forall i | 0 <= i < |items| :: BytesText(Some(items[i]))
    ensures NormalizeTopics(items).Ok? ==> forall i | 0 <= i < |items| :: IsText(NormalizeTopics(items).value[i], Some(items[i]))
  {
    hide Lower, IsHexData;
    if items != [] {
      TopicsRead(items[1..]);
      assert forall i | 0 < i < |items| :: items[i] == items[1..][i - 1];
      if forall i | 0 <= i < |items| :: BytesText(Some(items[i])) {
        forall i | 0 <= i < |items| - 1 ensures BytesText(Some(items[1..][i])) {
          assert items[1..][i] == items[i + 1];
        }
      }
    }
  }

  lemma LogReads(v: HostValue)
    ensures NormalizeLog(v).Ok? <==> ReadableLog(v)
    ensures NormalizeLog(v).Ok? ==> IsLog(NormalizeLog(v).value, v)
  {
    hide Lower, IsHexData, QuantityValue, NormalizeTopics, Lookup, BytesText, IsText;
    BytesTexts();
    if v.VObject? {
      match Lookup(v.fields, "topics")
      case Some(VArray(items)) => TopicsRead(items);
      case _ =>
    }
  }

  lemma BytesTexts()
    ensures forall v :: BytesOf(v).Ok? <==> BytesText(v)
    ensures forall v :: BytesOf(v).Ok? ==> IsText(BytesOf(v).value, v)
    ensures forall v :: AddressOf(v).Ok? <==> HexText(v, 40)
    ensures forall v :: TransactionHashOf(v).Ok? <==> HexText(v, 64)
    ensures forall v :: AddressOf(v).Ok? ==> IsText(AddressOf(v).value, v)
    ensures forall v :: TransactionHashOf(v).Ok? ==> IsText(TransactionHashOf(v).value, v)
  {
    hide Lower, IsHexData;
  }

  lemma {:induction false} LogsRead(items: seq<HostValue>)
    ensures NormalizeLogs(items).Ok? <==> forall i | 0 <= i < |items| :: ReadableLog(items[i])
    ensures NormalizeLogs(items).Ok? ==> forall i | 0 <= i < |items| :: IsLog(NormalizeLogs(items).value[i], items[i])
  {
    hide NormalizeLog, ReadableLog, IsLog;
    if items != [] {
      LogReads(items[0]);
      LogsRead(items[1..]);
      assert forall i | 0 < i < |items| :: items[i] == items[1..][i - 1];
      if forall i | 0 <= i < |items| :: ReadableLog(items[i]) {
        forall i | 0 <= i < |items| - 1 ensures ReadableLog(items[1..][i]) {
          assert items[1..][i] == items[i + 1];
        }
      }
    }
  }

  lemma RecipientReads(v: Option<HostValue>)
    ensures Recipient(v).Ok? <==> v == Some(VNull) || HexText(v, 40)
    ensures Recipient(v).Ok? ==> if Recipient(v).value.Some? then IsText(Recipient(v).value.value, v) else v == Some(VNull)
  {
    hide Lower, IsHexData;
  }

  lemma QuantityReads(v: Option<HostValue>)
    ensures NormalizeQuantity(v).Ok? <==> QuantityValue(v).Some?
    ensures NormalizeQuantity(v).Ok? ==> IsQuantity(NormalizeQuantity(v).value, v)
  {
    hide QuantityValue, Numeral;
  }

  /** A raw receipt is taken exactly when it can be read, and its normal form says field by field what it says. */
  lemma ReceiptReads(x: seq<Property>)
    ensures NormalizeReceipt(x).Ok? <==> Readable(x)
    ensures NormalizeReceipt(x).Ok? ==> Reads(NormalizeReceipt(x).value, x)
  {
    hide Lower, IsHexData, QuantityValue, NormalizeLogs, Lookup, BytesText, IsText, IsLog, ReadableLog, NormalizeStatus, Recipient,
         SaysSuccess, SaysReverted, NormalizeQuantity, IsQuantity, AddressOf, BytesOf, TransactionHashOf, HexText;
    BytesTexts();
    StatusIff(Lookup(x, "status"));
    RecipientReads(Lookup(x, "to"));
    QuantityReads(Lookup(x, "blockNumber"));
    QuantityReads(Lookup(x, "transactionIndex"));
    QuantityReads(Lookup(x, "cumulativeGasUsed"));
    QuantityReads(Lookup(x, "gasUsed"));
    QuantityReads(Lookup(x, "effectiveGasPrice"));
    match Lookup(x, "logs")
    case Some(VArray(items)) => LogsRead(items);
    case _ =>
  }

  /** White space around a quantity is ignored. */
  lemma SpacedQuantity(before: string, s: string, after: string)
    requires (forall i | 0 <= i < |before| :: IsSpace(before[i])) && (forall i | 0 <= i < |after| :: IsSpace(after[i]))
    ensures QuantityValue(Some(VString(before + s + after))) == QuantityValue(Some(VString(s)))
  {
    hide Value, AllDigits, IsSpace, IsHexQuantity;
    TrimSpaces(before, s, after);
  }
}
