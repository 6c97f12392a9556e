/** What a prepared call guarantees: it is within its policy, its payload hash binds every field of the body, and
    its idempotency key determines the call. */
module SafeExecutionLaws {
  import opened Results
  import opened Text
  import opened Numerals
  import opened Manifest
  import opened Decimals
  import opened Json
  import opened CanonicalJson
  import opened Hashing
  import opened SafeExecution

  // Policy

  predicate RuleCovers(rule: CallRule, call: ContractCall) {
    && rule.chainId == call.chainId && IsAddress(rule.target) && IsAddress(call.contractAddress)
    && Lower(rule.target) == Lower(call.contractAddress)
    && rule.functionName == Trim(call.functionName)
    && Lower(rule.functionSelector) == Lower(call.functionSelector)
  }

  /** The call's amount is a plain integer within the rule's cap. */
  predicate AmountOk(v: Option<HostValue>, cap: Option<string>) {
    && AmountText(v).Some? && IsUnsigned(Trim(AmountText(v).value))
    && cap.Some? && IsUnsigned(Trim(cap.value))
    && Value(Trim(AmountText(v).value), Dec) <= Value(Trim(cap.value), Dec)
  }

  /** The native value denotes a whole number of wei within the rule's cap. */
  predicate NativeOk(value: string, cap: string) {
    && IsDecimal(Trim(value)) && IsUnsigned(Trim(cap))
    && exists wei | 0 <= wei <= Value(Trim(cap), Dec) :: IsUnits(Split(Trim(value)), 18, wei)
  }

  lemma NativeWithin(value: Option<string>, cap: string)
    requires NativeValue(value, cap).Ok?
    ensures NativeOk(value.GetOr("0"), cap)
    ensures CanonicalDecimal(value.GetOr("0")) == Ok(NativeValue(value, cap).value)
  {
    hide Trim, Value, AllDigits, Units, Reduced, IsReduced, Print, Split, IsDecimal, IsUnits;
    var v := value.GetOr("0");
    var c := CanonicalDecimal(v).value;
    CanonicalNumber(v);
    var wei := DecimalToUnits(c, 18).value;
    UnitsExact(c, 18);
    UnitsTransfer(Split(Trim(c)), Split(Trim(v)), 18, wei);
  }

  lemma CanonicalNumber(v: string)
    requires CanonicalDecimal(v).Ok?
    ensures var c := CanonicalDecimal(v).value;
      && IsDecimal(Trim(v)) && IsDecimal(Trim(c)) && SameNumber(Split(Trim(c)), Split(Trim(v)))
  {
    hide Trim, Value, AllDigits, IsReduced, Split, IsDecimal, SameNumber, Reduced, Print;
    var d := Split(Trim(v));
    PrintSplit(Reduced(d));
    ReducedSameNumber(d);
    SameNumberIsEqual(d, Reduced(d));
    SameNumberIsEqual(Reduced(d), d);
  }

  /** A prepared call is covered by a rule of its policy and within that rule's caps. */
  lemma PreparedWithinPolicy(hash: Hash, call: ContractCall, policy: Policy)
    requires PrepareContractCall(hash, call, policy).Ok?
    ensures exists rule | rule in policy.contractCalls ::
      && RuleCovers(rule, call)
      && NativeOk(call.value.GetOr("0"), rule.maxNativeValueWei)
      && (rule.amountArgumentIndex.Some? ==>
            AmountOk(Argument(call.functionArgs, rule.amountArgumentIndex.value), rule.maxAmountBaseUnits))
      && (rule.tokenAddress.Some? && rule.tokenAddress.value != "" ==>
            && NormalizeOptional(call.tokenAddress) == Ok(Some(Lower(rule.tokenAddress.value)))
            && Located(rule, Lower(call.contractAddress), call.functionArgs) == Ok(Some(Lower(rule.tokenAddress.value))))
  {
    hide Trim, Value, AllDigits, NativeOk, NativeValue, StrictText, EscapeTaskId, CallBody, Located, IsHexOfLength, CanonicalDecimal;
    var target, name, selector := Lower(call.contractAddress), Trim(call.functionName), Lower(call.functionSelector);
    var rule := FindCallRule(policy.contractCalls, call.chainId, target, name, selector).value;
    NativeWithin(call.value, rule.maxNativeValueWei);
    assert RuleCovers(rule, call);
  }

  predicate ActionCovers(rule: ActionRule, action: ProtocolAction) {
    && rule.chainId == action.chainId && rule.protocol == Trim(action.protocol) && rule.action == Trim(action.action)
    && forall i | 0 <= i < |action.parameters| ::
         action.parameters[i].key == "chainId" || action.parameters[i].key in rule.allowedParameterFields
  }

  predicate IsSet(s: Option<string>) {
    s.Some? && s.value != ""
  }

  /** The named parameter is the rule's token, in any letter case. */
  predicate TokenIs(v: Option<HostValue>, token: string) {
    match v
    case Some(VString(s)) => IsAddress(s) && IsAddress(token) && Lower(s) == Lower(token)
    case _ => false
  }

  /** A prepared protocol action is covered by a rule of its policy, has no other parameters than the rule's, and is
      within the rule's cap and on its token. */
  lemma PreparedActionWithinPolicy(hash: Hash, action: ProtocolAction, policy: Policy)
    requires PrepareProtocolAction(hash, action, policy).Ok?
    ensures exists rule | rule in policy.protocolActions ::
      && ActionCovers(rule, action)
      && (IsSet(rule.amountField) ==> AmountOk(Lookup(action.parameters, rule.amountField.value), rule.maxAmountBaseUnits))
      && (IsSet(rule.tokenField) && IsSet(rule.tokenAddress) ==>
            TokenIs(Lookup(action.parameters, rule.tokenField.value), rule.tokenAddress.value))
  {
    hide Trim, Value, AllDigits, StrictText, EscapeTaskId, ActionBody, IsSlug, Lookup, AmountText;
    var rule := FindActionRule(policy.protocolActions, action.chainId, Trim(action.protocol), Trim(action.action)).value;
    assert ActionCovers(rule, action);
  }

  // Amounts

  /** Two amounts that are accepted as integers agree exactly when they denote the same number, and the decimal reader
      takes them for that number too. */
  lemma IntegersAgreeIff(a: Option<HostValue>, b: Option<HostValue>)
    requires NormalizeInteger(a).Ok? && NormalizeInteger(b).Ok?
    ensures IsDecimal(Trim(AmountText(a).value)) && IsDecimal(Trim(AmountText(b).value))
    ensures NormalizeInteger(a) == NormalizeInteger(b) <==>
            Rational(Split(Trim(AmountText(a).value))) == Rational(Split(Trim(AmountText(b).value)))
    ensures DecimalToUnits(AmountText(a).value, 0) == Ok(NormalizeInteger(a).value)
  {
    hide Trim, AllDigits, Value, IsDecimal, Split, DecimalToUnits, Rational;
    var s, t := AmountText(a).value, AmountText(b).value;
    IntegerIsDecimal(Trim(s));
    IntegerIsDecimal(Trim(t));
    SameNumberIsEqual(Split(Trim(s)), Split(Trim(t)));
    UnitsExact(s, 0);
    assert IsUnits(Split(Trim(s)), 0, Value(Trim(s), Dec));
  }

  lemma IntegerIsDecimal(t: string)
    requires IsUnsigned(t)
    ensures IsDecimal(t) && Split(t) == Decimal(t, "") && Mantissa(Split(t)) == Value(t, Dec)
  {
    hide IsDecimal, Split, Trim;
    PrintWhole(t);
    assert t + "" == t;
  }

  // Keys

  /** The joined material of a prepared call, in terms of the call. */
  function MaterialOf(hash: Hash, call: ContractCall): seq<string>
    requires Preparable(call)
  {
    CallMaterial(EscapeTaskId(call.taskId).value, call.chainId, Lower(call.contractAddress), Lower(call.functionSelector),
                 hash(StrictText(VArray(call.functionArgs)).value), CanonicalDecimal(call.value.GetOr("0")).value,
                 NormalizeOptional(call.tokenAddress).value)
  }

  predicate Preparable(call: ContractCall) {
    && EscapeTaskId(call.taskId).Ok? && 1 <= call.chainId && StrictText(VArray(call.functionArgs)).Ok?
    && CanonicalDecimal(call.value.GetOr("0")).Ok? && NormalizeOptional(call.tokenAddress).Ok?
    && IsAddress(call.contractAddress) && IsHexOfLength(Lower(call.functionSelector), 8)
  }

  lemma PreparedKey(hash: Hash, call: ContractCall, policy: Policy)
    requires PrepareContractCall(hash, call, policy).Ok?
    ensures Preparable(call)
    ensures PrepareContractCall(hash, call, policy).value.idempotencyKey == hash(Join(MaterialOf(hash, call), '|'))
  {
    hide Trim, NativeValue, StrictText, EscapeTaskId, CallBody, Located, IsHexOfLength, CanonicalDecimal, IsAddress,
         FindCallRule, ValidateAbi, AmountWithin, TokenMatches, Join;
    var target, name, selector := Lower(call.contractAddress), Trim(call.functionName), Lower(call.functionSelector);
    var rule := FindCallRule(policy.contractCalls, call.chainId, target, name, selector).value;
    NativeIsCanonical(call.value, rule.maxNativeValueWei);
  }

  lemma NativeIsCanonical(value: Option<string>, cap: string)
    requires NativeValue(value, cap).Ok?
    ensures CanonicalDecimal(value.GetOr("0")) == Ok(NativeValue(value, cap).value)
  {
    hide CanonicalDecimal, DecimalToUnits;
  }

  predicate NoBar(s: string) {
    forall i :: 0 <= i < |s| ==> s[i] != '|'
  }

  lemma DigitsNoBar(s: string, b: Base)
    requires AllDigits(s, b)
    ensures NoBar(s)
  {
    assert forall i :: 0 <= i < |s| ==> IsDigit(s[i], b);
  }

  lemma HexNoBar(s: string)
    requires IsHexData(s)
    ensures NoBar(Lower(s))
  {
    DigitsNoBar(s[2..], Hex);
    assert forall i :: 2 <= i < |s| ==> s[i] == s[2..][i - 2];
  }

  lemma DecimalNoBar(value: string)
    requires CanonicalDecimal(value).Ok?
    ensures NoBar(CanonicalDecimal(value).value)
  {
    hide Trim, AllDigits;
    var d := Reduced(Split(Trim(value)));
    DigitsNoBar(d.whole, Dec);
    DigitsNoBar(d.fraction, Dec);
  }

  lemma TaskNoBar(taskId: string)
    requires EscapeTaskId(taskId).Ok?
    ensures NoBar(EscapeTaskId(taskId).value)
  {
    hide EscapeTaskId;
    TaskIdRecovered(taskId);
  }

  lemma TokenNoBar(token: Option<string>)
    requires NormalizeOptional(token).Ok?
    ensures NoBar(NormalizeOptional(token).value.GetOr(""))
  {
    if token.Some? && token.value != "" {
      HexNoBar(token.value);
    }
  }

  lemma LowerNoBar(selector: string)
    requires IsHexOfLength(Lower(selector), 8)
    ensures NoBar(Lower(selector))
  {
    HexNoBar(Lower(selector));
    LowerIdempotent(selector);
  }

  lemma MaterialNoBar(hash: Hash, call: ContractCall)
    requires CollisionFree(hash) && Preparable(call)
    ensures forall i | 0 <= i < 7 :: '|' !in MaterialOf(hash, call)[i]
  {
    hide EscapeTaskId, StrictText, CanonicalDecimal, NormalizeOptional, IsHexOfLength, Trim;
    TaskNoBar(call.taskId);
    DigitsNoBar(Numeral(call.chainId, Dec), Dec);
    AddressNoBar(call.contractAddress);
    LowerNoBar(call.functionSelector);
    DigitsNoBar(hash(StrictText(VArray(call.functionArgs)).value), Hex);
    DecimalNoBar(call.value.GetOr("0"));
    TokenNoBar(call.tokenAddress);
  }

  lemma AddressNoBar(s: string)
    requires IsAddress(s)
    ensures NoBar(Lower(s))
  {
    HexNoBar(s);
  }

  /** What one idempotency key says about two calls. */
  predicate SameCall(a: ContractCall, b: ContractCall)
    requires Preparable(a) && Preparable(b)
  {
    && Trim(a.taskId) == Trim(b.taskId) && a.chainId == b.chainId
    && Lower(a.contractAddress) == Lower(b.contractAddress)
    && Lower(a.functionSelector) == Lower(b.functionSelector)
    && StrictText(VArray(a.functionArgs)) == StrictText(VArray(b.functionArgs))
    && CanonicalDecimal(a.value.GetOr("0")) == CanonicalDecimal(b.value.GetOr("0"))
    && NormalizeOptional(a.tokenAddress) == NormalizeOptional(b.tokenAddress)
  }

  lemma TokenFromText(a: Option<string>, b: Option<string>)
    requires NormalizeOptional(a).Ok? && NormalizeOptional(b).Ok?
    requires NormalizeOptional(a).value.GetOr("") == NormalizeOptional(b).value.GetOr("")
    ensures NormalizeOptional(a) == NormalizeOptional(b)
  {
    assert forall s :: IsAddress(s) ==> |Lower(s)| == 42;
  }

  lemma SameMaterial(hash: Hash, a: ContractCall, b: ContractCall)
    requires CollisionFree(hash) && Preparable(a) && Preparable(b)
    requires MaterialOf(hash, a) == MaterialOf(hash, b)
    ensures SameCall(a, b)
  {
    hide EscapeTaskId, StrictText, CanonicalDecimal, NormalizeOptional, IsHexOfLength, IsAddress, Trim, AllDigits;
    var m, n := MaterialOf(hash, a), MaterialOf(hash, b);
    assert m[0] == n[0] && m[1] == n[1] && m[2] == n[2] && m[3] == n[3] && m[4] == n[4] && m[5] == n[5] && m[6] == n[6];
    TaskIdRecovered(a.taskId);
    TaskIdRecovered(b.taskId);
    assert Value(m[1], Dec) == a.chainId && Value(n[1], Dec) == b.chainId;
    TokenFromText(a.tokenAddress, b.tokenAddress);
  }

  /** The idempotency key of a contract call determines its task, chain, target, selector, arguments, value and token. */
  lemma CallKeyInjective(hash: Hash, a: ContractCall, p: Policy, b: ContractCall, q: Policy)
    requires CollisionFree(hash) && PrepareContractCall(hash, a, p).Ok? && PrepareContractCall(hash, b, q).Ok?
    requires PrepareContractCall(hash, a, p).value.idempotencyKey == PrepareContractCall(hash, b, q).value.idempotencyKey
    ensures Preparable(a) && Preparable(b) && SameCall(a, b)
  {
    hide PrepareContractCall, Preparable, MaterialOf, SameCall, AllDigits;
    PreparedKey(hash, a, p);
    PreparedKey(hash, b, q);
    SameJoined(hash, a, b);
  }

  lemma SameJoined(hash: Hash, a: ContractCall, b: ContractCall)
    requires CollisionFree(hash) && Preparable(a) && Preparable(b)
    requires Join(MaterialOf(hash, a), '|') == Join(MaterialOf(hash, b), '|')
    ensures SameCall(a, b)
  {
    hide Preparable, SameCall, Join, AllDigits;
    MaterialNoBar(hash, a);
    MaterialNoBar(hash, b);
    JoinInjective(MaterialOf(hash, a), MaterialOf(hash, b), '|');
    SameMaterial(hash, a, b);
  }

  // Protocol actions

  predicate ActionReady(action: ProtocolAction) {
    EscapeTaskId(action.taskId).Ok? && 1 <= action.chainId && IsSlug(Trim(action.protocol)) && IsSlug(Trim(action.action))
  }

  function ActionMaterialOf(action: ProtocolAction, payloadHash: string): seq<string>
    requires ActionReady(action)
  {
    ActionMaterial(EscapeTaskId(action.taskId).value, action.chainId, Trim(action.protocol), Trim(action.action), payloadHash)
  }

  lemma PreparedAction(hash: Hash, action: ProtocolAction, policy: Policy)
    requires PrepareProtocolAction(hash, action, policy).Ok?
    ensures ActionReady(action)
    ensures var p := PrepareProtocolAction(hash, action, policy).value;
      && 0 <= action.chainId && StrictText(ActionBody(action.parameters, action.chainId)).Ok?
      && p.payloadHash == "sha256:" + hash(StrictText(ActionBody(action.parameters, action.chainId)).value)
      && p.idempotencyKey == hash(Join(ActionMaterialOf(action, p.payloadHash), '|'))
  {
    hide Trim, StrictText, EscapeTaskId, ActionBody, IsSlug, Join, ActionToken, AmountWithin, FindActionRule;
  }

  lemma SlugNoBar(s: string)
    requires IsSlug(s)
    ensures NoBar(s)
  {
  }

  lemma ActionNoBar(hash: Hash, action: ProtocolAction, payload: string)
    requires CollisionFree(hash) && ActionReady(action)
    ensures forall i | 0 <= i < 5 :: '|' !in ActionMaterialOf(action, "sha256:" + hash(payload))[i]
  {
    hide EscapeTaskId, Trim, IsSlug;
    TaskNoBar(action.taskId);
    DigitsNoBar(Numeral(action.chainId, Dec), Dec);
    SlugNoBar(Trim(action.protocol));
    SlugNoBar(Trim(action.action));
    DigitsNoBar(hash(payload), Hex);
  }

  lemma SameActionMaterial(hash: Hash, a: ProtocolAction, x: string, b: ProtocolAction, y: string)
    requires CollisionFree(hash) && ActionReady(a) && ActionReady(b)
    requires ActionMaterialOf(a, "sha256:" + hash(x)) == ActionMaterialOf(b, "sha256:" + hash(y))
    ensures Trim(a.taskId) == Trim(b.taskId) && a.chainId == b.chainId
    ensures Trim(a.protocol) == Trim(b.protocol) && Trim(a.action) == Trim(b.action) && x == y
  {
    hide EscapeTaskId, Trim, IsSlug, AllDigits;
    var m, n := ActionMaterialOf(a, "sha256:" + hash(x)), ActionMaterialOf(b, "sha256:" + hash(y));
    assert m[0] == n[0] && m[1] == n[1] && m[2] == n[2] && m[3] == n[3] && m[4] == n[4];
    TaskIdRecovered(a.taskId);
    TaskIdRecovered(b.taskId);
    assert Value(m[1], Dec) == a.chainId && Value(n[1], Dec) == b.chainId;
    assert hash(x) == m[4][7..] && hash(y) == n[4][7..];
  }

  /** The idempotency key of an action determines its task, chain, slugs and the meaning of its body. */
  lemma ActionKeyInjective(hash: Hash, a: ProtocolAction, p: Policy, b: ProtocolAction, q: Policy)
    requires CollisionFree(hash) && PrepareProtocolAction(hash, a, p).Ok? && PrepareProtocolAction(hash, b, q).Ok?
    requires PrepareProtocolAction(hash, a, p).value.idempotencyKey == PrepareProtocolAction(hash, b, q).value.idempotencyKey
    ensures Trim(a.taskId) == Trim(b.taskId) && a.chainId == b.chainId >= 0
    ensures Trim(a.protocol) == Trim(b.protocol) && Trim(a.action) == Trim(b.action)
    ensures StrictText(ActionBody(a.parameters, a.chainId)) == StrictText(ActionBody(b.parameters, b.chainId))
  {
    hide PrepareProtocolAction, ActionReady, ActionMaterialOf, StrictText, Join, AllDigits, Trim, ActionBody;
    PreparedAction(hash, a, p);
    PreparedAction(hash, b, q);
    var x, y := StrictText(ActionBody(a.parameters, a.chainId)).value, StrictText(ActionBody(b.parameters, b.chainId)).value;
    ActionNoBar(hash, a, x);
    ActionNoBar(hash, b, y);
    ActionLength(a, "sha256:" + hash(x));
    ActionLength(b, "sha256:" + hash(y));
    JoinInjective(ActionMaterialOf(a, "sha256:" + hash(x)), ActionMaterialOf(b, "sha256:" + hash(y)), '|');
    SameActionMaterial(hash, a, x, b, y);
  }

  lemma ActionLength(a: ProtocolAction, payloadHash: string)
    requires ActionReady(a)
    ensures |ActionMaterialOf(a, payloadHash)| == 5 && a.chainId >= 0
  {
  }

  /** A contract call never shares its key with a protocol action. */
  lemma KindsNeverShareKeys(hash: Hash, a: ContractCall, p: Policy, b: ProtocolAction, q: Policy)
    requires CollisionFree(hash) && PrepareContractCall(hash, a, p).Ok? && PrepareProtocolAction(hash, b, q).Ok?
    ensures PrepareContractCall(hash, a, p).value.idempotencyKey != PrepareProtocolAction(hash, b, q).value.idempotencyKey
  {
    hide PrepareContractCall, PrepareProtocolAction, Preparable, ActionReady, MaterialOf, ActionMaterialOf, StrictText,
         Join, AllDigits, Trim, ActionBody;
    PreparedKey(hash, a, p);
    PreparedAction(hash, b, q);
    var y := StrictText(ActionBody(b.parameters, b.chainId)).value;
    MaterialNoBar(hash, a);
    ActionNoBar(hash, b, y);
    ActionLength(b, "sha256:" + hash(y));
    CallLength(hash, a);
    if Join(MaterialOf(hash, a), '|') == Join(ActionMaterialOf(b, "sha256:" + hash(y)), '|') {
      JoinInjective(MaterialOf(hash, a), ActionMaterialOf(b, "sha256:" + hash(y)), '|');
    }
  }

  lemma CallLength(hash: Hash, a: ContractCall)
    requires Preparable(a)
    ensures |MaterialOf(hash, a)| == 7
  {
  }

  // Payload hashes

  lemma {:induction false} MeaningAt(fields: seq<Property>, i: nat)
    requires ProperFields(fields) && StrictFields(fields).Ok? && i < |fields|
    ensures StrictTree(fields[i].value).Ok? && fields[i].key in PropertyKeys(fields)
    ensures var m := MeaningOfFields(StrictFields(fields).value);
      fields[i].key in m && m[fields[i].key] == MeaningOf(StrictTree(fields[i].value).value)
  {
    hide MeaningOf, Proper;
    var rest := StrictFields(fields[1..]).value;
    assert StrictFields(fields).value[1..] == rest;
    if i > 0 {
      MeaningAt(fields[1..], i - 1);
    }
  }

  lemma {:induction false} KeysOfFields(fields: seq<Property>)
    requires StrictFields(fields).Ok?
    ensures MeaningOfFields(StrictFields(fields).value).Keys == PropertyKeys(fields)
  {
    hide MeaningOf;
    if fields != [] {
      KeysOfFields(fields[1..]);
      assert StrictFields(fields).value[1..] == StrictFields(fields[1..]).value;
    }
  }

  lemma {:induction false} KeyPresent(fields: seq<Property>, key: string)
    ensures key in PropertyKeys(fields) <==> exists i :: 0 <= i < |fields| && fields[i].key == key
  {
    if fields != [] {
      KeyPresent(fields[1..], key);
      assert forall i :: 1 <= i < |fields| ==> fields[i] == fields[1..][i - 1];
      if key in PropertyKeys(fields[1..]) {
        var i :| 0 <= i < |fields[1..]| && fields[1..][i].key == key;
        assert fields[i + 1].key == key;
      }
    }
  }

  lemma {:induction false} FieldsProper(fields: seq<Property>)
    requires forall i :: 0 <= i < |fields| ==> Proper(fields[i].value)
    requires forall i, j :: 0 <= i < j < |fields| ==> fields[i].key != fields[j].key
    ensures ProperFields(fields)
  {
    hide Proper;
    if fields != [] {
      FieldsProper(fields[1..]);
      KeyPresent(fields[1..], fields[0].key);
    }
  }

  /** The body of a call, field by field. */
  datatype Payload = Payload(target: string, chainId: nat, name: string, args: string, abi: string, value: string,
                             gas: Option<string>)

  function BodyFields(p: Payload): seq<Property> {
    [Member("contractAddress", p.target), Property("chainId", VNumber(Numeral(p.chainId, Dec))),
     Member("functionName", p.name), Member("functionArgs", p.args), Member("abi", p.abi)]
    + (if p.value != "0" then [Member("value", p.value)] else [])
    + (if p.gas.Some? then [Member("gasLimitMultiplier", p.gas.value)] else [])
  }

  lemma BodyKeys(p: Payload, i: nat)
    requires i < |BodyFields(p)|
    ensures var k := BodyFields(p)[i].key;
      && (i == 0 ==> k == "contractAddress") && (i == 1 ==> k == "chainId") && (i == 2 ==> k == "functionName")
      && (i == 3 ==> k == "functionArgs") && (i == 4 ==> k == "abi")
      && (i == 5 ==> k == if p.value != "0" then "value" else "gasLimitMultiplier")
      && (i == 6 ==> k == "gasLimitMultiplier") && i <= 6
      && (BodyFields(p)[i].value.VString? || (i == 1 && BodyFields(p)[i].value == VNumber(Numeral(p.chainId, Dec))))
  {
  }

  lemma NumeralIsNumeral(n: nat)
    ensures IsNumeral(Numeral(n, Dec))
  {
    var s := Numeral(n, Dec);
    assert forall i :: 0 <= i < |s| ==> IsDigit(s[i], Dec);
  }

  lemma BodyProper(p: Payload)
    ensures ProperFields(BodyFields(p))
  {
    hide Numeral, IsNumeral;
    var f := BodyFields(p);
    NumeralIsNumeral(p.chainId);
    forall i | 0 <= i < |f| ensures Proper(f[i].value) {
      BodyKeys(p, i);
    }
    forall i, j | 0 <= i < j < |f| ensures f[i].key != f[j].key {
      BodyKeys(p, i);
      BodyKeys(p, j);
    }
    FieldsProper(f);
  }

  lemma {:induction false} LeavesAreTrees(fields: seq<Property>)
    requires forall i :: 0 <= i < |fields| ==> fields[i].value.VString? || fields[i].value.VNumber?
    ensures StrictFields(fields).Ok?
  {
    if fields != [] {
      LeavesAreTrees(fields[1..]);
    }
  }

  lemma BodyIsTree(p: Payload)
    ensures StrictFields(BodyFields(p)).Ok?
  {
    var f := BodyFields(p);
    forall i | 0 <= i < |f| ensures f[i].value.VString? || f[i].value.VNumber? {
      BodyKeys(p, i);
    }
    LeavesAreTrees(f);
  }

  function BodyMeaning(p: Payload): map<string, Meaning> {
    BodyIsTree(p);
    MeaningOfFields(StrictFields(BodyFields(p)).value)
  }

  lemma BodyMeaningAt(p: Payload, i: nat)
    requires i < |BodyFields(p)|
    ensures BodyFields(p)[i].key in BodyMeaning(p)
    ensures BodyMeaning(p)[BodyFields(p)[i].key] ==
            match BodyFields(p)[i].value case VString(s) => MStr(s) case VNumber(n) => MNum(n) case _ => MNull
  {
    hide BodyFields;
    BodyProper(p);
    BodyIsTree(p);
    BodyKeys(p, i);
    MeaningAt(BodyFields(p), i);
  }

  lemma BodyHasKey(p: Payload, key: string)
    ensures key in BodyMeaning(p) <==> exists i :: 0 <= i < |BodyFields(p)| && BodyFields(p)[i].key == key
  {
    hide BodyFields;
    BodyIsTree(p);
    KeysOfFields(BodyFields(p));
    KeyPresent(BodyFields(p), key);
  }

  /** The first five members carry the payload's fields. */
  lemma FixedMembers(p: Payload)
    ensures var m := BodyMeaning(p);
      && "contractAddress" in m && m["contractAddress"] == MStr(p.target)
      && "chainId" in m && m["chainId"] == MNum(Numeral(p.chainId, Dec))
      && "functionName" in m && m["functionName"] == MStr(p.name)
      && "functionArgs" in m && m["functionArgs"] == MStr(p.args)
      && "abi" in m && m["abi"] == MStr(p.abi)
  {
    hide BodyMeaning, Numeral;
    BodyMeaningAt(p, 0);
    BodyMeaningAt(p, 1);
    BodyMeaningAt(p, 2);
    BodyMeaningAt(p, 3);
    BodyMeaningAt(p, 4);
  }

  lemma OptionalMembers(p: Payload)
    ensures var m := BodyMeaning(p);
      && (p.value != "0" <==> "value" in m) && (p.value != "0" ==> m["value"] == MStr(p.value))
      && (p.gas.Some? <==> "gasLimitMultiplier" in m) && (p.gas.Some? ==> m["gasLimitMultiplier"] == MStr(p.gas.value))
  {
    hide BodyMeaning, Numeral;
    BodyHasKey(p, "value");
    BodyHasKey(p, "gasLimitMultiplier");
    if p.value != "0" {
      BodyMeaningAt(p, 5);
    }
    if p.gas.Some? {
      BodyMeaningAt(p, |BodyFields(p)| - 1);
    }
    forall i | 0 <= i < |BodyFields(p)| ensures BodyFields(p)[i].key == "value" ==> p.value != "0" {
      BodyKeys(p, i);
    }
    forall i | 0 <= i < |BodyFields(p)| ensures BodyFields(p)[i].key == "gasLimitMultiplier" ==> p.gas.Some? {
      BodyKeys(p, i);
    }
  }

  lemma SameBodyMeaning(p: Payload, q: Payload)
    requires BodyMeaning(p) == BodyMeaning(q)
    ensures p == q
  {
    hide BodyMeaning, Numeral;
    FixedMembers(p);
    FixedMembers(q);
    OptionalMembers(p);
    OptionalMembers(q);
    assert Numerals.Value(Numeral(p.chainId, Dec), Dec) == p.chainId;
    assert Numerals.Value(Numeral(q.chainId, Dec), Dec) == q.chainId;
  }

  function PayloadText(p: Payload): Result<string, Unsupported> {
    StrictText(VObject(BodyFields(p)))
  }

  /** One canonical body text, one payload. */
  lemma PayloadTextInjective(p: Payload, q: Payload)
    ensures PayloadText(p).Ok? && PayloadText(q).Ok?
    ensures PayloadText(p) == PayloadText(q) <==> p == q
  {
    hide BodyFields, BodyMeaning, StrictFields, ProperFields, CanonicalText, MeaningOfFields;
    BodyIsTree(p);
    BodyIsTree(q);
    BodyProper(p);
    BodyProper(q);
    if PayloadText(p) == PayloadText(q) {
      StrictTextIsNormalForm(VObject(BodyFields(p)), VObject(BodyFields(q)));
      BodyMeaningUnfolds(p);
      BodyMeaningUnfolds(q);
      SameBodyMeaning(p, q);
    }
  }

  lemma BodyMeaningUnfolds(p: Payload)
    ensures StrictTree(VObject(BodyFields(p))).Ok?
    ensures MeaningOf(StrictTree(VObject(BodyFields(p))).value) == MObj(BodyMeaning(p))
  {
    hide BodyFields, StrictFields, MeaningOfFields;
    BodyIsTree(p);
  }

  /** The payload of a prepared call. */
  function PayloadOf(call: ContractCall): Payload
    requires Preparable(call) && StrictText(call.abi).Ok? && CanonicalGas(call.gasLimitMultiplier).Ok?
  {
    Payload(Lower(call.contractAddress), call.chainId, Trim(call.functionName), StrictText(VArray(call.functionArgs)).value,
            StrictText(call.abi).value, CanonicalDecimal(call.value.GetOr("0")).value,
            CanonicalGas(call.gasLimitMultiplier).value)
  }

  lemma PreparedPayload(hash: Hash, call: ContractCall, policy: Policy)
    requires PrepareContractCall(hash, call, policy).Ok?
    ensures Preparable(call) && StrictText(call.abi).Ok? && CanonicalGas(call.gasLimitMultiplier).Ok?
    ensures PayloadText(PayloadOf(call)).Ok?
    ensures PrepareContractCall(hash, call, policy).value.payloadHash == "sha256:" + hash(PayloadText(PayloadOf(call)).value)
    ensures PrepareContractCall(hash, call, policy).value.body == VObject(BodyFields(PayloadOf(call)))
  {
    hide Trim, NativeValue, StrictText, EscapeTaskId, Located, IsHexOfLength, CanonicalDecimal, IsAddress,
         FindCallRule, ValidateAbi, AmountWithin, TokenMatches, Join, CanonicalGas, Numeral;
    var target, name, selector := Lower(call.contractAddress), Trim(call.functionName), Lower(call.functionSelector);
    var rule := FindCallRule(policy.contractCalls, call.chainId, target, name, selector).value;
    NativeIsCanonical(call.value, rule.maxNativeValueWei);
  }

  /** A payload hash stands for the whole body: two prepared calls share it exactly when their bodies agree in every field. */
  lemma PayloadHashBinds(hash: Hash, a: ContractCall, p: Policy, b: ContractCall, q: Policy)
    requires CollisionFree(hash) && PrepareContractCall(hash, a, p).Ok? && PrepareContractCall(hash, b, q).Ok?
    ensures Preparable(a) && StrictText(a.abi).Ok? && CanonicalGas(a.gasLimitMultiplier).Ok?
    ensures Preparable(b) && StrictText(b.abi).Ok? && CanonicalGas(b.gasLimitMultiplier).Ok?
    ensures PrepareContractCall(hash, a, p).value.payloadHash == PrepareContractCall(hash, b, q).value.payloadHash
            <==> PayloadOf(a) == PayloadOf(b)
  {
    hide PrepareContractCall, Preparable, StrictText, CanonicalGas, AllDigits, PayloadText, PayloadOf;
    PreparedPayload(hash, a, p);
    PreparedPayload(hash, b, q);
    var x, y := PayloadText(PayloadOf(a)).value, PayloadText(PayloadOf(b)).value;
    assert ("sha256:" + hash(x))[7..] == hash(x) && ("sha256:" + hash(y))[7..] == hash(y);
    PayloadTextInjective(PayloadOf(a), PayloadOf(b));
  }

  // Simulation and broadcast

  datatype Simulation = Simulation(payloadHash: string, approved: bool)

  /** The gate in front of a broadcast: prepare again and compare with the simulation. */
  function BroadcastGate(hash: Hash, call: ContractCall, policy: Policy, s: Simulation): Option<Prepared> {
    match PrepareContractCall(hash, call, policy)
    case Err(_) => None
    case Ok(p) => if s.approved && s.payloadHash == p.payloadHash then Some(p) else None
  }

  /** A simulation approves exactly the payload it ran: what is broadcast after it agrees with it in every field. */
  lemma BroadcastIsSimulated(hash: Hash, a: ContractCall, p: Policy, approved: bool, b: ContractCall, q: Policy)
    requires CollisionFree(hash) && PrepareContractCall(hash, a, p).Ok? && PrepareContractCall(hash, b, q).Ok?
    ensures Preparable(a) && StrictText(a.abi).Ok? && CanonicalGas(a.gasLimitMultiplier).Ok?
    ensures Preparable(b) && StrictText(b.abi).Ok? && CanonicalGas(b.gasLimitMultiplier).Ok?
    ensures var s := Simulation(PrepareContractCall(hash, a, p).value.payloadHash, approved);
      BroadcastGate(hash, b, q, s).Some? <==> approved && PayloadOf(a) == PayloadOf(b)
  {
    hide PrepareContractCall, Preparable, StrictText, CanonicalGas, AllDigits, PayloadOf;
    PayloadHashBinds(hash, a, p, b, q);
  }
}
