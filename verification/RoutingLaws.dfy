/** When the validator accepts, in terms a caller can check before the call: no premise mentions a result of the
    validator (packages/olas-contracts/src/calldata.ts). */
module RoutingLaws {
  import opened Results
  import opened Text
  import opened Numerals
  import opened Manifest
  import opened ManifestLaws
  import opened Calldata
  import opened CalldataProofs
  import opened CalldataLaws
  import Abi = AbiEncoding

  /** The address is that of the manifest's contract with this id. */
  predicate Targets(m: Content, target: string, id: ContractId) {
    IsAddress(target) && exists c | c in m.contracts :: c.id == id && Lower(c.address) == Lower(target)
  }

  /** The chain, the target, the selector and the native value fit a rule of the manifest. */
  predicate Routable(input: Input, m: Content, rule: AllowedCall) {
    && input.chainId == m.chainId
    && IsHexData(input.data) && |input.data| >= 10 && |input.data| % 2 == 0
    && Targets(m, input.target, rule.contractId)
    && rule in m.allowedCalls && Lower(rule.selector) == Lower(input.data)[..10]
    && IsUnsigned(input.nativeValueWei) && IsUnsigned(rule.maxNativeValueWei)
    && Value(input.nativeValueWei, Dec) <= Value(rule.maxNativeValueWei, Dec)
  }

  lemma RouteIsRoutable(input: Input, m: Content)
    requires Route(input, m).Ok?
    ensures Routable(input, m, Route(input, m).value)
  {
    hide IsHexData, IsAddress, AllDigits, ContractForTarget, RuleForSelector;
    var c, k := RouteFacts(input, m);
    assert m.contracts[c] in m.contracts;
  }

  lemma RoutableIsRoute(input: Input, m: Content, rule: AllowedCall)
    requires DistinctContracts(m.contracts) && DistinctCalls(m.allowedCalls) && Routable(input, m, rule)
    ensures Route(input, m) == Ok(rule)
  {
    hide IsHexData, IsAddress, AllDigits, ContractForTarget, RuleForSelector, DistinctContracts, DistinctCalls;
    var contract :| contract in m.contracts && contract.id == rule.contractId && Lower(contract.address) == Lower(input.target);
    var c :| 0 <= c < |m.contracts| && m.contracts[c] == contract;
    var k :| 0 <= k < |m.allowedCalls| && m.allowedCalls[k] == rule;
    LowerSlice(input.data, 0, 10);
    LowerIdempotent(input.data[..10]);
    TargetLookup(m, input.target, c);
    SelectorLookup(m, Lower(input.data[..10]), k);
  }

  /** Routing under a valid manifest, exactly: the rule is the one that fits. */
  lemma RouteIff(input: Input, m: Content, rule: AllowedCall, selectorOf: string -> string)
    requires ValidContent(m, selectorOf)
    ensures Route(input, m) == Ok(rule) <==> Routable(input, m, rule)
  {
    hide Route, Routable, CallsOk, DistinctContracts, DistinctCalls;
    if Route(input, m) == Ok(rule) {
      RouteIsRoutable(input, m);
    } else if Routable(input, m, rule) {
      RoutableIsRoute(input, m, rule);
    }
  }

  /** The validator takes the input for this call. */
  predicate Accepted(c: Call, input: Input, m: Content)
    requires WellFormed(c)
  {
    ValidateCalldata(input, m).Ok? && ValidateCalldata(input, m).value.call == Normalize(c)
  }

  /** The input fits the rule, the call is within the rule's bounds, and the calldata is the call's encoding. */
  predicate Admits(rule: AllowedCall, c: Call, input: Input, m: Content)
    requires WellFormed(c)
  {
    rule.id == IdOf(c) && Routable(input, m, rule) && InBounds(c, rule, input) && Carries(input.data, c)
  }

  /** Round trip under a valid manifest: an encoded call within the bounds of the rule that fits validates to that
      call, with lower-case hex and canonical decimal amounts. */
  lemma EncodedIsAccepted(c: Call, input: Input, m: Content, rule: AllowedCall, selectorOf: string -> string)
    requires ValidContent(m, selectorOf) && WellFormed(c) && |input.data| <= MAX_SAFE_INTEGER && Admits(rule, c, input, m)
    ensures ValidateCalldata(input, m) == Ok(Decoded(Normalize(c), rule.signature, rule.selector))
  {
    hide Route, Routable, ValidContent, InBounds, Carries, ValidateCalldata, Normalize, WellFormed;
    RouteIff(input, m, rule, selectorOf);
    RoutedIsAccepted(c, input, m);
  }

  /** Acceptance under a valid manifest, exactly: an input validates to a call if and only if a rule of the manifest
      admits the call, which a caller can check beforehand. */
  lemma AcceptanceIff(c: Call, input: Input, m: Content, selectorOf: string -> string)
    requires ValidContent(m, selectorOf) && WellFormed(c) && |input.data| <= MAX_SAFE_INTEGER
    ensures Accepted(c, input, m) <==> exists rule | rule in m.allowedCalls :: Admits(rule, c, input, m)
  {
    hide Route, Routable, ValidContent, InBounds, Carries, ValidateCalldata, Normalize, WellFormed;
    if Accepted(c, input, m) {
      AcceptedRule(c, input, m, selectorOf);
    }
    if rule :| rule in m.allowedCalls && Admits(rule, c, input, m) {
      EncodedIsAccepted(c, input, m, rule, selectorOf);
    }
  }

  lemma AcceptedRule(c: Call, input: Input, m: Content, selectorOf: string -> string)
    requires ValidContent(m, selectorOf) && WellFormed(c) && |input.data| <= MAX_SAFE_INTEGER && Accepted(c, input, m)
    ensures Route(input, m).Ok? && Route(input, m).value in m.allowedCalls && Admits(Route(input, m).value, c, input, m)
  {
    hide Route, ValidContent, InBounds, Carries, ValidateCalldata, IsHexData, AllDigits, IsAddress, EncodeAllowedCall;
    AcceptedIsCanonical(input, m);
    RouteIsRoutable(input, m);
    RoutedAcceptance(c, input, m);
  }

  // The active manifest

  function RuleOf(id: CallId): AllowedCall {
    match id
    case OLAS_REQUEST => REQUEST_RULE
    case USDC_APPROVE => APPROVE_RULE
    case AAVE_SUPPLY => SUPPLY_RULE
  }

  function AddressOf(id: CallId): string {
    match id
    case OLAS_REQUEST => MARKETPLACE_ADDRESS
    case USDC_APPROVE => USDC_ADDRESS
    case AAVE_SUPPLY => AAVE_POOL_ADDRESS
  }

  /** On Base: right chain and target, no native value, within the bounds, and exactly the call's encoding. */
  predicate FitsBase(c: Call, input: Input)
    requires WellFormed(c)
  {
    && input.chainId == 8453 && IsAddress(input.target) && Lower(input.target) == AddressOf(IdOf(c))
    && IsUnsigned(input.nativeValueWei) && Value(input.nativeValueWei, Dec) == 0
    && IsHexData(input.data) && EncodeAllowedCall(c) == Ok(Lower(input.data))
    && InBounds(c, RuleOf(IdOf(c)), input)
  }

  /** The bounds of the active manifest, in numbers: a request for at most one USDC, 8,192 bytes and a response within one
      to five minutes, from an approved Mech; an approval of at most one USDC for the payment tracker or 10,000 USDC for the
      lending pool; a supply of at most 10,000 USDC for the expected wallet, without referral. */
  lemma BaseLimits(c: Call, input: Input)
    requires WellFormed(c)
    ensures InBounds(c, RuleOf(IdOf(c)), input) <==>
      match c
      case OlasRequest(data, rate, paymentType, mech, timeout, paymentData) =>
        && 1 <= (|data| - 2) / 2 <= 8_192 && Value(rate, Dec) <= 1_000_000 && Lower(paymentType) == "0x" + USDC_PAYMENT_TYPE
        && 60 <= timeout <= 300 && |paymentData| == 2 && Approved(mech, input.allowedPriorityMechs)
      case UsdcApprove(spender, amount) =>
        || (Lower(spender) == TRACKER_ADDRESS && Value(amount, Dec) <= 1_000_000)
        || (Lower(spender) == AAVE_POOL_ADDRESS && Value(amount, Dec) <= 10_000_000_000)
      case AaveSupply(asset, amount, wallet, code) =>
        && Lower(asset) == USDC_ADDRESS && Value(amount, Dec) <= 10_000_000_000 && code == 0
        && input.expectedWallet.Some? && IsAddress(input.expectedWallet.value)
        && Lower(wallet) == Lower(input.expectedWallet.value)
  {
    hide IsAddress, IsHexData, AllDigits, Value, Abi.FitsWord, Lower, Approved;
    match c
    case OlasRequest(_, _, _, _, _, _) => RequestLimits(c, input);
    case UsdcApprove(_, _) => ApproveLimits(c, input);
    case AaveSupply(_, _, _, _) => SupplyLimits(c, input);
  }

  lemma RequestLimits(c: Call, input: Input)
    requires WellFormed(c) && c.OlasRequest?
    ensures InBounds(c, RuleOf(OLAS_REQUEST), input) <==>
      && 1 <= (|c.requestData| - 2) / 2 <= 8_192 && Value(c.maxDeliveryRate, Dec) <= 1_000_000
      && Lower(c.paymentType) == "0x" + USDC_PAYMENT_TYPE
      && 60 <= c.responseTimeout <= 300 && |c.paymentData| == 2 && Approved(c.priorityMech, input.allowedPriorityMechs)
  {
    hide IsAddress, IsHexData, AllDigits, Value, Abi.FitsWord, Lower, Approved;
    ActiveCaps();
    ActivePaymentType();
    if Value(c.maxDeliveryRate, Dec) <= 1_000_000 {
      SafeFits(Value(c.maxDeliveryRate, Dec));
    }
  }

  lemma ApproveLimits(c: Call, input: Input)
    requires WellFormed(c) && c.UsdcApprove?
    ensures InBounds(c, RuleOf(USDC_APPROVE), input) <==>
      || (Lower(c.spender) == TRACKER_ADDRESS && Value(c.amount, Dec) <= 1_000_000)
      || (Lower(c.spender) == AAVE_POOL_ADDRESS && Value(c.amount, Dec) <= 10_000_000_000)
  {
    hide IsAddress, IsHexData, AllDigits, Value, Abi.FitsWord;
    ActiveCaps();
    SpenderCaps(Lower(c.spender));
    if Value(c.amount, Dec) <= 10_000_000_000 {
      SafeFits(Value(c.amount, Dec));
    }
  }

  lemma SpenderCaps(spender: string)
    ensures SpenderCap(APPROVE_RULE.constraint, spender) ==
      if spender == TRACKER_ADDRESS then Some("1000000")
      else if spender == AAVE_POOL_ADDRESS then Some("10000000000") else None
    ensures TRACKER_ADDRESS != AAVE_POOL_ADDRESS
  {
    hide AllDigits, IsAddress, Lower;
    TrackerAddress();
    AaveAddress();
    var spenders := APPROVE_RULE.constraint.spenders;
    var second := spenders[1..];
    assert second == [Spender(AAVE_POOL_ADDRESS, "10000000000")] && second[1..] == [];
    assert FindSpender(second, spender) == if spender == AAVE_POOL_ADDRESS then Some("10000000000") else FindSpender([], spender);
    assert TRACKER_ADDRESS[2] != AAVE_POOL_ADDRESS[2];
  }

  lemma SupplyLimits(c: Call, input: Input)
    requires WellFormed(c) && c.AaveSupply?
    ensures InBounds(c, RuleOf(AAVE_SUPPLY), input) <==>
      && Lower(c.asset) == USDC_ADDRESS && Value(c.amount, Dec) <= 10_000_000_000 && c.referralCode == 0
      && input.expectedWallet.Some? && IsAddress(input.expectedWallet.value)
      && Lower(c.onBehalfOf) == Lower(input.expectedWallet.value)
  {
    hide IsAddress, IsHexData, AllDigits, Value, Abi.FitsWord, Lower;
    ActiveCaps();
    UsdcAddress();
    if Value(c.amount, Dec) <= 10_000_000_000 {
      SafeFits(Value(c.amount, Dec));
    }
  }

  lemma ActiveRule(input: Input)
    requires Route(input, BASE_MANIFEST).Ok?
    ensures var rule := Route(input, BASE_MANIFEST).value;
      rule == REQUEST_RULE || rule == APPROVE_RULE || rule == SUPPLY_RULE
  {
    var c, k := RouteFacts(input, BASE_MANIFEST);
  }

  /** On Base, accepted calldata is in full the canonical encoding of the call it decodes to. */
  lemma AcceptedOnBase(input: Input)
    requires ValidateCalldata(input, BASE_MANIFEST).Ok?
    ensures EncodeAllowedCall(ValidateCalldata(input, BASE_MANIFEST).value.call) == Ok(Lower(input.data))
  {
    hide ValidateCalldata, InBounds, Normalize, EncodeAllowedCall, Route;
    AcceptedIsCanonical(input, BASE_MANIFEST);
    ActiveRule(input);
    ActiveSelectors();
    var c := ValidateCalldata(input, BASE_MANIFEST).value.call;
    EncodedShape(c);
    EncodersFollowAbi(c);
    var e := EncodeAllowedCall(c).value;
    assert e == e[..10] + e[10..];
  }

  /** A supply is never accepted without an expected wallet, under any manifest. */
  lemma SupplyNeedsWallet(input: Input, m: Content)
    requires ValidateCalldata(input, m).Ok? && input.expectedWallet.None?
    ensures !ValidateCalldata(input, m).value.call.AaveSupply?
  {
    hide ValidateCalldata, Normalize, EncodeAllowedCall, Route;
    AcceptedIsCanonical(input, m);
  }

  lemma BaseRules(rule: AllowedCall)
    requires rule in BASE_MANIFEST.allowedCalls
    ensures rule == RuleOf(rule.id) && rule.maxNativeValueWei == "0"
  {
    assert BASE_MANIFEST.allowedCalls == [REQUEST_RULE, APPROVE_RULE, SUPPLY_RULE];
  }

  lemma BaseRule(id: CallId)
    ensures RuleOf(id) in BASE_MANIFEST.allowedCalls && RuleOf(id).id == id && RuleOf(id).selector == SelectorOf(id)
    ensures Lower(RuleOf(id).selector) == RuleOf(id).selector
  {
    var calls := BASE_MANIFEST.allowedCalls;
    assert calls[0] == REQUEST_RULE && calls[1] == APPROVE_RULE && calls[2] == SUPPLY_RULE;
    ActiveSelectors();
  }

  /** The contract of a rule of the active manifest is the one at the rule's address. */
  lemma BaseTargets(target: string, id: CallId)
    ensures Targets(BASE_MANIFEST, target, RuleOf(id).contractId) <==> IsAddress(target) && Lower(target) == AddressOf(id)
  {
    hide IsAddress, Lower;
    UsdcAddress();
    MarketplaceAddress();
    AaveAddress();
    var cs := BASE_MANIFEST.contracts;
    assert cs == [MARKETPLACE_CONTRACT, USDC_CONTRACT, AAVE_CONTRACT, TRACKER_CONTRACT];
    assert cs[0] in cs && cs[1] in cs && cs[2] in cs;
  }

  lemma EncodingRoutes(c: Call, data: string)
    requires WellFormed(c) && IsHexData(data) && EncodeAllowedCall(c) == Ok(Lower(data))
    ensures |data| >= 10 && |data| % 2 == 0 && Lower(data)[..10] == SelectorOf(IdOf(c)) && Carries(data, c)
  {
    hide EncodeAllowedCall, WellFormed, IsHexData, AllDigits, Abi.AbiEncode, AbiValues, SelectorOf, Lower;
    EncodedShape(c);
    EncodersFollowAbi(c);
    SelectorWidth(IdOf(c));
    assert |Lower(data)| == |data|;
  }

  lemma SelectorWidth(id: CallId)
    ensures |SelectorOf(id)| == 10
  {
  }

  lemma FitsIsAdmitted(c: Call, input: Input)
    requires WellFormed(c) && FitsBase(c, input)
    ensures Admits(RuleOf(IdOf(c)), c, input, BASE_MANIFEST)
  {
    hide EncodeAllowedCall, WellFormed, InBounds, IsHexData, AllDigits, IsAddress, Carries, Targets, Lower;
    EncodingRoutes(c, input.data);
    BaseRule(IdOf(c));
    BaseRules(RuleOf(IdOf(c)));
    BaseTargets(input.target, IdOf(c));
    ActiveCaps();
  }

  lemma AdmittedFits(c: Call, input: Input)
    requires WellFormed(c) && Accepted(c, input, BASE_MANIFEST) && |input.data| <= MAX_SAFE_INTEGER
    ensures FitsBase(c, input)
  {
    hide EncodeAllowedCall, WellFormed, InBounds, IsHexData, AllDigits, IsAddress, Carries, Targets, Lower, ValidateCalldata,
         ValidContent, Route, Normalize;
    GivenSelectors();
    ManifestsAreValid(GivenSelector);
    AcceptanceIff(c, input, BASE_MANIFEST, GivenSelector);
    var rule :| rule in BASE_MANIFEST.allowedCalls && Admits(rule, c, input, BASE_MANIFEST);
    BaseRules(rule);
    BaseTargets(input.target, IdOf(c));
    ActiveCaps();
    AcceptedOnBase(input);
    NormalizedEncoding(c);
  }

  /** Acceptance under the active manifest, exactly, for all three kinds of call. */
  lemma AcceptanceOnBaseIff(c: Call, input: Input)
    requires WellFormed(c) && |input.data| <= MAX_SAFE_INTEGER
    ensures Accepted(c, input, BASE_MANIFEST) <==> FitsBase(c, input)
    ensures var rule := RuleOf(IdOf(c));
      FitsBase(c, input) ==>
        ValidateCalldata(input, BASE_MANIFEST) == Ok(Decoded(Normalize(c), rule.signature, rule.selector))
  {
    hide WellFormed, ValidateCalldata, ValidContent, FitsBase, Admits, Normalize;
    if Accepted(c, input, BASE_MANIFEST) {
      AdmittedFits(c, input);
    }
    if FitsBase(c, input) {
      GivenSelectors();
      ManifestsAreValid(GivenSelector);
      FitsIsAdmitted(c, input);
      EncodedIsAccepted(c, input, BASE_MANIFEST, RuleOf(IdOf(c)), GivenSelector);
    }
  }

  // The manifest before it

  /** The input of an approval on USDC. */
  function ApprovalInput(data: string): Input {
    Input(8453, USDC_ADDRESS, data, "0", None, None)
  }

  /** Under the first version of the manifest, whose approval rule names the lending pool, the approval of any address
      up to the pool's cap is accepted. */
  lemma V1AcceptsAnySpender(spender: string, amount: string)
    requires IsAddress(spender) && IsUnsigned(amount) && Value(amount, Dec) <= 10_000_000_000
    ensures EncodeAllowedCall(UsdcApprove(spender, amount)).Ok?
    ensures Accepted(UsdcApprove(spender, amount), ApprovalInput(EncodeAllowedCall(UsdcApprove(spender, amount)).value), V1_MANIFEST)
  {
    hide ValidContent, EncodeAllowedCall, IsAddress, AllDigits, ValidateCalldata, Normalize, Admits, IsHexData;
    var c := UsdcApprove(spender, amount);
    V1Encodes(spender, amount);
    GivenSelectors();
    ManifestsAreValid(GivenSelector);
    V1Admits(c);
    EncodedIsAccepted(c, ApprovalInput(EncodeAllowedCall(c).value), V1_MANIFEST, V1_APPROVE_RULE, GivenSelector);
  }

  lemma V1Encodes(spender: string, amount: string)
    requires IsAddress(spender) && IsUnsigned(amount) && Value(amount, Dec) <= 10_000_000_000
    ensures Abi.FitsWord(Value(amount, Dec)) && EncodeAllowedCall(UsdcApprove(spender, amount)).Ok?
    ensures |EncodeAllowedCall(UsdcApprove(spender, amount)).value| == 138
  {
    hide Abi.FitsWord, Abi.Word, IsAddress, AllDigits, EncodeApprove, Concat, ApproveWords;
    SafeFits(Value(amount, Dec));
    ApproveLayout(spender, amount);
    ApproveWordsWide(spender, amount);
  }

  lemma V1Admits(c: Call)
    requires c.UsdcApprove? && WellFormed(c) && Value(c.amount, Dec) <= 10_000_000_000
    requires Abi.FitsWord(Value(c.amount, Dec)) && EncodeAllowedCall(c).Ok?
    ensures Admits(V1_APPROVE_RULE, c, ApprovalInput(EncodeAllowedCall(c).value), V1_MANIFEST)
  {
    hide EncodeAllowedCall, IsAddress, AllDigits, IsHexData, Abi.FitsWord, Carries, Targets, Value;
    var data := EncodeAllowedCall(c).value;
    EncodedShape(c);
    EncodingRoutes(c, data);
    ActiveCaps();
    ActiveSelectors();
    V1Targets();
    var calls := V1_MANIFEST.allowedCalls;
    assert calls[1] == V1_APPROVE_RULE;
  }

  lemma V1Targets()
    ensures Targets(V1_MANIFEST, USDC_ADDRESS, USDC)
  {
    hide IsAddress, Lower;
    UsdcAddress();
    var cs := V1_MANIFEST.contracts;
    assert cs[1] == USDC_CONTRACT;
  }

  /** One such address: the rule does not name it, and its approval is accepted. */
  lemma V1AcceptsUnnamedSpender()
    ensures var s := "0x" + Zeros(40);
      && IsAddress(s) && !Named(V1_APPROVE_RULE.constraint, Lower(s))
      && IsUnsigned("10000000000") && EncodeAllowedCall(UsdcApprove(s, "10000000000")).Ok?
      && Accepted(UsdcApprove(s, "10000000000"), ApprovalInput(EncodeAllowedCall(UsdcApprove(s, "10000000000")).value), V1_MANIFEST)
  {
    hide Accepted, EncodeAllowedCall, Lower, IsAddress, AllDigits, Value;
    TwoAddresses();
    ActiveCaps();
    AaveAddress();
    assert AAVE_POOL_ADDRESS[2] == 'a';
    V1AcceptsAnySpender("0x" + Zeros(40), "10000000000");
  }
}
