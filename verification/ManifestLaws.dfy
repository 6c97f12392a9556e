/** Lookups in a validated manifest are unambiguous, and the manifests of Base are valid. */
module ManifestLaws {
  import opened Results
  import opened Text
  import opened Numerals
  import opened Lists
  import opened Manifest
  import opened Calldata

  /** In a valid manifest a target lookup fails only when no contract has the address. */
  lemma TargetLookup(m: Content, target: string, i: nat)
    requires DistinctContracts(m.contracts) && IsAddress(target)
    requires i < |m.contracts| && Lower(m.contracts[i].address) == Lower(target)
    ensures ContractForTarget(m, target) == Ok(m.contracts[i])
  {
    hide IsAddress, AllDigits, ContractOk, CallsOk, DistinctCalls;
    FilterOne((c: Contract) => Lower(c.address) == Lower(target), m.contracts, i);
  }

  /** In a valid manifest a selector lookup fails only when the contract has no such call. */
  lemma SelectorLookup(m: Content, selector: string, i: nat)
    requires DistinctCalls(m.allowedCalls)
    requires i < |m.allowedCalls| && Lower(m.allowedCalls[i].selector) == Lower(selector)
    ensures RuleForSelector(m, m.allowedCalls[i].contractId, selector) == Ok(m.allowedCalls[i])
  {
    hide IsAddress, AllDigits, ContractOk, CallsOk, DistinctContracts;
    var id := m.allowedCalls[i].contractId;
    FilterOne((c: AllowedCall) => c.contractId == id && Lower(c.selector) == Lower(selector), m.allowedCalls, i);
  }

  /** A code hash is the name of the digest and 32 bytes in lower-case hexadecimal digits. */
  lemma HashIff(s: string)
    ensures IsHash(s) <==> exists digits: string :: |digits| == 64 && AllDigits(digits, Hex) && IsLower(digits) && s == "sha256:" + digits
  {
    hide AllDigits, IsLower;
    if IsHash(s) {
      assert s == "sha256:" + s[7..];
    }
    if digits: string :| |digits| == 64 && AllDigits(digits, Hex) && IsLower(digits) && s == "sha256:" + digits {
      assert s[..7] == "sha256:" && s[7..] == digits;
    }
  }

  /** In a valid manifest every contract pins its code, and every bounded spender has an address of its own and a positive
      bound. */
  lemma ValidPins(m: Content, selectorOf: string -> string)
    requires ValidContent(m, selectorOf)
    ensures forall c | c in m.contracts ::
      && IsAddress(Lower(c.address)) && IsHash(c.runtimeCode)
      && (c.proxy.CallProxy? ==> IsAddress(c.proxy.implementation) && IsHash(c.proxy.implementationCode)
                                 && c.proxy.resolver.Some? && IsHexOfLength(c.proxy.resolver.value, 8))
      && (c.proxy.Eip1967? ==> IsAddress(c.proxy.implementation) && IsHash(c.proxy.implementationCode)
                               && c.proxy.storageSlot.Some? && IsHexOfLength(c.proxy.storageSlot.value, 64))
    ensures forall call | call in m.allowedCalls && call.constraint.UsdcApproveBoundedSpenders? ::
      call.constraint.spenders != [] && forall s | s in call.constraint.spenders ::
        IsAddress(Lower(s.address)) && IsUnsigned(s.maxAmountBaseUnits) && Value(s.maxAmountBaseUnits, Dec) >= 1
  {
    hide IsAddress, IsHash, IsHexOfLength, AllDigits, Value, Lower, DistinctContracts, DistinctCalls;
  }

  predicate LowerHexChar(c: char) {
    '0' <= c <= '9' || 'a' <= c <= 'f'
  }

  lemma HexLiteral(s: string)
    requires forall c :: c in s ==> LowerHexChar(c)
    ensures AllDigits(s, Hex) && IsLower(s) && IsHexData("0x" + s) && IsLower("0x" + s) && Lower("0x" + s) == "0x" + s
    ensures |s| == 64 ==> IsHash("sha256:" + s)
  {
    forall i | 0 <= i < |s| ensures IsDigit(s[i], Hex) && LowerChar(s[i]) == s[i] {
      assert s[i] in s;
    }
    assert ("0x" + s)[2..] == s;
    assert ("sha256:" + s)[7..] == s && ("sha256:" + s)[..7] == "sha256:";
    LowerOfLower("0x" + s);
  }

  lemma UsdcAddress()
    ensures IsAddress(USDC_ADDRESS) && Lower(USDC_ADDRESS) == USDC_ADDRESS
  {
    hide AllDigits, IsLower, IsHash;
    HexLiteral("833589fcd6edb6e08f4c7c32d4f71b54bda02913");
  }

  lemma MarketplaceAddress()
    ensures IsAddress(MARKETPLACE_ADDRESS) && Lower(MARKETPLACE_ADDRESS) == MARKETPLACE_ADDRESS
  {
    hide AllDigits, IsLower, IsHash;
    HexLiteral("f24ee42eda0fc9b33b7d41b06ee8ccd2ef7c5020");
  }

  lemma ActiveAddresses()
    ensures IsAddress(USDC_ADDRESS) && Lower(USDC_ADDRESS) == USDC_ADDRESS
    ensures IsAddress(MARKETPLACE_ADDRESS) && Lower(MARKETPLACE_ADDRESS) == MARKETPLACE_ADDRESS
  {
    hide IsAddress, Lower;
    UsdcAddress();
    MarketplaceAddress();
  }

  lemma TrackerAddress()
    ensures IsAddress(TRACKER_ADDRESS) && Lower(TRACKER_ADDRESS) == TRACKER_ADDRESS
  {
    hide AllDigits, IsLower, IsHash;
    HexLiteral("0443c55e151dba13fae079518f9dd01ff9c21cb2");
  }

  lemma ActiveSelectors()
    ensures Lower(REQUEST_SELECTOR) == REQUEST_SELECTOR && Lower(APPROVE_SELECTOR) == APPROVE_SELECTOR
    ensures Lower(SUPPLY_SELECTOR) == SUPPLY_SELECTOR
  {
    hide AllDigits, IsLower, IsHash;
    HexLiteral("f6938b09");
    HexLiteral("095ea7b3");
    HexLiteral("617ba037");
  }

  lemma ActivePaymentType()
    ensures AllDigits(USDC_PAYMENT_TYPE, Hex) && IsHexOfLength("0x" + USDC_PAYMENT_TYPE, 64)
    ensures Lower("0x" + USDC_PAYMENT_TYPE) == "0x" + USDC_PAYMENT_TYPE
  {
    hide IsHash;
    var a, b := "6406bb5f31a732f898e1ce9fdd988a80", "a808d36ab5d9a4a4805a8be8d197d5e3";
    assert USDC_PAYMENT_TYPE == a + b;
    HexLiteral(a + b);
  }

  lemma DistinctActiveAddresses()
    ensures Lower(MARKETPLACE_ADDRESS) != Lower(USDC_ADDRESS) && Lower(MARKETPLACE_ADDRESS) != Lower(AAVE_POOL_ADDRESS)
    ensures Lower(MARKETPLACE_ADDRESS) != Lower(TRACKER_ADDRESS) && Lower(USDC_ADDRESS) != Lower(AAVE_POOL_ADDRESS)
    ensures Lower(USDC_ADDRESS) != Lower(TRACKER_ADDRESS) && Lower(AAVE_POOL_ADDRESS) != Lower(TRACKER_ADDRESS)
  {
    assert Lower(MARKETPLACE_ADDRESS)[2] == 'f' && Lower(USDC_ADDRESS)[2] == '8';
    assert Lower(AAVE_POOL_ADDRESS)[2] == 'a' && Lower(TRACKER_ADDRESS)[2] == '0';
  }

  /** Numerals of the caps of the active manifest. */
  lemma ActiveCaps()
    ensures IsUnsigned("0") && Value("0", Dec) == 0
    ensures IsUnsigned("1000000") && Value("1000000", Dec) == 1000000
    ensures IsUnsigned("10000000000") && Value("10000000000", Dec) == 10000000000
  {
    TrailingZeros("1", 6);
    TrailingZeros("1", 10);
    assert "1" + Zeros(6) == "1000000" && "1" + Zeros(10) == "10000000000";
    assert "0"[..0] == "" && "1"[..0] == "";
    assert Scaled(Dec, 1, 5) == 100000;
    assert Scaled(Dec, 1, 10) == 10000000000;
  }

  lemma {:induction false} TrailingZeros(s: string, n: nat)
    requires AllDigits(s, Dec)
    ensures AllDigits(s + Zeros(n), Dec) && Value(s + Zeros(n), Dec) == Scaled(Dec, Value(s, Dec), n)
  {
    LeadingZeros(n, "", Dec);
    assert Zeros(n) + "" == Zeros(n);
    ValueConcat(s, Zeros(n), Dec);
  }

  lemma ActiveDistinct()
    ensures DistinctContracts(BASE_MANIFEST.contracts)
  {
    hide Lower;
    DistinctActiveAddresses();
    var cs := BASE_MANIFEST.contracts;
    assert cs[0] == MARKETPLACE_CONTRACT && cs[1] == USDC_CONTRACT && cs[2] == AAVE_CONTRACT && cs[3] == TRACKER_CONTRACT;
  }

  // Both manifests of Base pass the validation

  /** The Keccak selectors of the three signatures. */
  predicate KnowsSelectors(selectorOf: string -> string) {
    && selectorOf(REQUEST_SIGNATURE) == REQUEST_SELECTOR
    && selectorOf(APPROVE_SIGNATURE) == APPROVE_SELECTOR
    && selectorOf(SUPPLY_SIGNATURE) == SUPPLY_SELECTOR
  }

  lemma HexHalves(a: string, b: string)
    requires |a| == 32 && |b| == 32 && (forall c :: c in a ==> LowerHexChar(c)) && (forall c :: c in b ==> LowerHexChar(c))
    ensures IsHash("sha256:" + (a + b)) && IsHexOfLength("0x" + (a + b), 64)
  {
    hide IsHash, AllDigits;
    HexLiteral(a + b);
  }

  lemma AaveAddress()
    ensures IsAddress(AAVE_POOL_ADDRESS) && Lower(AAVE_POOL_ADDRESS) == AAVE_POOL_ADDRESS
  {
    hide AllDigits, IsLower, IsHash;
    HexLiteral("a238dd80c259a72e81d7e4664a9801593f98d1c5");
  }

  lemma MarketplaceCode()
    ensures IsHash(MARKETPLACE_CONTRACT.runtimeCode)
  {
    hide IsHash, IsHexData;
    HexHalves("1833f73532aee9c742d2a7fb0c584cbc", "1daaf2b36d2b0d8261a2f8287a1ead1d");
  }

  lemma MarketplaceProxy()
    ensures ProxyOk(MARKETPLACE_CONTRACT.proxy)
  {
    hide AllDigits, IsLower, IsHash, Lower;
    HexHalves("50383c3b69cc6fe6dd46745ad1669aa4", "ef31ecafd8036df01df5609ac8abab8b");
    MarketplaceImplementation();
    HexLiteral("aaf10f42");
  }

  lemma MarketplaceImplementation()
    ensures IsAddress("0x" + "155547857680a6d51bebc5603397488988deb1c8")
  {
    hide AllDigits, IsLower, IsHash;
    HexLiteral("155547857680a6d51bebc5603397488988deb1c8");
  }

  lemma MarketplaceOk()
    ensures ContractOk(MARKETPLACE_CONTRACT)
  {
    hide IsAddress, IsHash, ProxyOk, Lower;
    MarketplaceAddress();
    MarketplaceCode();
    MarketplaceProxy();
  }

  lemma UsdcCode()
    ensures IsHash(USDC_CONTRACT.runtimeCode)
  {
    hide IsHash, IsHexData;
    HexHalves("98d785fcb1bf847f287adc2310759fd9", "4cc13e754b974bc72131382e8266f607");
  }

  lemma UsdcProxy()
    ensures ProxyOk(USDC_CONTRACT.proxy)
  {
    hide AllDigits, IsLower, IsHash, Lower;
    HexHalves("dcb3b7ca28662970d0a7cdad420e529f", "b837d7bf8a246b1a680c20e153db79e8");
    UsdcImplementation();
    HexLiteral("5c60da1b");
  }

  lemma UsdcImplementation()
    ensures IsAddress("0x" + "2ce6311ddae708829bc0784c967b7d77d19fd779")
  {
    hide AllDigits, IsLower, IsHash;
    HexLiteral("2ce6311ddae708829bc0784c967b7d77d19fd779");
  }

  lemma UsdcOk()
    ensures ContractOk(USDC_CONTRACT)
  {
    hide IsAddress, IsHash, ProxyOk, Lower;
    UsdcAddress();
    UsdcCode();
    UsdcProxy();
  }

  lemma AaveCode()
    ensures IsHash(AAVE_CONTRACT.runtimeCode)
  {
    hide IsHash, IsHexData;
    HexHalves("0ce3fd0250aff7584b77df0ac1f3de5a", "7a732e842d0dd8d67e73836d2c07b685");
  }

  lemma AaveProxy()
    ensures ProxyOk(AAVE_CONTRACT.proxy)
  {
    hide IsHexData, IsHash, Lower;
    AaveImplementationCode();
    AaveImplementation();
    AaveSlot();
  }

  lemma AaveImplementationCode()
    ensures IsHash("sha256:" + ("107cf122b17722d846e4859ddf98aac5" + "81852b4f27ac4506c77d389b62f5621f"))
  {
    hide IsHash, IsHexData;
    HexHalves("107cf122b17722d846e4859ddf98aac5", "81852b4f27ac4506c77d389b62f5621f");
  }

  lemma AaveSlot()
    ensures IsHexOfLength("0x" + ("360894a13ba1a3210667c828492db98d" + "ca3e2076cc3735a920a3ca505d382bbc"), 64)
  {
    hide IsHash, IsHexData;
    HexHalves("360894a13ba1a3210667c828492db98d", "ca3e2076cc3735a920a3ca505d382bbc");
  }

  lemma AaveImplementation()
    ensures IsAddress("0x" + "a4abc5fcba6d0d7e3d144d6dbf6cb6128599dfdb")
  {
    hide AllDigits, IsLower, IsHash;
    HexLiteral("a4abc5fcba6d0d7e3d144d6dbf6cb6128599dfdb");
  }

  lemma AaveOk()
    ensures ContractOk(AAVE_CONTRACT)
  {
    hide IsAddress, IsHash, ProxyOk, Lower;
    AaveAddress();
    AaveCode();
    AaveProxy();
  }

  lemma TrackerCode()
    ensures IsHash(TRACKER_CONTRACT.runtimeCode)
  {
    hide IsHash, IsHexData;
    HexHalves("953ecd1c06d4f50e0ffe60c79ce0ce99", "9237f0d8812f07fd10df5aae5d0e6834");
  }

  lemma TrackerOk()
    ensures ContractOk(TRACKER_CONTRACT)
  {
    hide IsAddress, IsHash, Lower;
    TrackerAddress();
    TrackerCode();
  }

  /** A call whose ABI is its one signature. */
  lemma CallIsOk(call: AllowedCall, contracts: seq<Contract>, i: nat, selectorOf: string -> string)
    requires i < |contracts| && contracts[i].id == call.contractId
    requires call.abi == [call.signature] && selectorOf(call.signature) == Lower(call.selector) && SpendersOk(call.constraint)
    ensures CallOk(call, contracts, selectorOf)
  {
    hide SpendersOk, Lower;
    assert call.abi[0] == call.signature;
  }

  lemma ActiveSpenders()
    ensures SpendersOk(APPROVE_RULE.constraint)
  {
    hide IsAddress, AllDigits, Value, Lower;
    TrackerAddress();
    AaveAddress();
    ActiveCaps();
    DistinctActiveAddresses();
  }

  lemma ActiveSelectorsDiffer()
    ensures Lower(REQUEST_SELECTOR) != Lower(APPROVE_SELECTOR) && Lower(REQUEST_SELECTOR) != Lower(SUPPLY_SELECTOR)
    ensures Lower(APPROVE_SELECTOR) != Lower(SUPPLY_SELECTOR)
  {
    assert Lower(REQUEST_SELECTOR)[2] == 'f' && Lower(APPROVE_SELECTOR)[2] == '0' && Lower(SUPPLY_SELECTOR)[2] == '6';
  }

  lemma ContractsAreOk(cs: seq<Contract>)
    requires cs == BASE_MANIFEST.contracts || cs == V1_MANIFEST.contracts
    ensures DistinctContracts(cs) && forall i :: 0 <= i < |cs| ==> ContractOk(cs[i])
  {
    hide ContractOk, Lower;
    ActiveDistinct();
    MarketplaceOk();
    UsdcOk();
    AaveOk();
    TrackerOk();
    var all := BASE_MANIFEST.contracts;
    assert all == [MARKETPLACE_CONTRACT, USDC_CONTRACT, AAVE_CONTRACT, TRACKER_CONTRACT];
    assert forall i | 0 <= i < |cs| :: cs[i] == all[i];
  }

  lemma CallsAreOk(approve: AllowedCall, cs: seq<Contract>, selectorOf: string -> string)
    requires KnowsSelectors(selectorOf) && (approve == APPROVE_RULE || approve == V1_APPROVE_RULE)
    requires |cs| >= 3 && cs[0].id == OLAS_MARKETPLACE && cs[1].id == USDC && cs[2].id == AAVE_POOL
    ensures var calls := [REQUEST_RULE, approve, SUPPLY_RULE]; CallsOk(calls, cs, selectorOf) && DistinctCalls(calls)
  {
    hide CallOk, SpendersOk, Lower;
    ActiveSelectors();
    ActiveSelectorsDiffer();
    ActiveSpenders();
    OtherSpenders(REQUEST_RULE.constraint);
    OtherSpenders(V1_APPROVE_RULE.constraint);
    OtherSpenders(SUPPLY_RULE.constraint);
    CallIsOk(REQUEST_RULE, cs, 0, selectorOf);
    CallIsOk(approve, cs, 1, selectorOf);
    CallIsOk(SUPPLY_RULE, cs, 2, selectorOf);
  }

  lemma OtherSpenders(c: Constraint)
    requires !c.UsdcApproveBoundedSpenders?
    ensures SpendersOk(c)
  {
  }

  /** The active manifest and the one before it are valid. */
  lemma ManifestsAreValid(selectorOf: string -> string)
    requires KnowsSelectors(selectorOf)
    ensures ValidContent(BASE_MANIFEST, selectorOf) && ValidContent(V1_MANIFEST, selectorOf)
  {
    hide ContractOk, CallsOk, DistinctCalls, DistinctContracts;
    ContractsAreOk(BASE_MANIFEST.contracts);
    ContractsAreOk(V1_MANIFEST.contracts);
    CallsAreOk(APPROVE_RULE, BASE_MANIFEST.contracts, selectorOf);
    CallsAreOk(V1_APPROVE_RULE, V1_MANIFEST.contracts, selectorOf);
  }

  function GivenSelector(signature: string): string {
    if signature == REQUEST_SIGNATURE then REQUEST_SELECTOR
    else if signature == APPROVE_SIGNATURE then APPROVE_SELECTOR
    else SUPPLY_SELECTOR
  }

  lemma GivenSelectors()
    ensures KnowsSelectors(GivenSelector)
  {
    assert |REQUEST_SIGNATURE| == 52 && |APPROVE_SIGNATURE| == 24 && |SUPPLY_SIGNATURE| == 38;
  }
}
