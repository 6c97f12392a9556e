/** Deployment manifests: the allowlist of contracts and calls, its structural validation,
    and the manifest that is active on Base (packages/olas-contracts/src/manifest.ts). */
module Manifest {
  import opened Results
  import opened Text
  import opened Numerals

  datatype ContractId = OLAS_MARKETPLACE | OLAS_USDC_BALANCE_TRACKER | USDC | AAVE_POOL

  datatype CallId = OLAS_REQUEST | USDC_APPROVE | AAVE_SUPPLY

  datatype Proxy =
    | Direct
    | CallProxy(implementation: string, implementationCode: string, resolver: Option<string>)
    | Eip1967(implementation: string, implementationCode: string, storageSlot: Option<string>)

  datatype Contract = Contract(id: ContractId, address: string, runtimeCode: string, proxy: Proxy)

  datatype Spender = Spender(address: string, maxAmountBaseUnits: string)

  datatype Constraint =
    | OlasRequestUsdc(maxDeliveryRateBaseUnits: string, paymentType: string,
                      minResponseTimeoutSeconds: nat, maxResponseTimeoutSeconds: nat, maxRequestBytes: nat)
    | UsdcApproveAave(spender: string, approveCap: string)
    | UsdcApproveBoundedSpenders(spenders: seq<Spender>)
    | AaveSupplyUsdc(asset: string, supplyCap: string, referralCode: nat)

  /** `abi` holds the printed signature of every ABI entry of the call. */
  datatype AllowedCall = AllowedCall(id: CallId, contractId: ContractId, signature: string, selector: string,
                                     abi: seq<string>, maxNativeValueWei: string, constraint: Constraint)

  datatype Content = Content(chainId: int, versionGiven: bool, createdAtFinite: bool,
                             contracts: seq<Contract>, allowedCalls: seq<AllowedCall>)

  datatype Fault = UnsupportedChain | InvalidVersion | MalformedDeployment | DuplicateContract | MalformedProxy
                 | UnknownContract | SelectorMismatch | AmbiguousAbi | InvalidSpenders | AmbiguousCall

  predicate HasHexPrefix(s: string) {
    |s| >= 2 && s[0] == '0' && (s[1] == 'x' || s[1] == 'X')
  }

  /** `/^0x[\da-f]*$/iu` */
  predicate IsHexData(s: string) {
    HasHexPrefix(s) && AllDigits(s[2..], Hex)
  }

  /** `/^0x[\da-f]{n}$/iu` */
  predicate IsHexOfLength(s: string, n: nat) {
    IsHexData(s) && |s| == n + 2
  }

  predicate IsAddress(s: string) {
    IsHexOfLength(s, 40)
  }

  /** The lower-case form of an address, which every reader of addresses uses. */
  function NormalAddress<E>(s: string, otherwise: E): (r: Result<string, E>)
    ensures r.Ok? <==> IsAddress(s)
    ensures r.Ok? ==> r.value == Lower(s)
    ensures r.Err? ==> r.error == otherwise
  {
    if IsAddress(s) then Ok(Lower(s)) else Err(otherwise)
  }

  /** `/^sha256:[\da-f]{64}$/u` */
  predicate IsHash(s: string) {
    |s| == 71 && s[..7] == "sha256:" && AllDigits(s[7..], Hex) && IsLower(s[7..])
  }

  /** `/^\d+$/u` */
  predicate IsUnsigned(s: string) {
    s != "" && AllDigits(s, Dec)
  }

  predicate ProxyOk(p: Proxy) {
    match p
    case Direct => true
    case CallProxy(impl, code, resolver) =>
      IsAddress(impl) && IsHash(code) && resolver.Some? && IsHexOfLength(resolver.value, 8)
    case Eip1967(impl, code, slot) =>
      IsAddress(impl) && IsHash(code) && slot.Some? && IsHexOfLength(slot.value, 64)
  }

  predicate ContractOk(c: Contract) {
    IsAddress(Lower(c.address)) && IsHash(c.runtimeCode) && ProxyOk(c.proxy)
  }

  predicate SpenderOk(s: Spender) {
    IsAddress(Lower(s.address)) && IsUnsigned(s.maxAmountBaseUnits) && Value(s.maxAmountBaseUnits, Dec) > 0
  }

  predicate SpendersOk(c: Constraint) {
    c.UsdcApproveBoundedSpenders? ==>
      && c.spenders != []
      && (forall i :: 0 <= i < |c.spenders| ==> SpenderOk(c.spenders[i]))
      && (forall i, j :: 0 <= i < j < |c.spenders| ==> Lower(c.spenders[i].address) != Lower(c.spenders[j].address))
  }

  predicate OneAbiEntry(call: AllowedCall) {
    exists i :: 0 <= i < |call.abi| && call.abi[i] == call.signature
      && forall j :: 0 <= j < |call.abi| && call.abi[j] == call.signature ==> j == i
  }

  predicate CallOk(call: AllowedCall, contracts: seq<Contract>, selectorOf: string -> string) {
    && (exists i :: 0 <= i < |contracts| && contracts[i].id == call.contractId)
    && selectorOf(call.signature) == Lower(call.selector)
    && OneAbiEntry(call)
    && SpendersOk(call.constraint)
  }

  predicate DistinctContracts(contracts: seq<Contract>) {
    forall i, j :: 0 <= i < j < |contracts| ==>
      contracts[i].id != contracts[j].id && Lower(contracts[i].address) != Lower(contracts[j].address)
  }

  predicate DistinctCalls(calls: seq<AllowedCall>) {
    forall i, j :: 0 <= i < j < |calls| ==>
      calls[i].contractId != calls[j].contractId || Lower(calls[i].selector) != Lower(calls[j].selector)
  }

  /** What a manifest must satisfy; `selectorOf` is the Keccak selector of a signature. */
  predicate ValidContent(m: Content, selectorOf: string -> string) {
    && m.chainId == 8453 && m.versionGiven && m.createdAtFinite
    && (forall i :: 0 <= i < |m.contracts| ==> ContractOk(m.contracts[i]))
    && DistinctContracts(m.contracts)
    && CallsOk(m.allowedCalls, m.contracts, selectorOf)
    && DistinctCalls(m.allowedCalls)
  }

  function IdText(id: ContractId): string {
    match id
    case OLAS_MARKETPLACE => "OLAS_MARKETPLACE"
    case OLAS_USDC_BALANCE_TRACKER => "OLAS_USDC_BALANCE_TRACKER"
    case USDC => "USDC"
    case AAVE_POOL => "AAVE_POOL"
  }

  /** The text by which the validation loop recognises a repeated target and selector pair. */
  function CallKey(call: AllowedCall): string {
    IdText(call.contractId) + ":" + Lower(call.selector)
  }

  lemma CallKeyInjective(a: AllowedCall, b: AllowedCall)
    ensures CallKey(a) == CallKey(b) <==> a.contractId == b.contractId && Lower(a.selector) == Lower(b.selector)
  {
    if CallKey(a) == CallKey(b) {
      var x, y := IdText(a.contractId), IdText(b.contractId);
      assert ':' !in x && ':' !in y;
      SplitUnique(x, Lower(a.selector), y, Lower(b.selector), ':');
      assert |x| == |y| && x[0] == y[0];
    }
  }

  method ValidateSpenders(spenders: seq<Spender>) returns (ok: bool)
    ensures ok <==> SpendersOk(UsdcApproveBoundedSpenders(spenders))
  {
    hide IsAddress, IsUnsigned;
    var seen: set<string> := {};
    for k := 0 to |spenders|
      invariant forall a :: a in seen <==> exists i :: 0 <= i < k && Lower(spenders[i].address) == a
      invariant forall i :: 0 <= i < k ==> SpenderOk(spenders[i])
      invariant forall i, j :: 0 <= i < j < k ==> Lower(spenders[i].address) != Lower(spenders[j].address)
    {
      var address := Lower(spenders[k].address);
      if !SpenderOk(spenders[k]) || address in seen {
        return false;
      }
      seen := seen + {address};
    }
    return spenders != [];
  }

  method ValidateContracts(contracts: seq<Contract>) returns (fault: Option<Fault>, ids: set<ContractId>)
    ensures fault.None? <==> DistinctContracts(contracts) && forall i :: 0 <= i < |contracts| ==> ContractOk(contracts[i])
    ensures fault.None? ==> forall id :: id in ids <==> exists i :: 0 <= i < |contracts| && contracts[i].id == id
  {
    hide IsAddress, IsHash, ProxyOk;
    ids := {};
    var addresses: set<string> := {};
    for k := 0 to |contracts|
      invariant forall id :: id in ids <==> exists i :: 0 <= i < k && contracts[i].id == id
      invariant forall a :: a in addresses <==> exists i :: 0 <= i < k && Lower(contracts[i].address) == a
      invariant forall i :: 0 <= i < k ==> ContractOk(contracts[i])
      invariant forall i, j :: 0 <= i < j < k ==>
        contracts[i].id != contracts[j].id && Lower(contracts[i].address) != Lower(contracts[j].address)
    {
      var c := contracts[k];
      var address := Lower(c.address);
      if !IsAddress(address) || !IsHash(c.runtimeCode) {
        return Some(MalformedDeployment), ids;
      }
      if c.id in ids || address in addresses {
        return Some(DuplicateContract), ids;
      }
      ids := ids + {c.id};
      addresses := addresses + {address};
      if !ProxyOk(c.proxy) {
        return Some(MalformedProxy), ids;
      }
    }
    fault := None;
  }

  method ValidateCall(call: AllowedCall, contracts: seq<Contract>, ids: set<ContractId>,
                      selectorOf: string -> string)
    returns (fault: Option<Fault>)
    requires forall id :: id in ids <==> exists i :: 0 <= i < |contracts| && contracts[i].id == id
    ensures fault.None? <==> CallOk(call, contracts, selectorOf)
    ensures var known := exists i :: 0 <= i < |contracts| && contracts[i].id == call.contractId;
      var selected := selectorOf(call.signature) == Lower(call.selector);
      && (fault == Some(UnknownContract) <==> !known)
      && (fault == Some(SelectorMismatch) <==> known && !selected)
      && (fault == Some(AmbiguousAbi) <==> known && selected && !OneAbiEntry(call))
      && (fault == Some(InvalidSpenders) <==> known && selected && OneAbiEntry(call) && !SpendersOk(call.constraint))
  {
    if call.contractId !in ids {
      return Some(UnknownContract);
    }
    if selectorOf(call.signature) != Lower(call.selector) {
      return Some(SelectorMismatch);
    }
    if !OneAbiEntry(call) {
      return Some(AmbiguousAbi);
    }
    if call.constraint.UsdcApproveBoundedSpenders? {
      var ok := ValidateSpenders(call.constraint.spenders);
      if !ok {
        return Some(InvalidSpenders);
      }
    }
    return None;
  }

  predicate DistinctKeys(calls: seq<AllowedCall>) {
    forall i, j :: 0 <= i < j < |calls| ==> CallKey(calls[i]) != CallKey(calls[j])
  }

  lemma DistinctByKey(calls: seq<AllowedCall>)
    ensures DistinctCalls(calls) <==> DistinctKeys(calls)
  {
    forall i, j | 0 <= i < j < |calls|
      ensures CallKey(calls[i]) == CallKey(calls[j]) <==>
              calls[i].contractId == calls[j].contractId && Lower(calls[i].selector) == Lower(calls[j].selector)
    {
      CallKeyInjective(calls[i], calls[j]);
    }
  }

  predicate CallsOk(calls: seq<AllowedCall>, contracts: seq<Contract>, selectorOf: string -> string) {
    forall i :: 0 <= i < |calls| ==> CallOk(calls[i], contracts, selectorOf)
  }

  predicate DistinctTexts(texts: seq<string>) {
    forall i, j :: 0 <= i < j < |texts| ==> texts[i] != texts[j]
  }

  function CallKeys(calls: seq<AllowedCall>): (r: seq<string>)
    ensures |r| == |calls|
    ensures forall i :: 0 <= i < |r| ==> r[i] == CallKey(calls[i])
  {
    seq(|calls|, i requires 0 <= i < |calls| => CallKey(calls[i]))
  }

  lemma KeysDistinct(calls: seq<AllowedCall>)
    ensures DistinctTexts(CallKeys(calls)) <==> DistinctCalls(calls)
  {
    DistinctByKey(calls);
  }

  lemma OneMoreCall(calls: seq<AllowedCall>, k: nat, contracts: seq<Contract>, selectorOf: string -> string)
    requires k < |calls|
    ensures CallsOk(calls[..k + 1], contracts, selectorOf) <==>
      CallsOk(calls[..k], contracts, selectorOf) && CallOk(calls[k], contracts, selectorOf)
    ensures CallsOk(calls, contracts, selectorOf) ==> CallOk(calls[k], contracts, selectorOf)
  {
    assert calls[..k + 1] == calls[..k] + [calls[k]];
  }

  method ValidateCalls(calls: seq<AllowedCall>, contracts: seq<Contract>, ids: set<ContractId>,
                       selectorOf: string -> string)
    returns (fault: Option<Fault>)
    requires forall id :: id in ids <==> exists i :: 0 <= i < |contracts| && contracts[i].id == id
    ensures fault.None? <==> DistinctCalls(calls) && CallsOk(calls, contracts, selectorOf)
  {
    hide CallOk, CallKey, DistinctCalls;
    KeysDistinct(calls);
    var texts := CallKeys(calls);
    var keys: set<string> := {};
    for k := 0 to |calls|
      invariant forall t :: t in keys <==> t in texts[..k]
      invariant CallsOk(calls[..k], contracts, selectorOf)
      invariant DistinctTexts(texts[..k])
    {
      OneMoreCall(calls, k, contracts, selectorOf);
      fault := ValidateCall(calls[k], contracts, ids, selectorOf);
      if fault.Some? {
        return;
      }
      if texts[k] in keys {
        return Some(AmbiguousCall);
      }
      keys := keys + {texts[k]};
      assert texts[..k + 1] == texts[..k] + [texts[k]];
    }
    assert calls[..|calls|] == calls && texts[..|calls|] == texts;
    fault := None;
  }

  /** The validation a manifest passes before it is frozen: it accepts exactly the valid contents. */
  method ValidateContent(m: Content, selectorOf: string -> string) returns (fault: Option<Fault>)
    ensures fault.None? <==> ValidContent(m, selectorOf)
  {
    if m.chainId != 8453 {
      return Some(UnsupportedChain);
    }
    if !m.versionGiven || !m.createdAtFinite {
      return Some(InvalidVersion);
    }
    var contractFault, ids := ValidateContracts(m.contracts);
    if contractFault.Some? {
      return contractFault;
    }
    fault := ValidateCalls(m.allowedCalls, m.contracts, ids, selectorOf);
  }

  const USDC_ADDRESS := "0x" + "833589fcd6edb6e08f4c7c32d4f71b54bda02913"
  const MARKETPLACE_ADDRESS := "0x" + "f24ee42eda0fc9b33b7d41b06ee8ccd2ef7c5020"
  const TRACKER_ADDRESS := "0x" + "0443c55e151dba13fae079518f9dd01ff9c21cb2"
  const AAVE_POOL_ADDRESS := "0x" + "a238dd80c259a72e81d7e4664a9801593f98d1c5"
  const USDC_PAYMENT_TYPE := ("6406bb5f31a732f898e1ce9fdd988a80" + "a808d36ab5d9a4a4805a8be8d197d5e3")

  const REQUEST_SIGNATURE := "request(bytes,uint256,bytes32,address,uint256,bytes)"
  const APPROVE_SIGNATURE := "approve(address,uint256)"
  const SUPPLY_SIGNATURE := "supply(address,uint256,address,uint16)"
  const REQUEST_SELECTOR := "0x" + "f6938b09"
  const APPROVE_SELECTOR := "0x" + "095ea7b3"
  const SUPPLY_SELECTOR := "0x" + "617ba037"

  const REQUEST_RULE := AllowedCall(OLAS_REQUEST, OLAS_MARKETPLACE, REQUEST_SIGNATURE, REQUEST_SELECTOR,
    [REQUEST_SIGNATURE], "0", OlasRequestUsdc("1000000", "0x" + USDC_PAYMENT_TYPE, 60, 300, 8192))

  const APPROVE_RULE := AllowedCall(USDC_APPROVE, USDC, APPROVE_SIGNATURE, APPROVE_SELECTOR,
    [APPROVE_SIGNATURE], "0", UsdcApproveBoundedSpenders([Spender(TRACKER_ADDRESS, "1000000"),
                                                          Spender(AAVE_POOL_ADDRESS, "10000000000")]))

  /** The approval rule of the first version. */
  const V1_APPROVE_RULE := APPROVE_RULE.(constraint := UsdcApproveAave(AAVE_POOL_ADDRESS, "10000000000"))

  const SUPPLY_RULE := AllowedCall(AAVE_SUPPLY, AAVE_POOL, SUPPLY_SIGNATURE, SUPPLY_SELECTOR,
    [SUPPLY_SIGNATURE], "0", AaveSupplyUsdc(USDC_ADDRESS, "10000000000", 0))

  const MARKETPLACE_CONTRACT := Contract(OLAS_MARKETPLACE, MARKETPLACE_ADDRESS,
    "sha256:" + ("1833f73532aee9c742d2a7fb0c584cbc" + "1daaf2b36d2b0d8261a2f8287a1ead1d"),
    CallProxy("0x" + "155547857680a6d51bebc5603397488988deb1c8",
      "sha256:" + ("50383c3b69cc6fe6dd46745ad1669aa4" + "ef31ecafd8036df01df5609ac8abab8b"), Some("0x" + "aaf10f42")))

  const USDC_CONTRACT := Contract(USDC, USDC_ADDRESS,
    "sha256:" + ("98d785fcb1bf847f287adc2310759fd9" + "4cc13e754b974bc72131382e8266f607"),
    CallProxy("0x" + "2ce6311ddae708829bc0784c967b7d77d19fd779",
      "sha256:" + ("dcb3b7ca28662970d0a7cdad420e529f" + "b837d7bf8a246b1a680c20e153db79e8"), Some("0x" + "5c60da1b")))

  const AAVE_CONTRACT := Contract(AAVE_POOL, AAVE_POOL_ADDRESS,
    "sha256:" + ("0ce3fd0250aff7584b77df0ac1f3de5a" + "7a732e842d0dd8d67e73836d2c07b685"),
    Eip1967("0x" + "a4abc5fcba6d0d7e3d144d6dbf6cb6128599dfdb",
      "sha256:" + ("107cf122b17722d846e4859ddf98aac5" + "81852b4f27ac4506c77d389b62f5621f"),
      Some("0x" + ("360894a13ba1a3210667c828492db98d" + "ca3e2076cc3735a920a3ca505d382bbc"))))

  const TRACKER_CONTRACT := Contract(OLAS_USDC_BALANCE_TRACKER, TRACKER_ADDRESS,
    "sha256:" + ("953ecd1c06d4f50e0ffe60c79ce0ce99" + "9237f0d8812f07fd10df5aae5d0e6834"), Direct)

  /** The manifest before it, version base-2026-09-15.1. */
  const V1_MANIFEST := Content(8453, true, true, [MARKETPLACE_CONTRACT, USDC_CONTRACT, AAVE_CONTRACT],
    [REQUEST_RULE, V1_APPROVE_RULE, SUPPLY_RULE])

  /** The active manifest, version base-2026-09-15.2. */
  const BASE_MANIFEST := Content(8453, true, true,
    [MARKETPLACE_CONTRACT, USDC_CONTRACT, AAVE_CONTRACT, TRACKER_CONTRACT],
    [REQUEST_RULE, APPROVE_RULE, SUPPLY_RULE])
}
