/** The checks of a submission before its first outside call, and the policy and call built from it
    (apps/api/src/olas-gateway.ts). */
module GatewayChecks {
  import opened Results
  import opened Text
  import opened Numerals
  import opened Manifest
  import opened CanonicalJson
  import opened SafeExecution
  import C = Calldata
  import S = IntentStates

  /** The body of a submission, field by field. */
  datatype Raw = Raw(intentId: string, mechAddress: string, approvedMaximum: string, approvalReference: string,
                     manifestVersion: string, manifestHash: string, chainId: int, from: string, to: string,
                     value: int, data: string)

  /** What the store, the Mech directory and the wallet service answer. */
  datatype Facts = Facts(activeVersion: string, activeHash: string, intentState: Option<S.State>,
                         quotedPrice: Option<string>, eligible: bool, wallet: string)

  datatype Refusal =
    | InvalidCall | ManifestMismatch | IntentNotReady | MechNotSelected | ApprovalMismatch | MechNotEligible
    | CalldataRefused(r: C.Rejection) | SpendExceedsApproval | ApprovalNotExact | AmountNotFrozen
    | RuleMissing | WalletMismatch

  datatype Admitted = Admitted(input: Raw, decoded: C.Call, policy: Policy, call: ContractCall)

  type Gate<T> = Result<T, Refusal>

  function Check(ok: bool, otherwise: Refusal): Gate<()> {
    if ok then Ok(()) else Err(otherwise)
  }

  /** The parsed body: addresses and data in lower case. */
  function ParseInput(raw: Raw): (r: Gate<Raw>)
    ensures r.Ok? ==> r.value.intentId == raw.intentId && IsUnsigned(r.value.approvedMaximum)
    ensures r.Ok? ==> IsAddress(raw.mechAddress) && r.value.mechAddress == Lower(raw.mechAddress)
    ensures r.Ok? ==> r.value.value == 0 && r.value.chainId == 8453
  {
    var _ :- Check(|raw.intentId| >= 3 && |raw.approvalReference| >= 8 && IsHash(raw.manifestHash)
                   && IsUnsigned(raw.approvedMaximum) && raw.chainId == 8453 && raw.value == 0
                   && IsHexData(raw.data) && |raw.data| > 2, InvalidCall);
    var _ :- Check(IsAddress(raw.mechAddress) && IsAddress(raw.from) && IsAddress(raw.to), InvalidCall);
    Ok(raw.(mechAddress := Lower(raw.mechAddress), from := Lower(raw.from), to := Lower(raw.to), data := Lower(raw.data)))
  }

  function FindRule(calls: seq<AllowedCall>, id: CallId): Gate<AllowedCall> {
    if calls == [] then Err(RuleMissing) else if calls[0].id == id then Ok(calls[0]) else FindRule(calls[1..], id)
  }

  function FindContract(contracts: seq<Contract>, id: ContractId): Gate<Contract> {
    if contracts == [] then Err(RuleMissing)
    else if contracts[0].id == id then Ok(contracts[0])
    else FindContract(contracts[1..], id)
  }

  function ManifestRule(id: CallId): Gate<(AllowedCall, Contract)> {
    var rule :- FindRule(BASE_MANIFEST.allowedCalls, id);
    var contract :- FindContract(BASE_MANIFEST.contracts, rule.contractId);
    Ok((rule, contract))
  }

  /** Names of the three ABI functions. */
  function FunctionName(id: CallId): string {
    match id
    case OLAS_REQUEST => "request"
    case USDC_APPROVE => "approve"
    case AAVE_SUPPLY => "supply"
  }

  function CallIdText(id: CallId): string {
    match id
    case OLAS_REQUEST => "OLAS_REQUEST"
    case USDC_APPROVE => "USDC_APPROVE"
    case AAVE_SUPPLY => "AAVE_SUPPLY"
  }

  function CallArguments(c: C.Call): seq<HostValue> {
    match c
    case UsdcApprove(spender, amount) => [VString(spender), VString(amount)]
    case OlasRequest(data, rate, paymentType, mech, timeout, paymentData) =>
      [VString(data), VString(rate), VString(paymentType), VString(mech), VNumber(Numeral(timeout, Dec)), VString(paymentData)]
    case AaveSupply(asset, amount, wallet, code) =>
      [VString(asset), VString(amount), VString(wallet), VNumber(Numeral(code, Dec))]
  }

  /** One rule: the decoded call's own target and function, no native value, the approved maximum as the amount cap. */
  function ExecutionPolicy(c: C.Call, approvedMaximum: string): Gate<Policy> {
    var found :- ManifestRule(C.IdOf(c));
    var (rule, contract) := found;
    var token := c.UsdcApprove?;
    Ok(Policy([CallRule(8453, contract.address, FunctionName(rule.id), rule.selector, "0", Some(1), Some(approvedMaximum),
                        if token then Some(contract.address) else None, if token then Some(AtTarget) else None)], []))
  }

  /** `abi` are the manifest's ABI entries as values; their selectors were checked when the manifest was built. */
  function SafeCall(input: Raw, c: C.Call, abi: CallId -> HostValue): Gate<ContractCall> {
    var found :- ManifestRule(C.IdOf(c));
    var (rule, contract) := found;
    Ok(ContractCall(TaskId(input.intentId, input.mechAddress, C.IdOf(c)), 8453, contract.address, FunctionName(rule.id),
                    rule.selector, CallArguments(c), abi(rule.id),
                    [AbiEntry(true, FunctionName(rule.id), Some(rule.selector), false)], Some("0"),
                    if c.UsdcApprove? then Some(contract.address) else None, None))
  }

  function TaskId(intentId: string, mech: string, id: CallId): string {
    "synesis:" + intentId + ":olas:" + mech + ":" + Lower(CallIdText(id))
  }

  /** Amounts against the frozen maximum. */
  function CheckAmounts(c: C.Call, approvedMaximum: string): Gate<()>
    requires IsUnsigned(approvedMaximum)
  {
    var maximum := Value(approvedMaximum, Dec);
    match c
    case OlasRequest(_, rate, _, _, _, _) => Check(IsUnsigned(rate) && Value(rate, Dec) <= maximum, SpendExceedsApproval)
    case UsdcApprove(_, amount) => Check(IsUnsigned(amount) && Value(amount, Dec) == maximum, ApprovalNotExact)
    case AaveSupply(_, amount, _, _) => Check(IsUnsigned(amount) && Value(amount, Dec) == maximum, AmountNotFrozen)
  }

  function ValidatorInput(input: Raw): C.Input
    requires input.value >= 0
  {
    C.GatewayInput(input.chainId, input.to, input.data, input.value, input.mechAddress)
  }

  function Admit(raw: Raw, facts: Facts, abi: CallId -> HostValue): Gate<Admitted> {
    var input :- ParseInput(raw);
    var _ :- Check(input.manifestVersion == facts.activeVersion && input.manifestHash == facts.activeHash, ManifestMismatch);
    var _ :- Check(facts.intentState == Some(S.ProcurementReady) || facts.intentState == Some(S.ProcurementExecuting),
                   IntentNotReady);
    var _ :- Check(facts.quotedPrice.Some?, MechNotSelected);
    var _ :- Check(IsUnsigned(facts.quotedPrice.value)
                   && Value(input.approvedMaximum, Dec) == Value(facts.quotedPrice.value, Dec), ApprovalMismatch);
    var _ :- Check(facts.eligible, MechNotEligible);
    match C.ValidateCalldata(ValidatorInput(input), BASE_MANIFEST)
    case Err(r) => Err(CalldataRefused(r))
    case Ok(decoded) =>
      var _ :- CheckAmounts(decoded.call, input.approvedMaximum);
      var policy :- ExecutionPolicy(decoded.call, input.approvedMaximum);
      var _ :- Check(facts.wallet == input.from, WalletMismatch);
      var call :- SafeCall(input, decoded.call, abi);
      Ok(Admitted(input, decoded.call, policy, call))
  }
}
