/** The call that an admitted submission sends: its arguments, read by the types of the rule's signature and encoded, are
    the submitted calldata; its policy lets nothing else through; and exactly when a submission is admitted
    (apps/api/src/olas-gateway.ts). */
module AdmittedCalls {
  import opened Results
  import opened Text
  import opened Numerals
  import opened Manifest
  import opened ManifestLaws
  import opened CanonicalJson
  import opened Hashing
  import opened SafeExecution
  import opened GatewayChecks
  import opened GatewayAdmission
  import Abi = AbiEncoding
  import C = Calldata
  import P = CalldataProofs
  import CL = CalldataLaws
  import RL = RoutingLaws
  import L = SafeExecutionLaws
  import S = IntentStates

  // Arguments

  datatype AbiType = TBytes | TBytes32 | TAddress | TUint(bits: nat)

  function TypeName(t: AbiType): string {
    match t
    case TBytes => "bytes"
    case TBytes32 => "bytes32"
    case TAddress => "address"
    case TUint(bits) => "uint" + Numeral(bits, Dec)
  }

  function TypeNames(types: seq<AbiType>): (r: seq<string>)
    ensures |r| == |types| && forall i | 0 <= i < |r| :: r[i] == TypeName(types[i])
  {
    seq(|types|, i requires 0 <= i < |types| => TypeName(types[i]))
  }

  /** The signature of a function with these parameter types. */
  function Signature(name: string, types: seq<AbiType>): string {
    name + "(" + Join(TypeNames(types), ',') + ")"
  }

  function ParameterTypes(id: CallId): seq<AbiType> {
    match id
    case OLAS_REQUEST => [TBytes, TUint(256), TBytes32, TAddress, TUint(256), TBytes]
    case USDC_APPROVE => [TAddress, TUint(256)]
    case AAVE_SUPPLY => [TAddress, TUint(256), TAddress, TUint(16)]
  }

  /** An argument as the ABI value of its parameter type. */
  function ReadArgument(t: AbiType, v: HostValue): Option<Abi.AbiValue> {
    match (t, v)
    case (TBytes, VString(s)) => if P.IsBytes(s) then Some(Abi.Bytes(Lower(s)[2..])) else None
    case (TBytes32, VString(s)) => if IsHexOfLength(s, 64) then Some(Abi.Bytes32(Lower(s)[2..])) else None
    case (TAddress, VString(s)) => if IsAddress(s) then Some(Abi.Address(Lower(s)[2..])) else None
    case (TUint(_), VString(s)) => if IsUnsigned(s) then Some(Abi.Uint(Value(s, Dec))) else None
    case (TUint(_), VNumber(n)) => if IsUnsigned(n) then Some(Abi.Uint(Value(n, Dec))) else None
    case _ => None
  }

  function ReadArguments(types: seq<AbiType>, args: seq<HostValue>): Option<seq<Abi.AbiValue>> {
    if types == [] || args == [] then (if types == [] && args == [] then Some([]) else None)
    else
      match (ReadArgument(types[0], args[0]), ReadArguments(types[1..], args[1..]))
      case (Some(v), Some(vs)) => Some([v] + vs)
      case _ => None
  }

  lemma {:induction false} ReadEach(types: seq<AbiType>, args: seq<HostValue>, vs: seq<Abi.AbiValue>)
    requires |types| == |args| == |vs| && forall i | 0 <= i < |vs| :: ReadArgument(types[i], args[i]) == Some(vs[i])
    ensures ReadArguments(types, args) == Some(vs)
  {
    hide ReadArgument;
    if vs != [] {
      ReadEach(types[1..], args[1..], vs[1..]);
      assert vs == [vs[0]] + vs[1..];
    }
  }

  lemma RequestReads(c: C.Call)
    requires c.OlasRequest? && P.WellFormed(c)
    ensures ReadArguments(ParameterTypes(OLAS_REQUEST), CallArguments(c)) == Some(P.AbiValues(c))
  {
    hide Lower, AllDigits, Value, P.IsBytes, IsHexOfLength, ReadArguments, Numeral;
    var types, args, vs := ParameterTypes(OLAS_REQUEST), CallArguments(c), P.AbiValues(c);
    NumeralReads(c.responseTimeout);
    assert ReadArgument(types[0], args[0]) == Some(vs[0]) && ReadArgument(types[1], args[1]) == Some(vs[1]);
    assert ReadArgument(types[2], args[2]) == Some(vs[2]) && ReadArgument(types[3], args[3]) == Some(vs[3]);
    assert ReadArgument(types[4], args[4]) == Some(vs[4]) && ReadArgument(types[5], args[5]) == Some(vs[5]);
    ReadEach(types, args, vs);
  }

  lemma NumeralReads(n: nat)
    ensures IsUnsigned(Numeral(n, Dec)) && Value(Numeral(n, Dec), Dec) == n
  {
  }

  lemma ApprovalReads(c: C.Call)
    requires c.UsdcApprove? && P.WellFormed(c)
    ensures ReadArguments(ParameterTypes(USDC_APPROVE), CallArguments(c)) == Some(P.AbiValues(c))
  {
    hide Lower, AllDigits, Value, IsHexOfLength, ReadArguments;
    var types, args, vs := ParameterTypes(USDC_APPROVE), CallArguments(c), P.AbiValues(c);
    assert ReadArgument(types[0], args[0]) == Some(vs[0]) && ReadArgument(types[1], args[1]) == Some(vs[1]);
    ReadEach(types, args, vs);
  }

  /** The signatures of the manifest's rules are those of the parameter types. */
  lemma BaseSignatures(id: CallId)
    requires id != AAVE_SUPPLY
    ensures RL.RuleOf(id).signature == Signature(if id == OLAS_REQUEST then "request" else "approve", ParameterTypes(id))
  {
    hide Join, TypeNames, Numeral, RL.RuleOf;
    TypeTexts();
    RuleSignatures();
    if id == OLAS_REQUEST {
      RequestTypes();
      JoinSix("bytes", "uint256", "bytes32", "address", "uint256", "bytes");
      RequestText();
    } else {
      ApprovalTypes();
      JoinTwo("address", "uint256");
      ApprovalText();
    }
  }

  lemma RuleSignatures()
    ensures RL.RuleOf(OLAS_REQUEST).signature == REQUEST_SIGNATURE && RL.RuleOf(USDC_APPROVE).signature == APPROVE_SIGNATURE
  {
  }

  /** The name of a call is the one in its rule's signature. */
  lemma NamesOfSignatures(id: CallId)
    ensures FunctionName(id) + "(" <= RL.RuleOf(id).signature
  {
    if id == AAVE_SUPPLY {
      SupplyText();
    } else {
      BaseSignatures(id);
    }
  }

  lemma SupplyText()
    ensures "supply" + "(" <= SUPPLY_SIGNATURE
  {
    SupplyStart();
    SupplyRest();
  }

  lemma SupplyStart()
    ensures "supply" + "(" == "supply("
  {
  }

  lemma SupplyRest()
    ensures "supply(" <= SUPPLY_SIGNATURE
  {
    var s := SUPPLY_SIGNATURE;
    assert s[0] == 's' && s[1] == 'u' && s[2] == 'p' && s[3] == 'p' && s[4] == 'l' && s[5] == 'y' && s[6] == '(';
  }

  lemma RequestTypes()
    ensures TypeNames(ParameterTypes(OLAS_REQUEST)) == ["bytes", "uint256", "bytes32", "address", "uint256", "bytes"]
  {
    hide TypeName;
    TypeTexts();
  }

  lemma ApprovalTypes()
    ensures TypeNames(ParameterTypes(USDC_APPROVE)) == ["address", "uint256"]
  {
    hide TypeName;
    TypeTexts();
  }

  lemma RequestText()
    ensures "request" + "(" + ("bytes" + "," + "uint256" + "," + "bytes32" + "," + "address" + "," + "uint256" + "," + "bytes") + ")"
            == REQUEST_SIGNATURE
  {
    assert "request" + "(" == "request(";
    ThreeTypes();
    SixTypes();
    OpenSignature();
    ClosedSignature();
  }

  lemma ThreeTypes()
    ensures "bytes" + "," + "uint256" + "," + "bytes32" == "bytes,uint256,bytes32"
  {
    assert "bytes" + "," + "uint256" == "bytes,uint256";
  }

  lemma SixTypes()
    ensures "bytes,uint256,bytes32" + "," + "address" + "," + "uint256" + "," + "bytes"
            == "bytes,uint256,bytes32,address,uint256,bytes"
  {
    assert "bytes,uint256,bytes32" + "," + "address" == "bytes,uint256,bytes32,address";
    assert "bytes,uint256,bytes32,address" + "," + "uint256" == "bytes,uint256,bytes32,address,uint256";
  }

  lemma OpenSignature()
    ensures "request(" + "bytes,uint256,bytes32,address,uint256,bytes" == "request(bytes,uint256,bytes32,address,uint256,bytes"
  {
    FirstTypes();
    LastTypes();
    OpenedTypes();
    Associative("request(", "bytes,uint256,bytes32", ",address,uint256,bytes");
  }

  lemma FirstTypes()
    ensures "request(" + "bytes,uint256,bytes32" == "request(bytes,uint256,bytes32"
  {
  }

  lemma LastTypes()
    ensures "bytes,uint256,bytes32" + ",address,uint256,bytes" == "bytes,uint256,bytes32,address,uint256,bytes"
  {
  }

  lemma OpenedTypes()
    ensures "request(bytes,uint256,bytes32" + ",address,uint256,bytes" == "request(bytes,uint256,bytes32,address,uint256,bytes"
  {
  }

  lemma ClosedSignature()
    ensures "request(bytes,uint256,bytes32,address,uint256,bytes" + ")" == REQUEST_SIGNATURE
  {
  }

  lemma ApprovalText()
    ensures "approve" + "(" + ("address" + "," + "uint256") + ")" == APPROVE_SIGNATURE
  {
  }

  lemma TypeTexts()
    ensures TypeName(TUint(256)) == "uint256" && TypeName(TBytes) == "bytes" && TypeName(TBytes32) == "bytes32"
    ensures TypeName(TAddress) == "address"
  {
    hide Value, AllDigits;
    assert Numeral(2, Dec) == "2";
    assert Numeral(25, Dec) == "25";
    assert Numeral(256, Dec) == "256";
  }

  lemma JoinTwo(a: string, b: string)
    ensures Join([a, b], ',') == a + "," + b
  {
    assert [a, b][1..] == [b];
  }

  lemma JoinSix(a: string, b: string, c: string, d: string, e: string, f: string)
    ensures Join([a, b, c, d, e, f], ',') == a + "," + b + "," + c + "," + d + "," + e + "," + f
  {
    hide Join;
    JoinCons(a, [b, c, d, e, f], ',');
    JoinCons(b, [c, d, e, f], ',');
    JoinCons(c, [d, e, f], ',');
    JoinCons(d, [e, f], ',');
    JoinTwo(e, f);
    assert [a] + [b, c, d, e, f] == [a, b, c, d, e, f] && [b] + [c, d, e, f] == [b, c, d, e, f];
    assert [c] + [d, e, f] == [c, d, e, f] && [d] + [e, f] == [d, e, f];
  }

  /** The call that an admitted submission sends is the submitted calldata: for a rule of the manifest that it names by
      target, function and selector, its arguments have the types of the rule's signature, and their encoding behind the
      selector is the submitted data. */
  lemma CallIsCalldata(raw: Raw, facts: Facts, abi: CallId -> HostValue) returns (id: CallId)
    requires Admit(raw, facts, abi).Ok?
    ensures var call := Admit(raw, facts, abi).value.call;
      var rule, types := RL.RuleOf(id), ParameterTypes(id);
      && rule in BASE_MANIFEST.allowedCalls && call.functionSelector == rule.selector
      && rule.signature == Signature(call.functionName, types)
      && ReadArguments(types, call.functionArgs).Some?
      && call.functionSelector + Abi.AbiEncode(ReadArguments(types, call.functionArgs).value) == Lower(raw.data)
      && Lower(call.contractAddress) == Lower(raw.to) && call.chainId == raw.chainId
  {
    hide Admit, C.ValidateCalldata, C.EncodeAllowedCall, CallArguments, AllDigits, Value, ExecutionPolicy, CheckAmounts, Abi.AbiEncode,
         P.WellFormed, P.AbiValues, IsAddress, IsHexData, ReadArguments, Signature, RL.RuleOf, RL.AddressOf, SafeCall, Lower;
    AdmitSteps(raw, facts, abi);
    AdmittedBounds(raw, facts, abi);
    var a := Admit(raw, facts, abi).value;
    id := C.IdOf(a.decoded);
    RL.BaseRule(id);
    BaseSignatures(id);
    SentCall(a.input, a.decoded, abi);
    ArgumentsRead(a.decoded);
    P.EncodersFollowAbi(a.decoded);
    ParsedLower(raw);
    TargetIsRule(ValidatorInput(a.input));
  }

  lemma ArgumentsRead(c: C.Call)
    requires P.WellFormed(c) && !c.AaveSupply?
    ensures ReadArguments(ParameterTypes(C.IdOf(c)), CallArguments(c)) == Some(P.AbiValues(c))
  {
    if c.OlasRequest? {
      RequestReads(c);
    } else {
      ApprovalReads(c);
    }
  }

  lemma SentCall(input: Raw, c: C.Call, abi: CallId -> HostValue)
    requires !c.AaveSupply? && SafeCall(input, c, abi).Ok?
    ensures var call := SafeCall(input, c, abi).value;
      && call.chainId == 8453 && call.contractAddress == RL.AddressOf(C.IdOf(c)) && call.functionArgs == CallArguments(c)
      && call.functionSelector == RL.RuleOf(C.IdOf(c)).selector
      && call.functionName == if c.OlasRequest? then "request" else "approve"
  {
    hide CallArguments, TaskId;
    FoundRules();
  }

  lemma ParsedLower(raw: Raw)
    requires ParseInput(raw).Ok?
    ensures var input := ParseInput(raw).value;
      && input.data == Lower(raw.data) && input.to == Lower(raw.to) && input.from == Lower(raw.from)
      && input.mechAddress == Lower(raw.mechAddress) && input.chainId == raw.chainId == 8453
      && Lower(input.data) == input.data && Lower(input.to) == input.to
  {
    hide Lower, IsAddress, IsHexData, IsHash;
    LowerIdempotent(raw.data);
    LowerIdempotent(raw.to);
  }

  /** An accepted input goes to the address of the call it decodes to. */
  lemma TargetIsRule(input: C.Input)
    requires C.ValidateCalldata(input, BASE_MANIFEST).Ok?
    ensures Lower(input.target) == RL.AddressOf(C.IdOf(C.ValidateCalldata(input, BASE_MANIFEST).value.call))
  {
    hide C.ValidateCalldata, C.Route, P.WellFormed, P.Normalize, C.EncodeAllowedCall, Lower, IsAddress, RL.Targets;
    CL.AcceptedIsCanonical(input, BASE_MANIFEST);
    RL.RouteIsRoutable(input, BASE_MANIFEST);
    RL.BaseRules(C.Route(input, BASE_MANIFEST).value);
    RL.BaseTargets(input.target, C.IdOf(C.ValidateCalldata(input, BASE_MANIFEST).value.call));
  }

  // The policy

  /** The policy of an admitted submission lets exactly its own kind of call through: to the submitted target with the
      submitted selector, without native value, with an amount up to the approved maximum, and no protocol action. */
  lemma OnlyAdmittedCalls(hash: Hash, raw: Raw, facts: Facts, abi: CallId -> HostValue, other: ContractCall)
    requires Admit(raw, facts, abi).Ok? && PrepareContractCall(hash, other, Admit(raw, facts, abi).value.policy).Ok?
    ensures other.chainId == raw.chainId && Lower(other.contractAddress) == Lower(raw.to)
    ensures Lower(other.functionSelector) == Admit(raw, facts, abi).value.call.functionSelector
    ensures L.NativeOk(other.value.GetOr("0"), "0")
    ensures L.AmountOk(Argument(other.functionArgs, 1), Some(raw.approvedMaximum))
  {
    hide Admit, C.ValidateCalldata, C.EncodeAllowedCall, CallArguments, AllDigits, Value, CheckAmounts, Abi.AbiEncode, P.WellFormed,
         P.AbiValues, IsAddress, IsHexData, ReadArguments, Signature, RL.RuleOf, RL.AddressOf, SafeCall, Lower, ExecutionPolicy,
         PrepareContractCall, L.NativeOk, L.AmountOk, Located;
    AdmitSteps(raw, facts, abi);
    AdmittedBounds(raw, facts, abi);
    var a := Admit(raw, facts, abi).value;
    var id := CallIsCalldata(raw, facts, abi);
    L.PreparedWithinPolicy(hash, other, a.policy);
    OneRule(a.decoded, raw.approvedMaximum, a.call, a.input, abi);
    ParsedMaximum(raw);
  }

  lemma ParsedMaximum(raw: Raw)
    requires ParseInput(raw).Ok?
    ensures ParseInput(raw).value.approvedMaximum == raw.approvedMaximum
  {
  }

  /** The one rule of the policy. */
  lemma OneRule(c: C.Call, maximum: string, call: ContractCall, input: Raw, abi: CallId -> HostValue)
    requires !c.AaveSupply? && ExecutionPolicy(c, maximum).Ok? && SafeCall(input, c, abi) == Ok(call)
    ensures |call.functionSelector| == 10 && Lower(call.functionSelector) == call.functionSelector
    ensures forall rule | rule in ExecutionPolicy(c, maximum).value.contractCalls ::
              && rule.chainId == 8453 && rule.target == call.contractAddress && rule.functionName == call.functionName
              && rule.functionSelector == call.functionSelector && rule.maxNativeValueWei == "0"
              && rule.amountArgumentIndex == Some(1) && rule.maxAmountBaseUnits == Some(maximum)
    ensures ExecutionPolicy(c, maximum).value.protocolActions == []
  {
    hide CallArguments, TaskId;
    FoundRules();
    ActiveSelectors();
  }

  // Admission, exactly

  /** The shape that the body must have. */
  predicate Submittable(raw: Raw) {
    && |raw.intentId| >= 3 && |raw.approvalReference| >= 8 && IsHash(raw.manifestHash) && IsUnsigned(raw.approvedMaximum)
    && raw.chainId == 8453 && raw.value == 0 && IsHexData(raw.data) && |raw.data| > 2
    && IsAddress(raw.mechAddress) && IsAddress(raw.from) && IsAddress(raw.to)
  }

  /** The intent is approved for procurement or already executing it. */
  predicate InProcurement(state: Option<S.State>) {
    state == Some(S.ProcurementReady) || state == Some(S.ProcurementExecuting)
  }

  /** The call spends what was approved: an approval exactly that, a request at most that; a supply is never sent. */
  predicate Spends(c: C.Call, maximum: nat)
    requires P.WellFormed(c)
  {
    match c
    case OlasRequest(_, rate, _, _, _, _) => Value(rate, Dec) <= maximum
    case UsdcApprove(_, amount) => Value(amount, Dec) == maximum
    case AaveSupply(_, _, _, _) => false
  }

  /** The calldata is a call that the active manifest takes from this Mech's submission and that spends what was
      approved. */
  ghost predicate CarriesCall(raw: Raw, maximum: nat) {
    exists c: C.Call | P.WellFormed(c) ::
      RL.FitsBase(c, C.GatewayInput(8453, Lower(raw.to), Lower(raw.data), 0, Lower(raw.mechAddress))) && Spends(c, maximum)
  }

  /** When a submission is admitted: its shape, the active manifest, an intent in procurement, the frozen quote, an
      eligible Mech, the organization's wallet, and calldata of a call that spends what was approved. */
  lemma AdmittedIff(raw: Raw, facts: Facts, abi: CallId -> HostValue)
    requires |raw.data| <= MAX_SAFE_INTEGER
    ensures Admit(raw, facts, abi).Ok? <==>
            && Submittable(raw) && raw.manifestVersion == facts.activeVersion && raw.manifestHash == facts.activeHash
            && InProcurement(facts.intentState) && facts.eligible && Lower(raw.from) == facts.wallet
            && facts.quotedPrice.Some? && IsUnsigned(facts.quotedPrice.value)
            && Value(raw.approvedMaximum, Dec) == Value(facts.quotedPrice.value, Dec)
            && CarriesCall(raw, Value(raw.approvedMaximum, Dec))
  {
    hide Admit, Lower, AllDigits, Value, IsAddress, IsHexData, IsHash, ParseInput, Submittable, Spends, RL.FitsBase, P.WellFormed,
         C.ValidateCalldata, ExecutionPolicy, SafeCall, CheckAmounts;
    ParseIff(raw);
    if Admit(raw, facts, abi).Ok? {
      AdmitSteps(raw, facts, abi);
      ParsedLower(raw);
      AdmittedCarries(raw, facts, abi);
    } else if Submittable(raw) && raw.manifestVersion == facts.activeVersion && raw.manifestHash == facts.activeHash
              && InProcurement(facts.intentState) && facts.eligible && Lower(raw.from) == facts.wallet
              && facts.quotedPrice.Some? && IsUnsigned(facts.quotedPrice.value)
              && Value(raw.approvedMaximum, Dec) == Value(facts.quotedPrice.value, Dec)
              && CarriesCall(raw, Value(raw.approvedMaximum, Dec)) {
      var c: C.Call :| P.WellFormed(c)
        && RL.FitsBase(c, C.GatewayInput(8453, Lower(raw.to), Lower(raw.data), 0, Lower(raw.mechAddress)))
        && Spends(c, Value(raw.approvedMaximum, Dec));
      ParsedLower(raw);
      CarriedIsAdmitted(raw, facts, abi, c);
    }
  }

  /** Why a submission is refused before its calldata is looked at: the first check that fails, in this order. */
  lemma RefusedIff(raw: Raw, facts: Facts, abi: CallId -> HostValue)
    ensures var r := Admit(raw, facts, abi);
      var current := raw.manifestVersion == facts.activeVersion && raw.manifestHash == facts.activeHash;
      var shaped, ready := Submittable(raw), InProcurement(facts.intentState);
      var quoted := facts.quotedPrice.Some?;
      && (r == Err(InvalidCall) <==> !shaped)
      && (r == Err(ManifestMismatch) <==> shaped && !current)
      && (r == Err(IntentNotReady) <==> shaped && current && !ready)
      && (r == Err(MechNotSelected) <==> shaped && current && ready && !quoted)
      && (r == Err(ApprovalMismatch) <==> shaped && current && ready && quoted && !Frozen(raw, facts))
      && (r == Err(MechNotEligible) <==> shaped && current && ready && quoted && Frozen(raw, facts) && !facts.eligible)
      && (r.Err? && r.error.CalldataRefused? ==> shaped && current && ready && quoted && Frozen(raw, facts) && facts.eligible)
  {
    hide Lower, AllDigits, Value, IsAddress, IsHexData, IsHash, ParseInput, Submittable, C.ValidateCalldata, ExecutionPolicy,
         SafeCall, CheckAmounts;
    ParseIff(raw);
    if ParseInput(raw).Err? {
      ParseError(raw);
    }
    LateErrors(raw);
  }

  /** The submitted maximum is the quote that was approved. */
  predicate Frozen(raw: Raw, facts: Facts) {
    && IsUnsigned(raw.approvedMaximum) && facts.quotedPrice.Some? && IsUnsigned(facts.quotedPrice.value)
    && Value(raw.approvedMaximum, Dec) == Value(facts.quotedPrice.value, Dec)
  }

  lemma ParseError(raw: Raw)
    requires ParseInput(raw).Err?
    ensures ParseInput(raw) == Err(InvalidCall)
  {
    hide IsAddress, IsHexData, IsHash, AllDigits, Lower;
  }

  /** What the checks after the validator can answer. */
  lemma LateErrors(raw: Raw)
    ensures forall c: C.Call, maximum | IsUnsigned(maximum) && CheckAmounts(c, maximum).Err? ::
      CheckAmounts(c, maximum).error in {SpendExceedsApproval, ApprovalNotExact, AmountNotFrozen}
    ensures forall c: C.Call, maximum | ExecutionPolicy(c, maximum).Err? :: ExecutionPolicy(c, maximum).error == RuleMissing
    ensures forall input, c: C.Call, abi | SafeCall(input, c, abi).Err? :: SafeCall(input, c, abi).error == RuleMissing
  {
    hide AllDigits, Value, CallArguments, TaskId;
    RulesMissing();
  }

  lemma RulesMissing()
    ensures forall id | ManifestRule(id).Err? :: ManifestRule(id).error == RuleMissing
  {
    MissingRule();
    MissingContract();
  }

  lemma MissingRule()
    ensures forall calls, id | FindRule(calls, id).Err? :: FindRule(calls, id).error == RuleMissing
  {
    forall calls, id | FindRule(calls, id).Err? ensures FindRule(calls, id).error == RuleMissing {
      RuleError(calls, id);
    }
  }

  lemma {:induction false} RuleError(calls: seq<AllowedCall>, id: CallId)
    ensures FindRule(calls, id).Err? ==> FindRule(calls, id).error == RuleMissing
  {
    if calls != [] {
      RuleError(calls[1..], id);
    }
  }

  lemma MissingContract()
    ensures forall contracts, id | FindContract(contracts, id).Err? :: FindContract(contracts, id).error == RuleMissing
  {
    forall contracts, id | FindContract(contracts, id).Err? ensures FindContract(contracts, id).error == RuleMissing {
      ContractError(contracts, id);
    }
  }

  lemma {:induction false} ContractError(contracts: seq<Contract>, id: ContractId)
    ensures FindContract(contracts, id).Err? ==> FindContract(contracts, id).error == RuleMissing
  {
    if contracts != [] {
      ContractError(contracts[1..], id);
    }
  }

  lemma ParseIff(raw: Raw)
    ensures ParseInput(raw).Ok? <==> Submittable(raw)
    ensures ParseInput(raw).Ok? ==>
              var input := ParseInput(raw).value;
              && input.manifestVersion == raw.manifestVersion && input.manifestHash == raw.manifestHash
              && input.approvedMaximum == raw.approvedMaximum && input.value == 0 && input.chainId == 8453
              && IsUnsigned(raw.approvedMaximum)
  {
    hide IsAddress, IsHexData, IsHash, AllDigits, Lower;
  }

  lemma AdmittedCarries(raw: Raw, facts: Facts, abi: CallId -> HostValue)
    requires Admit(raw, facts, abi).Ok? && |raw.data| <= MAX_SAFE_INTEGER
    ensures CarriesCall(raw, Value(raw.approvedMaximum, Dec))
  {
    hide Admit, Lower, AllDigits, Value, IsAddress, IsHexData, IsHash, ParseInput, RL.FitsBase, P.WellFormed, C.ValidateCalldata,
         ExecutionPolicy, SafeCall, P.Normalize, C.EncodeAllowedCall, C.Route;
    AdmitSteps(raw, facts, abi);
    AdmittedBounds(raw, facts, abi);
    ParseIff(raw);
    ParsedLower(raw);
    var a := Admit(raw, facts, abi).value;
    var input := ValidatorInput(a.input);
    CL.AcceptedIsCanonical(input, BASE_MANIFEST);
    assert |input.data| == |raw.data|;
    assert RL.Accepted(a.decoded, input, BASE_MANIFEST);
    RL.AdmittedFits(a.decoded, input);
    assert Spends(a.decoded, Value(raw.approvedMaximum, Dec));
  }

  /** The checks that follow the validator pass on a call that spends what was approved. */
  lemma CarriedIsAdmitted(raw: Raw, facts: Facts, abi: CallId -> HostValue, c: C.Call)
    requires ParseInput(raw).Ok? && |raw.data| <= MAX_SAFE_INTEGER && P.WellFormed(c) && IsUnsigned(raw.approvedMaximum)
    requires RL.FitsBase(c, C.GatewayInput(8453, Lower(raw.to), Lower(raw.data), 0, Lower(raw.mechAddress)))
    requires Spends(c, Value(raw.approvedMaximum, Dec))
    requires raw.manifestVersion == facts.activeVersion && raw.manifestHash == facts.activeHash
    requires InProcurement(facts.intentState) && facts.eligible && Lower(raw.from) == facts.wallet
    requires facts.quotedPrice.Some? && IsUnsigned(facts.quotedPrice.value)
    requires Value(raw.approvedMaximum, Dec) == Value(facts.quotedPrice.value, Dec)
    ensures Admit(raw, facts, abi).Ok?
  {
    hide Lower, AllDigits, Value, IsAddress, IsHexData, IsHash, ParseInput, RL.FitsBase, P.WellFormed, C.ValidateCalldata,
         ExecutionPolicy, SafeCall, CheckAmounts, P.Normalize, Spends, IsUnsigned, RL.RuleOf;
    ParseIff(raw);
    ParsedLower(raw);
    var input := ParseInput(raw).value;
    RL.AcceptanceOnBaseIff(c, ValidatorInput(input));
    NormalizedSpends(c, raw.approvedMaximum);
    RulesFound(P.Normalize(c), raw.approvedMaximum, input, abi);
  }

  lemma NormalizedSpends(c: C.Call, maximum: string)
    requires P.WellFormed(c) && IsUnsigned(maximum) && Spends(c, Value(maximum, Dec))
    ensures CheckAmounts(P.Normalize(c), maximum).Ok? && !P.Normalize(c).AaveSupply?
  {
    hide Lower, IsAddress, IsHexData, AllDigits;
    CL.CanonicalKeepsValue(if c.OlasRequest? then c.maxDeliveryRate else c.amount);
  }

  lemma RulesFound(c: C.Call, maximum: string, input: Raw, abi: CallId -> HostValue)
    requires !c.AaveSupply?
    ensures ExecutionPolicy(c, maximum).Ok? && SafeCall(input, c, abi).Ok?
  {
    hide CallArguments, TaskId;
    FoundRules();
  }
}
