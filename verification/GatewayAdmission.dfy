/** What the gateway's checks guarantee: bounds on every admitted call, a policy that always lets it through, and
    keys that determine the intent, the Mech and the kind of call. */
module GatewayAdmission {
  import opened Results
  import opened Text
  import opened Numerals
  import opened Manifest
  import opened ManifestLaws
  import opened CanonicalJson
  import opened Hashing
  import opened SafeExecution
  import opened GatewayChecks
  import D = Decimals
  import C = Calldata
  import P = CalldataProofs
  import CL = CalldataLaws
  import RL = RoutingLaws
  import L = SafeExecutionLaws
  import G = Gateway
  import GS = GatewayStore

  /** The steps that succeeded when a submission is admitted. */
  lemma AdmitSteps(raw: Raw, facts: Facts, abi: CallId -> HostValue)
    requires Admit(raw, facts, abi).Ok?
    ensures var a := Admit(raw, facts, abi).value;
      && ParseInput(raw) == Ok(a.input)
      && facts.quotedPrice.Some? && IsUnsigned(facts.quotedPrice.value)
      && Value(a.input.approvedMaximum, Dec) == Value(facts.quotedPrice.value, Dec)
      && C.ValidateCalldata(ValidatorInput(a.input), BASE_MANIFEST).Ok?
      && a.decoded == C.ValidateCalldata(ValidatorInput(a.input), BASE_MANIFEST).value.call
      && CheckAmounts(a.decoded, a.input.approvedMaximum).Ok?
      && ExecutionPolicy(a.decoded, a.input.approvedMaximum) == Ok(a.policy)
      && SafeCall(a.input, a.decoded, abi) == Ok(a.call)
      && facts.wallet == a.input.from
      && Current(a.input, facts)
  {
    hide C.ValidateCalldata, AllDigits, Value, ExecutionPolicy, SafeCall, CheckAmounts, ParseInput, Numeral, IsUnsigned;
  }

  /** The plan is for the active manifest, the intent is in a procurement state and the Mech is still eligible. */
  predicate Current(input: Raw, facts: Facts) {
    && input.manifestVersion == facts.activeVersion && input.manifestHash == facts.activeHash
    && facts.intentState.Some? && (facts.intentState.value.ProcurementReady? || facts.intentState.value.ProcurementExecuting?)
    && facts.eligible
  }

  // Bounds

  /** An admitted call spends no native value; an approval is exactly the frozen quote, a request at most that and to
      the submitted Mech; a supply is never admitted. */
  lemma AdmittedBounds(raw: Raw, facts: Facts, abi: CallId -> HostValue)
    requires Admit(raw, facts, abi).Ok?
    ensures var a := Admit(raw, facts, abi).value;
      && a.input.value == 0 && a.call.value == Some("0") && !a.decoded.AaveSupply?
      && P.WellFormed(a.decoded)
      && facts.quotedPrice.Some? && IsUnsigned(facts.quotedPrice.value)
      && (a.decoded.UsdcApprove? ==> Value(a.decoded.amount, Dec) == Value(facts.quotedPrice.value, Dec))
      && (a.decoded.OlasRequest? ==>
            && Value(a.decoded.maxDeliveryRate, Dec) <= Value(facts.quotedPrice.value, Dec)
            && a.decoded.priorityMech == a.input.mechAddress)
      && C.EncodeAllowedCall(a.decoded) == Ok(Lower(a.input.data))
      && a.input.from == facts.wallet && Current(a.input, facts)
  {
    hide Admit, C.ValidateCalldata, C.EncodeAllowedCall, P.Normalize, AllDigits, Value, ExecutionPolicy, SafeCall, C.Route,
         IsAddress, IsHexData, Numeral, ParseInput;
    AdmitSteps(raw, facts, abi);
    var a := Admit(raw, facts, abi).value;
    var input := ValidatorInput(a.input);
    CL.AcceptedIsCanonical(input, BASE_MANIFEST);
    RL.AcceptedOnBase(input);
    RL.SupplyNeedsWallet(input, BASE_MANIFEST);
    SafeCallValue(a.input, a.decoded, abi);
    if a.decoded.OlasRequest? {
      PriorityMech(a.decoded, input, a.input.mechAddress, raw.mechAddress);
    }
  }

  lemma SafeCallValue(input: Raw, c: C.Call, abi: CallId -> HostValue)
    requires SafeCall(input, c, abi).Ok?
    ensures SafeCall(input, c, abi).value.value == Some("0")
  {
  }

  lemma PriorityMech(c: C.Call, input: C.Input, mech: string, rawMech: string)
    requires c.OlasRequest? && P.WellFormed(c) && P.Normalize(c) == c && mech == Lower(rawMech)
    requires input.allowedPriorityMechs == Some([mech]) && P.Approved(c.priorityMech, input.allowedPriorityMechs)
    ensures c.priorityMech == mech
  {
    hide IsAddress, AllDigits, P.Canonical, IsHexData;
    LowerIdempotent(rawMech);
    var i :| 0 <= i < 1 && Lower([mech][i]) == Lower(c.priorityMech);
    assert [mech][i] == mech;
  }

  // The policy admits its own call

  lemma FoundRules()
    ensures ManifestRule(OLAS_REQUEST) == Ok((REQUEST_RULE, MARKETPLACE_CONTRACT))
    ensures ManifestRule(USDC_APPROVE) == Ok((APPROVE_RULE, USDC_CONTRACT))
  {
    var calls, contracts := BASE_MANIFEST.allowedCalls, BASE_MANIFEST.contracts;
    assert calls[0] == REQUEST_RULE && calls[1..][0] == APPROVE_RULE;
    assert contracts[0] == MARKETPLACE_CONTRACT && contracts[1..][0] == USDC_CONTRACT;
    assert FindRule(calls, OLAS_REQUEST) == Ok(REQUEST_RULE);
    assert FindRule(calls, USDC_APPROVE) == FindRule(calls[1..], USDC_APPROVE) == Ok(APPROVE_RULE);
    assert FindContract(contracts, USDC) == FindContract(contracts[1..], USDC) == Ok(USDC_CONTRACT);
  }

  /** Facts about the pinned target, selector and name of a call that can be admitted. */
  lemma PinnedCall(id: CallId)
    requires id != AAVE_SUPPLY
    ensures ManifestRule(id).Ok?
    ensures var (rule, contract) := ManifestRule(id).value;
      && rule.id == id && IsAddress(contract.address) && contract.address != "" && Lower(contract.address) == contract.address
      && IsHexOfLength(rule.selector, 8) && Lower(rule.selector) == rule.selector
      && Trim(FunctionName(id)) == FunctionName(id)
  {
    hide IsAddress, AllDigits, Trim;
    FoundRules();
    ActiveAddresses();
    ActiveSelectors();
    SelectorsAreHex();
    NamesAreTrimmed(id);
  }

  lemma SelectorsAreHex()
    ensures IsHexOfLength(REQUEST_SELECTOR, 8) && IsHexOfLength(APPROVE_SELECTOR, 8)
  {
    hide AllDigits, IsHash, IsLower;
    HexLiteral("f6938b09");
    HexLiteral("095ea7b3");
  }

  lemma NamesAreTrimmed(id: CallId)
    requires id != AAVE_SUPPLY
    ensures Trim(FunctionName(id)) == FunctionName(id)
  {
    hide TrimStart, TrimEnd, Trim;
    if id == OLAS_REQUEST {
      forall c | c in "request" ensures !IsSpace(c) {}
      TrimNoSpace("request");
    } else {
      forall c | c in "approve" ensures !IsSpace(c) {}
      TrimNoSpace("approve");
    }
  }

  lemma ZeroIsCanonical()
    ensures D.CanonicalDecimal("0") == Ok("0")
    ensures D.IsDecimal(Trim("0")) && D.Reduced(D.Split(Trim("0"))) == D.Decimal("0", "")
  {
    hide Trim, AllDigits, D.IsDecimal, D.Split, D.Reduced;
    ZeroDigits();
    D.PrintWhole("0");
    D.ReducedFixed(D.Decimal("0", ""));
  }

  lemma ZeroDigits()
    ensures AllDigits("0", Dec) && D.IsReduced(D.Decimal("0", "")) && Value("0", Dec) == 0 && IsUnsigned("0")
  {
    hide Value;
    ActiveCaps();
  }

  lemma ZeroUnits()
    ensures D.DecimalToUnits("0", 18) == Ok(0)
  {
    hide Trim, AllDigits, D.IsDecimal, D.Split, D.Reduced, D.Units, Scaled, D.Mantissa, D.IsReduced;
    ZeroIsCanonical();
    ZeroDigits();
    ZeroMantissa();
    D.UnitsFromReduced(D.Decimal("0", ""), 18);
  }

  lemma ZeroValue()
    ensures NativeValue(Some("0"), "0") == Ok("0")
  {
    hide Trim, AllDigits, D.CanonicalDecimal, D.DecimalToUnits, Value;
    ZeroIsCanonical();
    ZeroUnits();
    ZeroDigits();
    UnsignedTrim("0");
  }

  lemma ZeroMantissa()
    ensures D.DecimalOk(D.Decimal("0", "")) && Scaled(Dec, D.Mantissa(D.Decimal("0", "")), 18) == 0
  {
    ActiveCaps();
    assert "0" + "" == "0";
    ScaledZero(18);
  }

  lemma {:induction false} ScaledZero(k: nat)
    ensures Scaled(Dec, 0, k) == 0
  {
    if k > 0 {
      ScaledZero(k - 1);
    }
  }

  lemma UnsignedTrim(s: string)
    requires IsUnsigned(s)
    ensures Trim(s) == s
  {
    hide Trim, TrimStart, TrimEnd, IsSpace;
    D.DigitsHaveNoDot(s);
    TrimNoSpace(s);
  }

  lemma ArgumentsAreText(c: C.Call)
    ensures StrictItems(CallArguments(c)).Ok?
  {
    LeavesAreItems(CallArguments(c));
  }

  lemma {:induction false} LeavesAreItems(items: seq<HostValue>)
    requires forall i :: 0 <= i < |items| ==> items[i].VString? || items[i].VNumber?
    ensures StrictItems(items).Ok?
  {
    if items != [] {
      LeavesAreItems(items[1..]);
    }
  }

  lemma TaskIdTrimmed(intentId: string, mech: string, id: CallId)
    ensures Trim(TaskId(intentId, mech, id)) == TaskId(intentId, mech, id)
    ensures EscapeTaskId(TaskId(intentId, mech, id)).Ok?
  {
    hide Lower;
    var t := TaskId(intentId, mech, id);
    LastLetter(id);
    assert t[0] == 's' && t[|t| - 1] == Lower(CallIdText(id))[|CallIdText(id)| - 1];
    TrimEdges(t);
  }

  lemma LastLetter(id: CallId)
    ensures |CallIdText(id)| > 0 && !IsSpace(Lower(CallIdText(id))[|CallIdText(id)| - 1])
  {
  }

  lemma TrimEdges(t: string)
    requires t != "" && !IsSpace(t[0]) && !IsSpace(t[|t| - 1])
    ensures Trim(t) == t
  {
  }

  /** The amount argument is the decimal text of the decoded amount, so it passes the cap it was checked against. */
  lemma AmountPasses(c: C.Call, approvedMaximum: string)
    requires !c.AaveSupply? && IsUnsigned(approvedMaximum) && CheckAmounts(c, approvedMaximum).Ok?
    ensures AmountWithin(Argument(CallArguments(c), 1), Some(approvedMaximum)).Ok?
  {
    hide Trim, AllDigits, Value;
    UnsignedTrim(approvedMaximum);
    UnsignedTrim(if c.OlasRequest? then c.maxDeliveryRate else c.amount);
  }

  lemma PayloadTexts(p: L.Payload)
    ensures TextOf(CallBody(p.target, p.chainId, p.name, p.args, p.abi, p.value, p.gas)).Ok?
  {
    hide StrictText, Numeral;
    L.PayloadTextInjective(p, p);
    assert CallBody(p.target, p.chainId, p.name, p.args, p.abi, p.value, p.gas) == VObject(L.BodyFields(p));
  }

  /** Whatever the gateway admits, the policy it builds lets through. */
  lemma PolicyAdmits(hash: Hash, raw: Raw, facts: Facts, abi: CallId -> HostValue)
    requires Admit(raw, facts, abi).Ok? && forall id :: StrictText(abi(id)).Ok?
    ensures var a := Admit(raw, facts, abi).value; PrepareContractCall(hash, a.call, a.policy).Ok?
  {
    hide Admit, C.ValidateCalldata, ParseInput, PrepareContractCall, StrictText, ExecutionPolicy, SafeCall, AllDigits, Value,
         CheckAmounts, C.EncodeAllowedCall, P.WellFormed;
    AdmitSteps(raw, facts, abi);
    AdmittedBounds(raw, facts, abi);
    var a := Admit(raw, facts, abi).value;
    PolicyFits(hash, a.input, a.decoded, abi);
  }

  lemma PolicyFits(hash: Hash, input: Raw, c: C.Call, abi: CallId -> HostValue)
    requires IsUnsigned(input.approvedMaximum) && CheckAmounts(c, input.approvedMaximum).Ok? && !c.AaveSupply?
    requires forall id :: StrictText(abi(id)).Ok?
    ensures ExecutionPolicy(c, input.approvedMaximum).Ok? && SafeCall(input, c, abi).Ok?
    ensures PrepareContractCall(hash, SafeCall(input, c, abi).value, ExecutionPolicy(c, input.approvedMaximum).value).Ok?
  {
    hide ManifestRule, NativeValue, AmountWithin, StrictText, CallBody, EscapeTaskId, Trim, Join, IsAddress, AllDigits,
         CallArguments, CheckAmounts, FunctionName, TaskId, IsUnsigned, IsHexOfLength;
    PinnedCall(C.IdOf(c));
    ZeroValue();
    AmountPasses(c, input.approvedMaximum);
    ArgumentsText(c);
    TaskIdTrimmed(input.intentId, input.mechAddress, C.IdOf(c));
    var (rule, contract) := ManifestRule(C.IdOf(c)).value;
    PayloadTexts(L.Payload(contract.address, 8453, FunctionName(rule.id), StrictText(VArray(CallArguments(c))).value,
                           StrictText(abi(rule.id)).value, "0", None));
  }

  lemma ArgumentsText(c: C.Call)
    ensures StrictText(VArray(CallArguments(c))).Ok?
  {
    hide CallArguments;
    ArgumentsAreText(c);
  }

  // Keys

  lemma CallIdTexts(id: CallId)
    requires id != AAVE_SUPPLY
    ensures |Lower(CallIdText(id))| == 12
    ensures Lower(CallIdText(id))[0] == if id == OLAS_REQUEST then 'o' else 'u'
  {
    if id == OLAS_REQUEST {
      assert CallIdText(id)[0] == 'O';
    } else {
      assert CallIdText(id)[0] == 'U';
    }
  }

  /** A task id can be taken apart from its end: the kind of call, the Mech address, then the intent. */
  lemma TaskIdInjective(i: string, m: string, x: CallId, j: string, n: string, y: CallId)
    requires |m| == 42 && |n| == 42 && x != AAVE_SUPPLY && y != AAVE_SUPPLY
    requires TaskId(i, m, x) == TaskId(j, n, y)
    ensures i == j && m == n && x == y
  {
    hide Lower;
    CallIdTexts(x);
    CallIdTexts(y);
    var t := TaskId(i, m, x);
    var c, d := Lower(CallIdText(x)), Lower(CallIdText(y));
    assert c == t[|t| - 12..] && d == t[|t| - 12..];
    assert m == t[|t| - 55..|t| - 13] && n == t[|t| - 55..|t| - 13];
    assert i == t[8..|t| - 61] && j == t[8..|t| - 61];
  }

  /** The stored purpose text determines the kind of call and the Mech. */
  lemma PurposeTextInjective(x: CallId, m: string, y: CallId, n: string)
    requires CallIdText(x) + [':'] + m == CallIdText(y) + [':'] + n
    ensures x == y && m == n
  {
    assert forall id :: ':' !in CallIdText(id);
    SplitUnique(CallIdText(x), m, CallIdText(y), n, ':');
    assert CallIdText(x)[0] == CallIdText(y)[0];
  }

  /** The plan of an admitted submission. */
  ghost predicate Planned(hash: Hash, abi: CallId -> HostValue, p: G.Plan) {
    exists raw, facts :: PlanOf(hash, abi, raw, facts, p)
  }

  /** The prepared body stands in the plan by its canonical text. */
  predicate PlanOf(hash: Hash, abi: CallId -> HostValue, raw: Raw, facts: Facts, p: G.Plan) {
    && Admit(raw, facts, abi).Ok?
    && var a := Admit(raw, facts, abi).value;
    && p.intentId == raw.intentId && p.purpose == GS.Purpose(C.IdOf(a.decoded), a.input.mechAddress)
    && p.sender == a.input.from
    && PrepareContractCall(hash, a.call, a.policy).Ok?
    && var q := PrepareContractCall(hash, a.call, a.policy).value;
    && StrictText(q.body).Ok?
    && p.prepared == G.Prepared(q.payloadHash, q.idempotencyKey, StrictText(q.body).value)
  }

  /** A plan is for the submitted intent and Mech, and is sent by the organization's wallet, which is the submitted sender. */
  lemma PlanSays(hash: Hash, abi: CallId -> HostValue, raw: Raw, facts: Facts, p: G.Plan)
    requires PlanOf(hash, abi, raw, facts, p)
    ensures p.intentId == raw.intentId && p.purpose.mech == Lower(raw.mechAddress)
    ensures p.sender == facts.wallet == Lower(raw.from)
  {
    hide AllDigits, Value, IsAddress, IsHexData, IsHash, Lower, C.ValidateCalldata, ExecutionPolicy, SafeCall, CheckAmounts,
         PrepareContractCall, StrictText;
  }

  lemma AdmittedTask(raw: Raw, facts: Facts, abi: CallId -> HostValue)
    requires Admit(raw, facts, abi).Ok?
    ensures var a := Admit(raw, facts, abi).value;
      a.call.taskId == TaskId(raw.intentId, a.input.mechAddress, C.IdOf(a.decoded)) && |a.input.mechAddress| == 42
      && C.IdOf(a.decoded) != AAVE_SUPPLY
  {
    hide Admit, C.ValidateCalldata, AllDigits, Value, ExecutionPolicy, CheckAmounts, TaskId, ManifestRule, C.EncodeAllowedCall,
         P.WellFormed;
    AdmitSteps(raw, facts, abi);
    AdmittedBounds(raw, facts, abi);
  }

  /** The assumption the step machine makes of its plans holds of the plans that admission produces. */
  lemma PlansHaveBindingKeys(hash: Hash, abi: CallId -> HostValue, p: G.Plan, q: G.Plan)
    requires CollisionFree(hash) && Planned(hash, abi, p) && Planned(hash, abi, q)
    requires p.prepared.idempotencyKey == q.prepared.idempotencyKey
    ensures p.intentId == q.intentId && p.purpose == q.purpose
  {
    hide Admit, PrepareContractCall, StrictText, TaskId, L.Preparable, AllDigits, Trim;
    var r, f :| PlanOf(hash, abi, r, f, p);
    var s, g :| PlanOf(hash, abi, s, g, q);
    var a, b := Admit(r, f, abi).value, Admit(s, g, abi).value;
    L.CallKeyInjective(hash, a.call, a.policy, b.call, b.policy);
    AdmittedTask(r, f, abi);
    AdmittedTask(s, g, abi);
    TaskIdTrimmed(r.intentId, a.input.mechAddress, C.IdOf(a.decoded));
    TaskIdTrimmed(s.intentId, b.input.mechAddress, C.IdOf(b.decoded));
    TaskIdInjective(r.intentId, a.input.mechAddress, C.IdOf(a.decoded), s.intentId, b.input.mechAddress, C.IdOf(b.decoded));
  }

  /** With admitted plans only, every run of the gateway has the step machine's guarantees. */
  lemma AdmittedRuns(hash: Hash, abi: CallId -> HostValue, cfg: G.Config, events: seq<G.Event>, key: string)
    requires CollisionFree(hash) && forall p | cfg.legit(p) :: Planned(hash, abi, p)
    ensures G.KeyBinds(cfg)
    ensures var wire := G.Run(cfg, G.INITIAL, events).wire;
      G.Calls(wire, key) <= 1 && G.Requests(wire, key) <= cfg.maxRetries + 1
  {
    hide Planned, G.Run, G.Calls, G.Requests;
    forall p, q | cfg.legit(p) && cfg.legit(q) && p.prepared.idempotencyKey == q.prepared.idempotencyKey
      ensures p.intentId == q.intentId && p.purpose == q.purpose
    {
      PlansHaveBindingKeys(hash, abi, p, q);
    }
    G.AtMostOneBroadcast(cfg, events, key);
  }
}
