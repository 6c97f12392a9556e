/** The Python request planner (services/olas-adapter/src/synesis_olas/service.py) and its agreement
    with the TypeScript validator. The planner encodes with a generic ABI codec. */
module Planner {
  import opened Results
  import opened Text
  import opened Numerals
  import opened Manifest
  import opened Calldata
  import opened CalldataProofs
  import opened CalldataLaws
  import opened ManifestLaws
  import opened RoutingLaws
  import Abi = AbiEncoding

  const MAX_USDC_RATE: nat := 1_000_000
  const MAX_PROMPT_BYTES: nat := 8_192

  datatype PlannerError =
    | PromptTooLarge | MechNotDiscovered | ToolNotDiscovered | PaymentTypeUnsupported
    | RateExceedsPolicy | ToolSchemaTooLarge | InvalidIpfsHash

  /** A mech as discovery reports it; no tools means that the tool list is unknown. */
  datatype Mech = Mech(address: string, tools: seq<string>)

  datatype PlanRequest = PlanRequest(mechAddress: string, payerAddress: string, promptBytes: nat, tool: string,
                                     responseTimeout: nat)

  /** What the Olas client answers while one plan is made. */
  datatype Answers = Answers(mechs: seq<Mech>, paymentName: string, rate: int, schemaBytes: nat,
                             requestData: string, cidHex: string)

  datatype UnsignedCall = UnsignedCall(from: string, to: string, value: nat, data: string)

  datatype Plan = Plan(rate: nat, requestData: string, approval: UnsignedCall, request: UnsignedCall)

  /** The shapes that the request model enforces before planning. */
  predicate ParsedRequest(r: PlanRequest) {
    && IsAddress(r.mechAddress) && r.mechAddress[..2] == "0x"
    && IsAddress(r.payerAddress) && r.payerAddress[..2] == "0x"
    && 60 <= r.responseTimeout <= 300
  }

  /** `"0x" + value.removeprefix("0x").lower()` */
  function NormalizeHex(s: string): string {
    "0x" + Lower(if "0x" <= s then s[2..] else s)
  }

  function FindMech(mechs: seq<Mech>, address: string): Option<Mech> {
    if mechs == [] then None
    else if Lower(mechs[0].address) == Lower(address) then Some(mechs[0])
    else FindMech(mechs[1..], address)
  }

  function Require(ok: bool, otherwise: PlannerError): Result<(), PlannerError> {
    if ok then Ok(()) else Err(otherwise)
  }

  /** The price of one request: a positive number of USDC base units within the service limit. */
  function Quote(r: PlanRequest, a: Answers): (q: Result<nat, PlannerError>)
    ensures q.Ok? ==> 0 < q.value <= MAX_USDC_RATE && q.value == a.rate
  {
    var found := FindMech(a.mechs, r.mechAddress);
    var _ :- Require(found.Some?, MechNotDiscovered);
    var _ :- Require(found.value.tools == [] || r.tool in found.value.tools, ToolNotDiscovered);
    var _ :- Require(a.paymentName == "USDC_TOKEN", PaymentTypeUnsupported);
    var _ :- Require(0 < a.rate <= MAX_USDC_RATE, RateExceedsPolicy);
    var _ :- Require(a.schemaBytes <= 64_000, ToolSchemaTooLarge);
    Ok(a.rate)
  }

  predicate IsCid(cid: string) {
    |cid| >= 2 && cid[0] == 'f' && AllDigits(cid[1..], Hex) && IsLower(cid[1..])
  }

  function AdapterCalldata(selector: string, values: seq<Abi.AbiValue>): string {
    selector + Abi.AbiEncode(values)
  }

  function CreateRequestPlan(r: PlanRequest, a: Answers): Result<Plan, PlannerError>
    requires ParsedRequest(r)
  {
    var _ :- Require(r.promptBytes <= MAX_PROMPT_BYTES, PromptTooLarge);
    var rate :- Quote(r, a);
    var requestData := NormalizeHex(a.requestData);
    var _ :- Require(IsHexOfLength(requestData, 64) && IsCid(a.cidHex), InvalidIpfsHash);
    var payer := NormalizeHex(r.payerAddress);
    var approval := UnsignedCall(payer, USDC_ADDRESS, 0,
      AdapterCalldata(APPROVE_SELECTOR, [Abi.Address(TRACKER_ADDRESS[2..]), Abi.Uint(rate)]));
    var request := UnsignedCall(payer, MARKETPLACE_ADDRESS, 0,
      AdapterCalldata(REQUEST_SELECTOR,
        [Abi.Bytes(requestData[2..]), Abi.Uint(rate), Abi.Bytes32(USDC_PAYMENT_TYPE),
         Abi.Address(NormalizeHex(r.mechAddress)[2..]), Abi.Uint(r.responseTimeout), Abi.Bytes("")]));
    Ok(Plan(rate, requestData, approval, request))
  }

  function PlannedInput(c: UnsignedCall, mech: string): Input {
    GatewayInput(8453, c.to, c.data, c.value, mech)
  }

  /** The calls a plan stands for. */
  function ApprovalCall(p: Plan): Call {
    UsdcApprove(TRACKER_ADDRESS, Numeral(p.rate, Dec))
  }

  function RequestCall(r: PlanRequest, p: Plan): Call {
    OlasRequest(p.requestData, Numeral(p.rate, Dec), "0x" + USDC_PAYMENT_TYPE, Lower(r.mechAddress),
                r.responseTimeout, "0x")
  }

  lemma SmallRate(rate: nat)
    requires rate <= MAX_USDC_RATE
    ensures Abi.FitsWord(rate)
  {
    SafeFits(rate);
  }

  lemma ApprovalEncodes(p: Plan)
    requires p.rate <= MAX_USDC_RATE
    ensures WellFormed(ApprovalCall(p)) && EncodeAllowedCall(ApprovalCall(p))
      == Ok(AdapterCalldata(APPROVE_SELECTOR, [Abi.Address(TRACKER_ADDRESS[2..]), Abi.Uint(p.rate)]))
  {
    hide Abi.FitsWord, Abi.AbiEncode, Concat, AllDigits, EncodeApprove, ApproveWords;
    TrackerAddress();
    SmallRate(p.rate);
    ApproveLayout(TRACKER_ADDRESS, Numeral(p.rate, Dec));
    EncodersFollowAbi(ApprovalCall(p));
  }

  lemma EmptyBytes()
    ensures IsBytes("0x")
  {
  }

  lemma RequestCallWellFormed(r: PlanRequest, p: Plan)
    requires ParsedRequest(r) && IsHexOfLength(p.requestData, 64)
    ensures WellFormed(RequestCall(r, p))
  {
    ActivePaymentType();
    LowerAddress(r.mechAddress);
    EmptyBytes();
  }

  lemma RequestEncodes(r: PlanRequest, a: Answers, p: Plan)
    requires ParsedRequest(r) && CreateRequestPlan(r, a) == Ok(p)
    ensures WellFormed(RequestCall(r, p)) && EncodeAllowedCall(RequestCall(r, p)) == Ok(p.request.data)
  {
    hide Abi.FitsWord, Abi.AbiEncode, Concat, AllDigits, EncodeOlasRequest, Quote, IsAddress, IsHexData, RequestWords,
      DataTail, IsCid;
    RequestCallWellFormed(r, p);
    var c := RequestCall(r, p);
    SmallRate(p.rate);
    RequestSizes(c);
    EncodersFollowAbi(c);
    ActivePaymentType();
    LowerIdempotent(r.mechAddress);
    PlannedMech(r.mechAddress);
    LowerIdempotent(a.requestData);
    PlannedData(a.requestData);
    EmptyData();
  }

  lemma EmptyData()
    ensures Lower("0x")[2..] == ""
  {
  }

  lemma PlannedMech(mech: string)
    requires IsAddress(mech) && mech[..2] == "0x"
    ensures NormalizeHex(mech) == Lower(mech)
  {
    hide AllDigits;
    assert mech == "0x" + mech[2..];
    LowerConcat("0x", mech[2..]);
    PrefixIsLower();
  }

  lemma PrefixIsLower()
    ensures Lower("0x") == "0x"
  {
  }

  lemma PlannedData(data: string)
    ensures Lower(NormalizeHex(data)) == NormalizeHex(data)
  {
    LowerIdempotent(if "0x" <= data then data[2..] else data);
  }

  /** Both calls of a plan are to be sent by the payer, in lower case, without native value: the approval to the token,
      the request to the marketplace, each at the discovered price. */
  lemma PlannedCalls(r: PlanRequest, a: Answers, p: Plan)
    requires ParsedRequest(r) && CreateRequestPlan(r, a) == Ok(p)
    ensures p.approval.from == p.request.from == Lower(r.payerAddress)
    ensures p.approval.to == USDC_ADDRESS && p.request.to == MARKETPLACE_ADDRESS
    ensures p.approval.value == p.request.value == 0
    ensures p.rate == a.rate && 0 < p.rate <= 1_000_000
  {
    hide Abi.AbiEncode, IsHexData, IsAddress, AllDigits, IsCid, Lower, NormalizeHex;
    PlannedMech(r.payerAddress);
  }

  /** A plan is made exactly for a prompt within the limit, a discovered Mech that offers the tool, a USDC price within
      the limit, a tool schema of at most 64,000 bytes, and request data that is a 32-byte hash with a CID. */
  lemma PlannedIff(r: PlanRequest, a: Answers)
    requires ParsedRequest(r)
    ensures CreateRequestPlan(r, a).Ok? <==>
      && r.promptBytes <= 8_192 && Offered(r, a.mechs) && a.paymentName == "USDC_TOKEN" && 0 < a.rate <= 1_000_000
      && a.schemaBytes <= 64_000 && IsCid(a.cidHex) && IsHexOfLength(NormalizeHex(a.requestData), 64)
  {
    hide Abi.AbiEncode, IsAddress, AllDigits, IsCid, Lower, IsHexOfLength, NormalizeHex, FindMech, Offered;
    OfferedIff(r, a.mechs);
  }

  /** The first Mech of the list at the address. */
  predicate First(mechs: seq<Mech>, address: string, n: nat) {
    && n < |mechs| && Lower(mechs[n].address) == Lower(address)
    && forall k | 0 <= k < n :: Lower(mechs[k].address) != Lower(address)
  }

  lemma {:induction false} FindsFirst(mechs: seq<Mech>, address: string) returns (n: nat)
    ensures FindMech(mechs, address).Some? ==> First(mechs, address, n) && FindMech(mechs, address).value == mechs[n]
    ensures FindMech(mechs, address).None? ==> forall k | 0 <= k < |mechs| :: Lower(mechs[k].address) != Lower(address)
  {
    hide Lower;
    n := 0;
    if mechs != [] && Lower(mechs[0].address) != Lower(address) {
      var m := FindsFirst(mechs[1..], address);
      n := m + 1;
      assert forall k | 1 <= k < |mechs| :: mechs[k] == mechs[1..][k - 1];
    }
  }

  lemma OfferedIff(r: PlanRequest, mechs: seq<Mech>)
    ensures var found := FindMech(mechs, r.mechAddress);
      Offered(r, mechs) <==> found.Some? && (found.value.tools == [] || r.tool in found.value.tools)
  {
    hide Lower, FindMech;
    var n := FindsFirst(mechs, r.mechAddress);
    if m :| 0 <= m < |mechs| && First(mechs, r.mechAddress, m) {
      OneFirst(mechs, r.mechAddress, m, n);
    }
  }

  lemma OneFirst(mechs: seq<Mech>, address: string, m: nat, n: nat)
    requires First(mechs, address, m)
    requires First(mechs, address, n) || forall k | 0 <= k < |mechs| :: Lower(mechs[k].address) != Lower(address)
    ensures m == n
  {
    hide Lower;
  }

  /** The first Mech discovered at the address, in whatever case, lists the tool or no tool at all. */
  predicate Offered(r: PlanRequest, mechs: seq<Mech>) {
    exists n | 0 <= n < |mechs| && First(mechs, r.mechAddress, n) :: mechs[n].tools == [] || r.tool in mechs[n].tools
  }

  /** The approval of every plan is accepted under the active manifest and means what was planned. */
  lemma PlannedApprovalAccepted(r: PlanRequest, a: Answers, p: Plan, mech: string)
    requires ParsedRequest(r) && CreateRequestPlan(r, a) == Ok(p)
    ensures ValidateCalldata(PlannedInput(p.approval, mech), BASE_MANIFEST)
      == Ok(Decoded(ApprovalCall(p), APPROVE_SIGNATURE, APPROVE_SELECTOR))
  {
    hide Abi.FitsWord, Abi.AbiEncode, EncodeAllowedCall, ValidateCalldata, IsHexData, IsAddress, AllDigits, Quote, IsCid,
      InBounds, WellFormed, Normalize, FitsBase;
    var c, input := ApprovalCall(p), PlannedInput(p.approval, mech);
    ApprovalEncodes(p);
    PlannedSize(c);
    PlannedApprovalInBounds(p, input);
    PlannedRoute(c, USDC_ADDRESS, mech, p.approval.data);
    AcceptanceOnBaseIff(c, input);
  }

  lemma PlannedApprovalInBounds(p: Plan, input: Input)
    requires WellFormed(ApprovalCall(p)) && p.rate <= MAX_USDC_RATE
    ensures InBounds(ApprovalCall(p), APPROVE_RULE, input) && Normalize(ApprovalCall(p)) == ApprovalCall(p)
  {
    hide Abi.FitsWord, IsHexData, IsAddress, AllDigits;
    TrackerAddress();
    ActiveCaps();
    SmallRate(p.rate);
  }

  /** A planned call goes to the right contract with no native value. */
  lemma PlannedRoute(c: Call, to: string, mech: string, data: string)
    requires WellFormed(c) && !c.AaveSupply? && to == AddressOf(IdOf(c)) && EncodeAllowedCall(c) == Ok(data)
    requires InBounds(c, RuleOf(IdOf(c)), GatewayInput(8453, to, data, 0, mech))
    ensures FitsBase(c, GatewayInput(8453, to, data, 0, mech))
  {
    hide IsHexData, IsAddress, AllDigits, EncodeAllowedCall, InBounds, WellFormed;
    ActiveAddresses();
    ActiveCaps();
    EncodedShape(c);
    assert Numeral(0, Dec) == "0";
  }

  /** Planned calldata is far below the length limit of a text. */
  lemma PlannedSize(c: Call)
    requires WellFormed(c) && EncodeAllowedCall(c).Ok?
    requires c.UsdcApprove? || (c.OlasRequest? && |c.requestData| == 66 && |c.paymentData| == 2)
    ensures |EncodeAllowedCall(c).value| <= 1000
  {
    hide Abi.FitsWord, Abi.Word, Concat, AllDigits, EncodeOlasRequest, EncodeApprove, IsAddress, RequestWords, ApproveWords,
      Abi.Tail;
    if c.UsdcApprove? {
      ApproveLayout(c.spender, c.amount);
      ApproveWordsWide(c.spender, c.amount);
    } else {
      RequestFits(c);
      RequestLayout(c);
      RequestHeadHex(c);
      TailShape(Lower(c.requestData)[2..]);
      TailShape(Lower(c.paymentData)[2..]);
    }
  }

  /** The marketplace request of every plan is accepted once its mech is approved, and decodes to
      the planned data, rate, payment type, mech and timeout. */
  lemma PlannedRequestAccepted(r: PlanRequest, a: Answers, p: Plan)
    requires ParsedRequest(r) && CreateRequestPlan(r, a) == Ok(p)
    ensures ValidateCalldata(PlannedInput(p.request, r.mechAddress), BASE_MANIFEST)
      == Ok(Decoded(RequestCall(r, p), REQUEST_SIGNATURE, REQUEST_SELECTOR))
  {
    hide Abi.FitsWord, Abi.AbiEncode, EncodeAllowedCall, ValidateCalldata, IsHexData, IsAddress, AllDigits, Quote, IsCid,
      InBounds, WellFormed, Normalize, FitsBase;
    var c, input := RequestCall(r, p), PlannedInput(p.request, r.mechAddress);
    RequestEncodes(r, a, p);
    PlannedSize(c);
    PlannedRequestInBounds(r, p, input);
    PlannedRequestNormal(r, a, p);
    PlannedRoute(c, MARKETPLACE_ADDRESS, r.mechAddress, p.request.data);
    AcceptanceOnBaseIff(c, input);
  }

  lemma PlannedRequestNormal(r: PlanRequest, a: Answers, p: Plan)
    requires ParsedRequest(r) && CreateRequestPlan(r, a) == Ok(p) && WellFormed(RequestCall(r, p))
    ensures Normalize(RequestCall(r, p)) == RequestCall(r, p)
  {
    hide Abi.AbiEncode, IsHexData, IsAddress, AllDigits, Quote, IsCid;
    ActivePaymentType();
    LowerIdempotent(r.mechAddress);
    PlannedData(a.requestData);
  }

  lemma PlannedRequestInBounds(r: PlanRequest, p: Plan, input: Input)
    requires ParsedRequest(r) && WellFormed(RequestCall(r, p)) && p.rate <= MAX_USDC_RATE && |p.requestData| == 66
    requires input.allowedPriorityMechs == Some([r.mechAddress])
    ensures InBounds(RequestCall(r, p), REQUEST_RULE, input)
  {
    hide Abi.FitsWord, IsHexData, IsAddress, AllDigits;
    ActiveCaps();
    SmallRate(p.rate);
    LowerIdempotent(r.mechAddress);
    assert [r.mechAddress][0] == r.mechAddress;
  }
}
