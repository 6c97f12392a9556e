/** Calldata encoding, decoding and allowlist validation (packages/olas-contracts/src/calldata.ts). */
module Calldata {
  import opened Results
  import opened Text
  import opened Numerals
  import opened Lists
  import opened Manifest
  import Abi = AbiEncoding

  /** Arguments as the TypeScript callers hold them: prefixed hex and decimal strings. */
  datatype Call =
    | OlasRequest(requestData: string, maxDeliveryRate: string, paymentType: string,
                  priorityMech: string, responseTimeout: nat, paymentData: string)
    | UsdcApprove(spender: string, amount: string)
    | AaveSupply(asset: string, amount: string, onBehalfOf: string, referralCode: nat)

  function IdOf(c: Call): CallId {
    match c
    case OlasRequest(_, _, _, _, _, _) => OLAS_REQUEST
    case UsdcApprove(_, _) => USDC_APPROVE
    case AaveSupply(_, _, _, _) => AAVE_SUPPLY
  }

  datatype Decoded = Decoded(call: Call, signature: string, selector: string)

  datatype Input = Input(chainId: int, target: string, data: string, nativeValueWei: string,
                         expectedWallet: Option<string>, allowedPriorityMechs: Option<seq<string>>)

  /** What the gateway hands to the validator: one Mech, and no wallet. */
  function GatewayInput(chainId: int, to: string, data: string, value: nat, mech: string): Input {
    Input(chainId, to, data, Numeral(value, Dec), None, Some([mech]))
  }

  datatype Rejection =
    | ChainNotAllowed | MalformedCalldata | MalformedAddress | TargetNotAllowed | SelectorNotAllowed
    | MalformedInteger | ValueAboveCap | Truncated | AddressPadding | IntegerOutOfRange
    | MalformedBytes | OffsetTooLarge | OffsetNotCanonical | LengthTooLarge
    | WrongConstraint | EmptyRequest | RequestTooLong | RateAboveCap | PaymentTypeNotAllowed
    | TimeoutOutOfBounds | PaymentDataNotEmpty | MechNotApproved | NotCanonical
    | WrongLength | SpenderNotAllowed | AmountAboveCap
    | ReferralTooLarge | AssetNotAllowed | ReferralNotAllowed | WalletRequired | WrongBeneficiary

  type Outcome<T> = Result<T, Rejection>

  function Check(ok: bool, otherwise: Rejection): Outcome<()> {
    if ok then Ok(()) else Err(otherwise)
  }

  /** `BigInt(text)` on decimal digits. */
  function BigIntOf(s: string): (r: Outcome<nat>)
    ensures r.Ok? <==> IsUnsigned(s)
    ensures r.Ok? ==> r.value == Value(s, Dec)
  {
    if IsUnsigned(s) then Ok(Value(s, Dec)) else Err(MalformedInteger)
  }

  // Encoding

  function UintWord(n: nat): (r: Outcome<string>)
    ensures r.Ok? <==> Abi.FitsWord(n)
    ensures r.Ok? ==> r.value == Abi.Word(n)
  {
    if n < Pow(Hex, 64) then Ok(PadZeros(Numeral(n, Hex), 64)) else Err(IntegerOutOfRange)
  }

  function AddressWord(s: string): (r: Outcome<string>)
    ensures r.Ok? <==> IsAddress(s)
    ensures r.Ok? ==> r.value == Zeros(24) + Lower(s)[2..]
  {
    var a :- NormalAddress(s, MalformedAddress);
    Ok(PadZeros(a[2..], 64))
  }

  function BytesTail(s: string): Outcome<string> {
    var data := Lower(SliceFrom(s, 2));
    var _ :- Check(|data| % 2 == 0 && AllDigits(data, Hex), MalformedBytes);
    var padding := (64 - |data| % 64) % 64;
    var length :- UintWord(|data| / 2);
    Ok(length + data + Zeros(padding))
  }

  function EncodeOlasRequest(c: Call): Outcome<string>
    requires c.OlasRequest?
  {
    var requestTail :- BytesTail(c.requestData);
    var paymentTail :- BytesTail(c.paymentData);
    var headBytes := 6 * 32;
    var w0 :- UintWord(headBytes);
    var rate :- BigIntOf(c.maxDeliveryRate);
    var w1 :- UintWord(rate);
    var w2 := PadZeros(Lower(SliceFrom(c.paymentType, 2)), 64);
    var w3 :- AddressWord(c.priorityMech);
    var w4 :- UintWord(c.responseTimeout);
    var w5 :- UintWord(headBytes + |requestTail| / 2);
    Ok("0xf6938b09" + Concat([w0, w1, w2, w3, w4, w5]) + requestTail + paymentTail)
  }

  function EncodeApprove(spender: string, amount: string): Outcome<string> {
    var w0 :- AddressWord(spender);
    var n :- BigIntOf(amount);
    var w1 :- UintWord(n);
    Ok("0x095ea7b3" + Concat([w0, w1]))
  }

  function EncodeSupply(c: Call): Outcome<string>
    requires c.AaveSupply?
  {
    var w0 :- AddressWord(c.asset);
    var n :- BigIntOf(c.amount);
    var w1 :- UintWord(n);
    var w2 :- AddressWord(c.onBehalfOf);
    var w3 :- UintWord(c.referralCode);
    Ok("0x617ba037" + Concat([w0, w1, w2, w3]))
  }

  function EncodeAllowedCall(c: Call): Outcome<string> {
    match c
    case UsdcApprove(spender, amount) => EncodeApprove(spender, amount)
    case AaveSupply(_, _, _, _) => EncodeSupply(c)
    case OlasRequest(_, _, _, _, _, _) => EncodeOlasRequest(c)
  }

  // Decoding

  function WordAt(payload: string, index: nat): (r: Outcome<string>)
    requires AllDigits(payload, Hex)
    ensures r.Ok? <==> 64 * index + 64 <= |payload|
    ensures r.Ok? ==> r.value == payload[64 * index..64 * index + 64]
    ensures r.Ok? ==> |r.value| == 64 && AllDigits(r.value, Hex)
  {
    var start := index * 64;
    var word := Slice(payload, start, start + 64);
    if |word| != 64 then Err(Truncated) else Ok(word)
  }

  function DecodeUintWord(word: string): nat
    requires AllDigits(word, Hex)
  {
    Value(word, Hex)
  }

  function DecodeAddressWord(word: string): (r: Outcome<string>)
    requires AllDigits(word, Hex) && |word| == 64
    ensures r.Ok? <==> word[..24] == Zeros(24)
    ensures r.Ok? ==> r.value == "0x" + Lower(word[24..]) && IsAddress(r.value)
  {
    var _ :- Check(word[..24] == Zeros(24), AddressPadding);
    LowerConcat("0x", word[24..]);
    NormalAddress("0x" + word[24..], MalformedAddress)
  }

  function DecodeDynamicBytes(payload: string, offsetWord: string, headBytes: nat): (r: Outcome<string>)
    requires AllDigits(payload, Hex) && AllDigits(offsetWord, Hex)
  {
    var offset := DecodeUintWord(offsetWord);
    var _ :- Check(offset <= MAX_SAFE_INTEGER, OffsetTooLarge);
    var _ :- Check(headBytes <= offset && offset % 32 == 0, OffsetNotCanonical);
    var lengthPosition := offset * 2;
    var lengthWord := Slice(payload, lengthPosition, lengthPosition + 64);
    var _ :- Check(|lengthWord| == 64, Truncated);
    var length := DecodeUintWord(lengthWord);
    var _ :- Check(length <= MAX_SAFE_INTEGER, LengthTooLarge);
    var dataStart := lengthPosition + 64;
    var data := Slice(payload, dataStart, dataStart + length * 2);
    var _ :- Check(|data| == length * 2, Truncated);
    Ok("0x" + data)
  }

  // Manifest lookups

  function ContractForTarget(m: Content, target: string): (r: Outcome<Contract>) {
    var normalized :- NormalAddress(target, MalformedAddress);
    var matches := Filter((c: Contract) => Lower(c.address) == normalized, m.contracts);
    if |matches| != 1 then Err(TargetNotAllowed) else Ok(matches[0])
  }

  function RuleForSelector(m: Content, id: ContractId, selector: string): Outcome<AllowedCall> {
    var matches := Filter((c: AllowedCall) => c.contractId == id && Lower(c.selector) == Lower(selector),
                          m.allowedCalls);
    if |matches| != 1 then Err(SelectorNotAllowed) else Ok(matches[0])
  }

  /** The part of validation that picks the rule: chain, shape, target, selector, native value. */
  function Route(input: Input, m: Content): (r: Outcome<AllowedCall>)
    ensures r.Ok? ==> IsHexData(input.data) && |input.data| >= 10
  {
    var _ :- Check(input.chainId == m.chainId, ChainNotAllowed);
    var _ :- Check(IsHexData(input.data) && |input.data| >= 10 && |input.data| % 2 == 0, MalformedCalldata);
    var contract :- ContractForTarget(m, input.target);
    var rule :- RuleForSelector(m, contract.id, Lower(input.data[..10]));
    var value :- BigIntOf(input.nativeValueWei);
    var cap :- BigIntOf(rule.maxNativeValueWei);
    var _ :- Check(value <= cap, ValueAboveCap);
    Ok(rule)
  }

  function NormalizeAll(addresses: seq<string>): (r: Outcome<seq<string>>)
    ensures r.Ok? <==> forall i :: 0 <= i < |addresses| ==> IsAddress(addresses[i])
    ensures r.Ok? ==> |r.value| == |addresses| && forall i :: 0 <= i < |addresses| ==> r.value[i] == Lower(addresses[i])
  {
    if addresses == [] then Ok([]) else
      var first :- NormalAddress(addresses[0], MalformedAddress);
      var rest :- NormalizeAll(addresses[1..]);
      Ok([first] + rest)
  }

  function DecodeOlas(payload: string, rule: AllowedCall, input: Input): Outcome<Decoded>
    requires AllDigits(payload, Hex)
  {
    var _ :- Check(|payload| >= 6 * 64, Truncated);
    var w2 :- WordAt(payload, 2);
    var w0 :- WordAt(payload, 0);
    var requestData :- DecodeDynamicBytes(payload, w0, 192);
    var w1 :- WordAt(payload, 1);
    var rate := DecodeUintWord(w1);
    var w3 :- WordAt(payload, 3);
    var priorityMech :- DecodeAddressWord(w3);
    var w4 :- WordAt(payload, 4);
    var timeout := DecodeUintWord(w4);
    var w5 :- WordAt(payload, 5);
    var paymentData :- DecodeDynamicBytes(payload, w5, 192);
    var call := OlasRequest(requestData, Numeral(rate, Dec), "0x" + w2, priorityMech, timeout, paymentData);
    var _ :- Check(rule.constraint.OlasRequestUsdc?, WrongConstraint);
    var bound := rule.constraint;
    var _ :- Check(|requestData| > 2, EmptyRequest);
    var _ :- Check((|requestData| - 2) / 2 <= bound.maxRequestBytes, RequestTooLong);
    var cap :- BigIntOf(bound.maxDeliveryRateBaseUnits);
    var _ :- Check(rate <= cap, RateAboveCap);
    var _ :- Check("0x" + w2 == Lower(bound.paymentType), PaymentTypeNotAllowed);
    var _ :- Check(timeout <= MAX_SAFE_INTEGER && bound.minResponseTimeoutSeconds <= timeout
                   && timeout <= bound.maxResponseTimeoutSeconds, TimeoutOutOfBounds);
    var _ :- Check(paymentData == "0x", PaymentDataNotEmpty);
    var mechs :- NormalizeAll(input.allowedPriorityMechs.GetOr([]));
    var _ :- Check(priorityMech in mechs, MechNotApproved);
    var canonical :- EncodeOlasRequest(call);
    var _ :- Check(SliceFrom(canonical, 10) == payload, NotCanonical);
    Ok(Decoded(call, rule.signature, rule.selector))
  }

  /** The cap for a spender, if the constraint allows that spender at all. */
  function SpenderCap(c: Constraint, spender: string): Option<string> {
    match c
    case UsdcApproveAave(_, cap) => Some(cap)
    case UsdcApproveBoundedSpenders(spenders) => FindSpender(spenders, spender)
    case _ => None
  }

  function FindSpender(spenders: seq<Spender>, spender: string): Option<string> {
    if spenders == [] then None
    else if Lower(spenders[0].address) == spender then Some(spenders[0].maxAmountBaseUnits)
    else FindSpender(spenders[1..], spender)
  }

  function DecodeApprove(payload: string, rule: AllowedCall, input: Input): Outcome<Decoded>
    requires AllDigits(payload, Hex)
  {
    var _ :- Check(|payload| == 128, WrongLength);
    var w0 :- WordAt(payload, 0);
    var spender :- DecodeAddressWord(w0);
    var w1 :- WordAt(payload, 1);
    var amount := DecodeUintWord(w1);
    var bound := SpenderCap(rule.constraint, spender);
    var _ :- Check(bound.Some?, SpenderNotAllowed);
    var cap :- BigIntOf(bound.value);
    var _ :- Check(amount <= cap, AmountAboveCap);
    var canonical :- EncodeApprove(spender, Numeral(amount, Dec));
    var _ :- Check(Lower(canonical) == Lower(input.data), NotCanonical);
    Ok(Decoded(UsdcApprove(spender, Numeral(amount, Dec)), rule.signature, rule.selector))
  }

  function DecodeSupply(payload: string, rule: AllowedCall, input: Input): Outcome<Decoded>
    requires AllDigits(payload, Hex)
  {
    var _ :- Check(|payload| == 256, WrongLength);
    var w0 :- WordAt(payload, 0);
    var asset :- DecodeAddressWord(w0);
    var w1 :- WordAt(payload, 1);
    var amount := DecodeUintWord(w1);
    var w2 :- WordAt(payload, 2);
    var onBehalfOf :- DecodeAddressWord(w2);
    var w3 :- WordAt(payload, 3);
    var referral := DecodeUintWord(w3);
    var _ :- Check(referral <= 65535, ReferralTooLarge);
    var _ :- Check(rule.constraint.AaveSupplyUsdc?, WrongConstraint);
    var bound := rule.constraint;
    var _ :- Check(asset == Lower(bound.asset), AssetNotAllowed);
    var cap :- BigIntOf(bound.supplyCap);
    var _ :- Check(amount <= cap, AmountAboveCap);
    var _ :- Check(referral == bound.referralCode, ReferralNotAllowed);
    var _ :- Check(input.expectedWallet.Some? && input.expectedWallet.value != "", WalletRequired);
    var wallet :- NormalAddress(input.expectedWallet.value, MalformedAddress);
    var _ :- Check(onBehalfOf == wallet, WrongBeneficiary);
    var call := AaveSupply(asset, Numeral(amount, Dec), onBehalfOf, referral);
    var canonical :- EncodeSupply(call);
    var _ :- Check(Lower(canonical) == Lower(input.data), NotCanonical);
    Ok(Decoded(call, rule.signature, rule.selector))
  }

  /** The lower-cased arguments of a calldata text. */
  function Payload(data: string): (r: string)
    requires IsHexData(data) && |data| >= 10
    ensures AllDigits(r, Hex) && IsLower(r)
    ensures r == Lower(data)[10..]
  {
    var tail := data[10..];
    assert forall i :: 0 <= i < |tail| ==> tail[i] == data[2..][i + 8];
    LowerKeepsValue(tail, Hex);
    LowerSlice(data, 10, |data|);
    LowerIdempotent(tail);
    LowerOfLower(Lower(tail));
    Lower(tail)
  }

  function ValidateCalldata(input: Input, m: Content): Outcome<Decoded> {
    var rule :- Route(input, m);
    var payload := Payload(input.data);
    match rule.id
    case OLAS_REQUEST => DecodeOlas(payload, rule, input)
    case USDC_APPROVE => DecodeApprove(payload, rule, input)
    case AAVE_SUPPLY => DecodeSupply(payload, rule, input)
  }
}
