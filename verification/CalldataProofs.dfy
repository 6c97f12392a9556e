/** The hand-written encoders against the strict encoding of the Solidity Contract ABI Specification, and the normal form
    and bounds of calls that the laws of decoding and validation speak of. */
module CalldataProofs {
  import opened Results
  import opened Text
  import opened Numerals
  import opened Manifest
  import opened Calldata
  import Abi = AbiEncoding

  // Vocabulary

  predicate IsBytes(s: string) {
    IsHexData(s) && |s| % 2 == 0
  }

  predicate WellFormed(c: Call) {
    match c
    case OlasRequest(data, rate, paymentType, mech, _, paymentData) =>
      IsBytes(data) && IsUnsigned(rate) && IsHexOfLength(paymentType, 64) && IsAddress(mech) && IsBytes(paymentData)
    case UsdcApprove(spender, amount) => IsAddress(spender) && IsUnsigned(amount)
    case AaveSupply(asset, amount, wallet, _) => IsAddress(asset) && IsUnsigned(amount) && IsAddress(wallet)
  }

  function Canonical(amount: string): string
    requires IsUnsigned(amount)
  {
    Numeral(Value(amount, Dec), Dec)
  }

  /** The same call with lower-case hex and canonical decimal amounts. */
  function Normalize(c: Call): Call
    requires WellFormed(c)
  {
    match c
    case OlasRequest(data, rate, paymentType, mech, timeout, paymentData) =>
      OlasRequest(Lower(data), Canonical(rate), Lower(paymentType), Lower(mech), timeout, Lower(paymentData))
    case UsdcApprove(spender, amount) => UsdcApprove(Lower(spender), Canonical(amount))
    case AaveSupply(asset, amount, wallet, code) => AaveSupply(Lower(asset), Canonical(amount), Lower(wallet), code)
  }

  /** The manifest's limits on a call, as a caller can check them before encoding. */
  predicate InBounds(c: Call, rule: AllowedCall, input: Input)
    requires WellFormed(c)
  {
    match c
    case OlasRequest(data, rate, paymentType, mech, timeout, paymentData) =>
      var bound := rule.constraint;
      && bound.OlasRequestUsdc?
      && 0 < (|data| - 2) / 2 <= bound.maxRequestBytes
      && IsUnsigned(bound.maxDeliveryRateBaseUnits)
      && Value(rate, Dec) <= Value(bound.maxDeliveryRateBaseUnits, Dec)
      && Abi.FitsWord(Value(rate, Dec))
      && Lower(paymentType) == Lower(bound.paymentType)
      && timeout <= MAX_SAFE_INTEGER
      && bound.minResponseTimeoutSeconds <= timeout <= bound.maxResponseTimeoutSeconds
      && |paymentData| == 2
      && Approved(mech, input.allowedPriorityMechs)
    case UsdcApprove(spender, amount) =>
      var cap := SpenderCap(rule.constraint, Lower(spender));
      && cap.Some? && IsUnsigned(cap.value) && Value(amount, Dec) <= Value(cap.value, Dec)
      && Abi.FitsWord(Value(amount, Dec))
    case AaveSupply(asset, amount, wallet, code) =>
      var bound := rule.constraint;
      && bound.AaveSupplyUsdc?
      && Lower(asset) == Lower(bound.asset)
      && IsUnsigned(bound.supplyCap) && Value(amount, Dec) <= Value(bound.supplyCap, Dec)
      && Abi.FitsWord(Value(amount, Dec))
      && code == bound.referralCode <= 65535
      && input.expectedWallet.Some? && IsAddress(input.expectedWallet.value)
      && Lower(wallet) == Lower(input.expectedWallet.value)
  }

  predicate Approved(mech: string, allowed: Option<seq<string>>) {
    && allowed.Some?
    && (forall i :: 0 <= i < |allowed.value| ==> IsAddress(allowed.value[i]))
    && (exists i :: 0 <= i < |allowed.value| && Lower(allowed.value[i]) == Lower(mech))
  }

  function SelectorOf(id: CallId): string {
    match id
    case OLAS_REQUEST => REQUEST_SELECTOR
    case USDC_APPROVE => APPROVE_SELECTOR
    case AAVE_SUPPLY => SUPPLY_SELECTOR
  }

  /** The arguments as typed ABI values. */
  function AbiValues(c: Call): seq<Abi.AbiValue>
    requires WellFormed(c)
  {
    match c
    case OlasRequest(data, rate, paymentType, mech, timeout, paymentData) =>
      [Abi.Bytes(Lower(data)[2..]), Abi.Uint(Value(rate, Dec)), Abi.Bytes32(Lower(paymentType)[2..]),
       Abi.Address(Lower(mech)[2..]), Abi.Uint(timeout), Abi.Bytes(Lower(paymentData)[2..])]
    case UsdcApprove(spender, amount) =>
      [Abi.Address(Lower(spender)[2..]), Abi.Uint(Value(amount, Dec))]
    case AaveSupply(asset, amount, wallet, code) =>
      [Abi.Address(Lower(asset)[2..]), Abi.Uint(Value(amount, Dec)), Abi.Address(Lower(wallet)[2..]), Abi.Uint(code)]
  }

  // The encoders implement the specification

  lemma StaticTuple(v: seq<Abi.AbiValue>)
    requires forall i :: 0 <= i < |v| ==> !v[i].Bytes?
    ensures Abi.AbiEncode(v) == Concat(Abi.HeadWords(v))
    ensures forall i :: 0 <= i < |v| ==> Abi.HeadWords(v)[i] == Abi.Head(v[i], 0)
  {
    hide Abi.Tail, Abi.TailBytes, Abi.Word, Abi.TailParts, Concat;
    Abi.StaticTails(v);
    forall i | 0 <= i < |v| ensures Abi.HeadWords(v)[i] == Abi.Head(v[i], 0) {
      StaticHead(v, i);
    }
  }

  lemma StaticHead(v: seq<Abi.AbiValue>, i: nat)
    requires i < |v| && !v[i].Bytes?
    ensures Abi.HeadWords(v)[i] == Abi.Head(v[i], 0)
  {
    hide Abi.Tail, Abi.TailBytes, Abi.Word, Abi.TailParts, Concat, PadZeros;
  }

  lemma RequestTuple(v: seq<Abi.AbiValue>)
    requires |v| == 6 && v[0].Bytes? && v[5].Bytes? && forall i :: 0 < i < 5 ==> !v[i].Bytes?
    ensures forall i :: 0 < i < 5 ==> Abi.HeadWords(v)[i] == Abi.Head(v[i], 0)
    ensures Abi.HeadWords(v)[0] == Abi.Word(192)
    ensures Abi.HeadWords(v)[5] == Abi.Word(192 + |Abi.Tail(v[0])| / 2)
    ensures Concat(Abi.TailParts(v)) == Abi.Tail(v[0]) + Abi.Tail(v[5])
  {
    hide Abi.Word, Abi.Tail, Abi.HeadWords, Abi.TailParts, Concat;
    StaticHead(v, 1);
    StaticHead(v, 2);
    StaticHead(v, 3);
    StaticHead(v, 4);
    OffsetHeads(v);
    OuterTails(v);
  }

  lemma FirstOffset(v: seq<Abi.AbiValue>)
    requires |v| == 6 && v[0].Bytes?
    ensures Abi.HeadWords(v)[0] == Abi.Word(192)
  {
    hide Abi.Word, Abi.Tail;
    assert v[..0] == [];
  }

  lemma LastOffset(v: seq<Abi.AbiValue>)
    requires |v| == 6 && v[0].Bytes? && v[5].Bytes? && forall i :: 0 < i < 5 ==> !v[i].Bytes?
    ensures Abi.HeadWords(v)[5] == Abi.Word(192 + |Abi.Tail(v[0])| / 2)
  {
    hide Abi.Word, Abi.Tail, Abi.TailBytes;
    Abi.OneDynamicTail(v[..5]);
    assert v[..5][0] == v[0];
  }

  lemma OffsetHeads(v: seq<Abi.AbiValue>)
    requires |v| == 6 && v[0].Bytes? && v[5].Bytes? && forall i :: 0 < i < 5 ==> !v[i].Bytes?
    ensures Abi.HeadWords(v)[0] == Abi.Word(192)
    ensures Abi.HeadWords(v)[5] == Abi.Word(192 + |Abi.Tail(v[0])| / 2)
  {
    hide Abi.Word, Abi.Tail, Abi.HeadWords;
    FirstOffset(v);
    LastOffset(v);
  }

  lemma OuterTails(v: seq<Abi.AbiValue>)
    requires |v| == 6 && forall i :: 0 < i < 5 ==> !v[i].Bytes?
    ensures Concat(Abi.TailParts(v)) == Abi.Tail(v[0]) + Abi.Tail(v[5])
  {
    hide Abi.Word, Abi.Tail, Abi.TailBytes, Concat;
    var first, middle, last := [Abi.Tail(v[0])], Abi.TailParts(v[1..5]), [Abi.Tail(v[5])];
    assert Abi.TailParts(v) == (first + middle) + last;
    Abi.StaticTails(v[1..5]);
    ConcatAppend(first + middle, last);
    ConcatAppend(first, middle);
    ConcatOne(Abi.Tail(v[0]));
    ConcatOne(Abi.Tail(v[5]));
  }

  lemma AddressWordIsHead(s: string)
    requires IsAddress(s)
    ensures AddressWord(s) == Ok(Abi.Head(Abi.Address(Lower(s)[2..]), 0))
  {
  }

  lemma HexDigits(s: string)
    requires IsHexData(s)
    ensures Lower(s)[2..] == Lower(s[2..]) == Lower(SliceFrom(s, 2))
    ensures AllDigits(Lower(s)[2..], Hex) && IsLower(Lower(s)[2..])
  {
    LowerSlice(s, 2, |s|);
    LowerKeepsValue(s[2..], Hex);
    LowerIdempotent(s[2..]);
    LowerOfLower(Lower(s[2..]));
  }

  lemma TailPadding(length: nat)
    ensures Abi.Padding(length) == (64 - length % 64) % 64
  {
  }

  lemma BytesTailIsTail(s: string)
    requires IsBytes(s)
    ensures var hex := Lower(s)[2..];
      if Abi.FitsWord(|hex| / 2) then BytesTail(s) == Ok(Abi.Tail(Abi.Bytes(hex))) else BytesTail(s).Err?
  {
    hide AllDigits, IsLower, Abi.FitsWord, Abi.Word, UintWord;
    HexDigits(s);
    var hex := Lower(s)[2..];
    assert |hex| % 2 == 0;
    TailPadding(|hex|);
  }

  /** Every encoding is the strict ABI encoding of the typed arguments, after the selector. */
  lemma EncodersFollowAbi(c: Call)
    requires WellFormed(c) && EncodeAllowedCall(c).Ok?
    ensures EncodeAllowedCall(c).value == SelectorOf(IdOf(c)) + Abi.AbiEncode(AbiValues(c))
  {
    match c
    case UsdcApprove(spender, amount) => ApproveFollowsAbi(c);
    case AaveSupply(asset, amount, wallet, code) => SupplyFollowsAbi(c);
    case OlasRequest(data, rate, paymentType, mech, timeout, paymentData) => RequestFollowsAbi(c);
  }

  lemma UintWordIsHead(n: nat)
    requires UintWord(n).Ok?
    ensures UintWord(n).value == Abi.Head(Abi.Uint(n), 0)
  {
    hide Abi.Word, Abi.FitsWord;
  }

  /** The encoders and the manifest name the same selectors. */
  lemma SelectorTexts()
    ensures APPROVE_SELECTOR == "0x095ea7b3" && SUPPLY_SELECTOR == "0x617ba037" && REQUEST_SELECTOR == "0xf6938b09"
  {
  }

  /** An approval's encoding in terms of its words. */
  lemma ApproveEncoded(c: Call)
    requires c.UsdcApprove? && WellFormed(c) && EncodeAllowedCall(c).Ok?
    ensures UintWord(Value(c.amount, Dec)).Ok?
    ensures EncodeAllowedCall(c).value
            == "0x095ea7b3" + Concat([AddressWord(c.spender).value, UintWord(Value(c.amount, Dec)).value])
  {
    hide AddressWord, UintWord, IsAddress, AllDigits, Concat, Value;
  }

  lemma ApproveFollowsAbi(c: Call)
    requires c.UsdcApprove? && WellFormed(c) && EncodeAllowedCall(c).Ok?
    ensures EncodeAllowedCall(c).value == APPROVE_SELECTOR + Abi.AbiEncode(AbiValues(c))
  {
    hide AddressWord, UintWord, IsAddress, AllDigits, Concat, Abi.HeadWords, Abi.AbiEncode, Abi.Head, EncodeAllowedCall, Value;
    var v := AbiValues(c);
    ApproveEncoded(c);
    SelectorTexts();
    StaticTuple(v);
    AddressWordIsHead(c.spender);
    UintWordIsHead(Value(c.amount, Dec));
    assert Abi.HeadWords(v) == [AddressWord(c.spender).value, UintWord(Value(c.amount, Dec)).value];
  }

  /** A supply's encoding in terms of its words. */
  lemma SupplyEncoded(c: Call)
    requires c.AaveSupply? && WellFormed(c) && EncodeAllowedCall(c).Ok?
    ensures UintWord(Value(c.amount, Dec)).Ok? && UintWord(c.referralCode).Ok?
    ensures EncodeAllowedCall(c).value
            == "0x617ba037" + Concat([AddressWord(c.asset).value, UintWord(Value(c.amount, Dec)).value,
                                      AddressWord(c.onBehalfOf).value, UintWord(c.referralCode).value])
  {
    hide AddressWord, UintWord, IsAddress, AllDigits, Concat, Value;
  }

  lemma SupplyFollowsAbi(c: Call)
    requires c.AaveSupply? && WellFormed(c) && EncodeAllowedCall(c).Ok?
    ensures EncodeAllowedCall(c).value == SUPPLY_SELECTOR + Abi.AbiEncode(AbiValues(c))
  {
    hide AddressWord, UintWord, IsAddress, AllDigits, Concat, Abi.HeadWords, Abi.AbiEncode, Abi.Head, EncodeAllowedCall, Value;
    var v := AbiValues(c);
    SupplyEncoded(c);
    SelectorTexts();
    StaticTuple(v);
    AddressWordIsHead(c.asset);
    AddressWordIsHead(c.onBehalfOf);
    UintWordIsHead(Value(c.amount, Dec));
    UintWordIsHead(c.referralCode);
    assert Abi.HeadWords(v) == [AddressWord(c.asset).value, UintWord(Value(c.amount, Dec)).value,
                                AddressWord(c.onBehalfOf).value, UintWord(c.referralCode).value];
  }

  function DataTail(s: string): string
    requires IsBytes(s)
  {
    Abi.Tail(Abi.Bytes(Lower(s)[2..]))
  }

  /** The six head words of a marketplace request. */
  function RequestWords(c: Call): (r: seq<string>)
    requires c.OlasRequest? && WellFormed(c)
    ensures |r| == 6
  {
    [Abi.Word(192), Abi.Word(Value(c.maxDeliveryRate, Dec)), Lower(c.paymentType)[2..],
     Zeros(24) + Lower(c.priorityMech)[2..], Abi.Word(c.responseTimeout),
     Abi.Word(192 + |DataTail(c.requestData)| / 2)]
  }

  lemma RequestLayout(c: Call)
    requires c.OlasRequest? && WellFormed(c)
    requires Abi.FitsWord(192) && Abi.FitsWord(Value(c.maxDeliveryRate, Dec)) && Abi.FitsWord(c.responseTimeout)
    requires Abi.FitsWord((|c.requestData| - 2) / 2) && Abi.FitsWord((|c.paymentData| - 2) / 2)
    requires Abi.FitsWord(192 + |DataTail(c.requestData)| / 2)
    ensures EncodeOlasRequest(c) ==
      Ok("0xf6938b09" + Concat(RequestWords(c)) + DataTail(c.requestData) + DataTail(c.paymentData))
  {
    hide Abi.FitsWord, Abi.Word, AddressWord, UintWord, BytesTail, IsAddress, AllDigits, Concat, PadZeros;
    BytesTailIsTail(c.requestData);
    BytesTailIsTail(c.paymentData);
    HexDigits(c.paymentType);
    assert PadZeros(Lower(SliceFrom(c.paymentType, 2)), 64) == Lower(c.paymentType)[2..];
  }

  lemma RequestFits(c: Call)
    requires c.OlasRequest? && WellFormed(c) && EncodeOlasRequest(c).Ok?
    ensures Abi.FitsWord(192) && Abi.FitsWord(Value(c.maxDeliveryRate, Dec)) && Abi.FitsWord(c.responseTimeout)
    ensures Abi.FitsWord((|c.requestData| - 2) / 2) && Abi.FitsWord((|c.paymentData| - 2) / 2)
    ensures Abi.FitsWord(192 + |DataTail(c.requestData)| / 2)
  {
    hide Abi.FitsWord, Abi.Tail, Abi.Word, AddressWord, UintWord, BytesTail, AllDigits, Concat, PadZeros, IsAddress;
    BytesTailIsTail(c.requestData);
    BytesTailIsTail(c.paymentData);
  }

  lemma RequestFollowsAbi(c: Call)
    requires c.OlasRequest? && WellFormed(c) && EncodeAllowedCall(c).Ok?
    ensures EncodeAllowedCall(c).value == REQUEST_SELECTOR + Abi.AbiEncode(AbiValues(c))
  {
    hide EncodeOlasRequest, WellFormed, Abi.FitsWord, DataTail, RequestWords, Abi.AbiEncode, AbiValues, Concat;
    RequestFits(c);
    RequestLayout(c);
    RequestAssembly(c);
  }

  lemma RequestHeads(c: Call)
    requires c.OlasRequest? && WellFormed(c)
    ensures Abi.HeadWords(AbiValues(c)) == RequestWords(c)
  {
    hide Abi.Word, Abi.Tail, Abi.HeadWords, Abi.Head, AllDigits, Concat, AddressWord, IsAddress, Value, Lower, RequestWords;
    var v := AbiValues(c);
    RequestTuple(v);
    RequestWordsAre(c, v);
    SixWords(Abi.HeadWords(v), RequestWords(c));
  }

  /** The head words of a request, each as the specification has it. */
  lemma RequestWordsAre(c: Call, v: seq<Abi.AbiValue>)
    requires c.OlasRequest? && WellFormed(c) && v == AbiValues(c)
    ensures var w := RequestWords(c);
      && w[0] == Abi.Word(192) && w[5] == Abi.Word(192 + |Abi.Tail(v[0])| / 2)
      && forall i | 0 < i < 5 :: w[i] == Abi.Head(v[i], 0)
  {
    hide Abi.Word, Abi.Tail, AllDigits, AddressWord, IsAddress, Value, Lower;
    AddressWordIsHead(c.priorityMech);
  }

  lemma SixWords(a: seq<string>, b: seq<string>)
    requires |a| == |b| == 6 && a[0] == b[0] && a[5] == b[5] && forall i | 0 < i < 5 :: a[i] == b[i]
    ensures a == b
  {
  }

  lemma FourParts(a: string, b: string, c: string, d: string)
    ensures a + b + c + d == a + (b + (c + d))
  {
  }

  lemma RequestAssembly(c: Call)
    requires c.OlasRequest? && WellFormed(c)
    ensures "0xf6938b09" + Concat(RequestWords(c)) + DataTail(c.requestData) + DataTail(c.paymentData)
      == REQUEST_SELECTOR + Abi.AbiEncode(AbiValues(c))
  {
    hide Abi.Word, Abi.TailBytes, Abi.Tail, Abi.HeadWords, Abi.TailParts, RequestWords, Concat, AllDigits, IsAddress;
    SelectorTexts();
    RequestHeads(c);
    RequestTuple(AbiValues(c));
    FourParts("0xf6938b09", Concat(RequestWords(c)), DataTail(c.requestData), DataTail(c.paymentData));
  }
}
