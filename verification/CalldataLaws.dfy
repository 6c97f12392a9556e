/** Soundness and completeness of calldata validation. */
module CalldataLaws {
  import opened Results
  import opened Text
  import opened Numerals
  import opened Lists
  import opened Manifest
  import opened Calldata
  import opened CalldataProofs
  import Abi = AbiEncoding

  // Reading back one encoded component

  lemma FourDigits(k: nat)
    ensures Pow(Hex, k + 4) == 65536 * Pow(Hex, k)
  {
    assert Pow(Hex, k + 2) == 256 * Pow(Hex, k);
  }

  lemma SafeFits(n: nat)
    requires n <= 4 * MAX_SAFE_INTEGER
    ensures Abi.FitsWord(n)
  {
    FourDigits(0);
    FourDigits(4);
    FourDigits(8);
    FourDigits(12);
    PowGrows(Hex, 16, 64);
  }

  lemma TailShape(hex: string)
    requires |hex| / 2 <= MAX_SAFE_INTEGER
    ensures |Abi.Tail(Abi.Bytes(hex))| == 64 + |hex| + Abi.Padding(|hex|)
    ensures Abi.Tail(Abi.Bytes(hex))[..64] == Abi.Word(|hex| / 2)
    ensures Abi.Tail(Abi.Bytes(hex))[64..64 + |hex|] == hex
  {
    hide Abi.FitsWord, AllDigits, Abi.Padding;
    SafeFits(|hex| / 2);
  }

  /** A tail placed where its offset word points is decoded to the bytes it encodes. */
  lemma DecodeTail(payload: string, offset: nat, hex: string)
    requires AllDigits(payload, Hex)
    requires 192 <= offset <= MAX_SAFE_INTEGER && offset % 32 == 0
    requires |hex| % 2 == 0 && |hex| / 2 <= MAX_SAFE_INTEGER
    requires var t := Abi.Tail(Abi.Bytes(hex)); 2 * offset + |t| <= |payload| && payload[2 * offset..2 * offset + |t|] == t
    ensures Abi.FitsWord(offset) && DecodeDynamicBytes(payload, Abi.Word(offset), 192) == Ok("0x" + hex)
  {
    hide Abi.FitsWord, Abi.Tail, Abi.Word, Abi.Padding;
    SafeFits(offset);
    SafeFits(|hex| / 2);
    TailShape(hex);
    var t, p := Abi.Tail(Abi.Bytes(hex)), 2 * offset;
    assert payload[p..p + 64] == t[..64];
    assert payload[p + 64..p + 64 + |hex|] == t[64..64 + |hex|];
  }

  lemma DecodeAddress(address: string)
    requires IsAddress(address)
    ensures var w := Zeros(24) + Lower(address)[2..];
      AllDigits(w, Hex) && |w| == 64 && DecodeAddressWord(w) == Ok(Lower(address))
  {
    HexDigits(address);
    var h := Lower(address)[2..];
    var w := Zeros(24) + h;
    assert w[..24] == Zeros(24) && w[24..] == h;
    LowerOfLower(h);
    assert Lower(address) == "0x" + h;
  }

  lemma EncodedAddress(word: string)
    requires AllDigits(word, Hex) && IsLower(word) && |word| == 64 && DecodeAddressWord(word).Ok?
    ensures var a := DecodeAddressWord(word).value;
      IsAddress(a) && Lower(a) == a && Zeros(24) + a[2..] == word
  {
    var a := DecodeAddressWord(word).value;
    LowerOfLower(word[24..]);
    assert word == word[..24] + word[24..];
    LowerIdempotent("0x" + word[24..]);
  }

  /** Words as decoded and words as encoded agree at every position of the head. */
  lemma HeadWordAt(words: seq<string>, rest: string, i: nat)
    requires forall k :: 0 <= k < |words| ==> |words[k]| == 64
    requires i < |words|
    requires AllDigits(Concat(words) + rest, Hex)
    ensures WordAt(Concat(words) + rest, i) == Ok(words[i])
    ensures AllDigits(words[i], Hex)
  {
    hide AllDigits;
    ConcatAt(words, 64, i);
    var p := Concat(words) + rest;
    assert p[64 * i..64 * i + 64] == Concat(words)[64 * i..64 * i + 64];
    SliceDigits(p, 64 * i, 64 * i + 64);
  }

  lemma SliceDigits(s: string, i: nat, j: nat)
    requires i <= j <= |s| && AllDigits(s, Hex)
    ensures AllDigits(s[i..j], Hex)
  {
  }

  // Fixed-size calls

  function ApproveWords(spender: string, amount: string): (r: seq<string>)
    requires IsAddress(spender) && IsUnsigned(amount)
    ensures |r| == 2
  {
    [Zeros(24) + Lower(spender)[2..], Abi.Word(Value(amount, Dec))]
  }

  lemma ApproveLayout(spender: string, amount: string)
    requires IsAddress(spender) && IsUnsigned(amount)
    ensures EncodeApprove(spender, amount) ==
      if Abi.FitsWord(Value(amount, Dec)) then Ok("0x095ea7b3" + Concat(ApproveWords(spender, amount)))
      else Err(IntegerOutOfRange)
  {
    hide Abi.FitsWord, Abi.Word, AllDigits, Concat;
  }

  lemma CanonicalKeepsValue(amount: string)
    requires IsUnsigned(amount)
    ensures IsUnsigned(Canonical(amount)) && Value(Canonical(amount), Dec) == Value(amount, Dec)
    ensures Canonical(Canonical(amount)) == Canonical(amount)
  {
  }

  lemma ApproveNormalized(spender: string, amount: string)
    requires IsAddress(spender) && IsUnsigned(amount)
    ensures IsAddress(Lower(spender))
    ensures EncodeApprove(Lower(spender), Canonical(amount)) == EncodeApprove(spender, amount)
  {
    hide Abi.FitsWord, Abi.Word, Concat;
    LowerAddress(spender);
    CanonicalKeepsValue(amount);
    ApproveLayout(spender, amount);
    ApproveLayout(Lower(spender), Canonical(amount));
  }

  lemma LowerAddress(s: string)
    requires IsAddress(s)
    ensures IsAddress(Lower(s)) && Lower(Lower(s)) == Lower(s)
  {
    LowerIdempotent(s);
    HexDigits(s);
  }

  /** Decoding an in-bounds approval gives the approval back in normal form. */
  lemma ApproveRoundTrip(c: Call, payload: string, rule: AllowedCall, input: Input)
    requires c.UsdcApprove? && WellFormed(c) && InBounds(c, rule, input)
    requires AllDigits(payload, Hex)
    requires payload == Concat(ApproveWords(c.spender, c.amount))
    requires Lower(input.data) == "0x095ea7b3" + payload
    ensures DecodeApprove(payload, rule, input) == Ok(Decoded(Normalize(c), rule.signature, rule.selector))
  {
    hide Abi.FitsWord, Abi.Word, Concat, SpenderCap, AllDigits;
    var words := ApproveWords(c.spender, c.amount);
    assert payload == payload + "";
    ApproveNormalized(c.spender, c.amount);
    ApproveLayout(c.spender, c.amount);
    ConcatWidth(words, 64);
    HeadWordAt(words, "", 0);
    HeadWordAt(words, "", 1);
    DecodeAddress(c.spender);
    LowerIdempotent(input.data);
  }

  /** An accepted approval is in bounds, in normal form and canonically encoded. */
  lemma ApproveSound(payload: string, rule: AllowedCall, input: Input)
    requires AllDigits(payload, Hex) && IsLower(payload)
    requires DecodeApprove(payload, rule, input).Ok?
    ensures var d := DecodeApprove(payload, rule, input).value;
      && d.call.UsdcApprove? && WellFormed(d.call) && Normalize(d.call) == d.call
      && InBounds(d.call, rule, input)
      && EncodeAllowedCall(d.call).Ok? && EncodeAllowedCall(d.call).value == Lower(input.data)
      && d.signature == rule.signature && d.selector == rule.selector
  {
    hide Abi.FitsWord, Abi.Word, Concat, SpenderCap, IsLower, EncodeApprove, AllDigits, DecodeApprove, DecodeAddressWord,
      IsAddress, WordAt;
    var d := DecodeApprove(payload, rule, input).value;
    ApproveDecoded(payload, rule, input);
    SliceLower(payload, 0, 64);
    EncodedAddress(WordAt(payload, 0).value);
    ApproveLayout(d.call.spender, d.call.amount);
    ApproveEncodingLower(d.call.spender, d.call.amount);
  }

  /** The checks that an accepted approval passed. */
  lemma ApproveDecoded(payload: string, rule: AllowedCall, input: Input)
    requires AllDigits(payload, Hex) && DecodeApprove(payload, rule, input).Ok?
    ensures |payload| == 128 && WordAt(payload, 0).Ok? && WordAt(payload, 1).Ok?
    ensures var w0, w1 := WordAt(payload, 0).value, WordAt(payload, 1).value;
      && DecodeAddressWord(w0).Ok?
      && var spender, amount := DecodeAddressWord(w0).value, DecodeUintWord(w1);
      && DecodeApprove(payload, rule, input) ==
           Ok(Decoded(UsdcApprove(spender, Numeral(amount, Dec)), rule.signature, rule.selector))
      && var cap := SpenderCap(rule.constraint, spender);
      && cap.Some? && IsUnsigned(cap.value) && amount <= Value(cap.value, Dec)
      && EncodeApprove(spender, Numeral(amount, Dec)).Ok?
      && Lower(EncodeApprove(spender, Numeral(amount, Dec)).value) == Lower(input.data)
  {
    hide SpenderCap, EncodeApprove, AllDigits, DecodeAddressWord, WordAt, DecodeUintWord, Value, IsAddress;
  }

  lemma SliceLower(s: string, i: nat, j: nat)
    requires i <= j <= |s| && IsLower(s)
    ensures IsLower(s[i..j])
  {
  }

  lemma AddressWordLower(address: string)
    requires IsAddress(address)
    ensures IsLower(Zeros(24) + Lower(address)[2..])
  {
    HexDigits(address);
  }

  lemma EncodingLower(selector: string, words: seq<string>)
    requires IsLower(selector) && forall k :: 0 <= k < |words| ==> IsLower(words[k])
    ensures Lower(selector + Concat(words)) == selector + Concat(words)
  {
    ConcatLower(words);
    LowerOfLower(selector + Concat(words));
  }

  lemma ApproveEncodingLower(spender: string, amount: string)
    requires IsAddress(spender) && IsUnsigned(amount) && EncodeApprove(spender, amount).Ok?
    ensures Lower(EncodeApprove(spender, amount).value) == EncodeApprove(spender, amount).value
  {
    hide Abi.FitsWord, Abi.Word, AllDigits, IsAddress, EncodeApprove;
    ApproveLayout(spender, amount);
    AddressWordLower(spender);
    EncodingLower("0x095ea7b3", ApproveWords(spender, amount));
  }

  lemma {:induction false} ConcatLower(words: seq<string>)
    requires forall k :: 0 <= k < |words| ==> IsLower(words[k])
    ensures IsLower(Concat(words))
  {
    if words != [] {
      ConcatLower(words[1..]);
    }
  }

  function SupplyWords(c: Call): (r: seq<string>)
    requires c.AaveSupply? && WellFormed(c)
    ensures |r| == 4
  {
    [Zeros(24) + Lower(c.asset)[2..], Abi.Word(Value(c.amount, Dec)), Zeros(24) + Lower(c.onBehalfOf)[2..],
     Abi.Word(c.referralCode)]
  }

  lemma SupplyLayout(c: Call)
    requires c.AaveSupply? && WellFormed(c)
    ensures EncodeSupply(c) ==
      if Abi.FitsWord(Value(c.amount, Dec)) && Abi.FitsWord(c.referralCode)
      then Ok("0x617ba037" + Concat(SupplyWords(c))) else Err(IntegerOutOfRange)
  {
    hide Abi.FitsWord, Abi.Word, AllDigits, Concat;
  }

  lemma SupplyNormalized(c: Call)
    requires c.AaveSupply? && WellFormed(c)
    ensures WellFormed(Normalize(c)) && SupplyWords(Normalize(c)) == SupplyWords(c)
    ensures EncodeSupply(Normalize(c)) == EncodeSupply(c)
  {
    hide Abi.FitsWord, Abi.Word, Concat;
    LowerAddress(c.asset);
    LowerAddress(c.onBehalfOf);
    CanonicalKeepsValue(c.amount);
    SupplyLayout(c);
    SupplyLayout(Normalize(c));
  }

  lemma SupplyEncodingLower(c: Call)
    requires c.AaveSupply? && WellFormed(c) && EncodeSupply(c).Ok?
    ensures Lower(EncodeSupply(c).value) == EncodeSupply(c).value
  {
    hide Abi.FitsWord, Abi.Word, AllDigits, IsAddress, EncodeSupply;
    SupplyLayout(c);
    AddressWordLower(c.asset);
    AddressWordLower(c.onBehalfOf);
    EncodingLower("0x617ba037", SupplyWords(c));
  }

  lemma SupplyDecodes(c: Call, payload: string)
    requires c.AaveSupply? && WellFormed(c)
    requires Abi.FitsWord(Value(c.amount, Dec)) && Abi.FitsWord(c.referralCode)
    requires AllDigits(payload, Hex) && payload == Concat(SupplyWords(c))
    ensures |payload| == 256
    ensures WordAt(payload, 0).Ok? && DecodeAddressWord(WordAt(payload, 0).value) == Ok(Lower(c.asset))
    ensures WordAt(payload, 1).Ok? && DecodeUintWord(WordAt(payload, 1).value) == Value(c.amount, Dec)
    ensures WordAt(payload, 2).Ok? && DecodeAddressWord(WordAt(payload, 2).value) == Ok(Lower(c.onBehalfOf))
    ensures WordAt(payload, 3).Ok? && DecodeUintWord(WordAt(payload, 3).value) == c.referralCode
  {
    hide Abi.FitsWord, Abi.Word, Concat, AllDigits, WordAt, DecodeAddressWord;
    var words := SupplyWords(c);
    assert payload == payload + "";
    ConcatWidth(words, 64);
    HeadWordAt(words, "", 0);
    HeadWordAt(words, "", 1);
    HeadWordAt(words, "", 2);
    HeadWordAt(words, "", 3);
    DecodeAddress(c.asset);
    DecodeAddress(c.onBehalfOf);
  }

  lemma SupplyRoundTrip(c: Call, payload: string, rule: AllowedCall, input: Input)
    requires c.AaveSupply? && WellFormed(c) && InBounds(c, rule, input)
    requires AllDigits(payload, Hex)
    requires payload == Concat(SupplyWords(c))
    requires Lower(input.data) == "0x617ba037" + payload
    ensures DecodeSupply(payload, rule, input) == Ok(Decoded(Normalize(c), rule.signature, rule.selector))
  {
    hide Abi.FitsWord, Abi.Word, Concat, AllDigits, SupplyWords, WordAt, DecodeAddressWord, EncodeSupply, IsAddress;
    SafeFits(c.referralCode);
    SupplyNormalized(c);
    SupplyLayout(c);
    SupplyDecodes(c, payload);
    LowerIdempotent(input.data);
  }

  lemma SupplySound(payload: string, rule: AllowedCall, input: Input)
    requires AllDigits(payload, Hex) && IsLower(payload)
    requires DecodeSupply(payload, rule, input).Ok?
    ensures var d := DecodeSupply(payload, rule, input).value;
      && d.call.AaveSupply? && WellFormed(d.call) && Normalize(d.call) == d.call
      && InBounds(d.call, rule, input)
      && EncodeAllowedCall(d.call).Ok? && EncodeAllowedCall(d.call).value == Lower(input.data)
      && d.signature == rule.signature && d.selector == rule.selector
  {
    hide Abi.FitsWord, Abi.Word, Concat, DecodeAddressWord, IsAddress, EncodeSupply, IsLower, WordAt;
    var d := DecodeSupply(payload, rule, input).value;
    SliceLower(payload, 0, 64);
    SliceLower(payload, 128, 192);
    EncodedAddress(WordAt(payload, 0).value);
    EncodedAddress(WordAt(payload, 2).value);
    SupplyLayout(d.call);
    SupplyEncodingLower(d.call);
  }

  // Marketplace requests

  lemma LowerBytes(s: string)
    requires IsHexData(s)
    ensures IsHexData(Lower(s)) && |Lower(s)| == |s| && Lower(Lower(s)) == Lower(s)
    ensures Lower(s) == "0x" + Lower(s)[2..]
  {
    HexDigits(s);
    LowerIdempotent(s);
  }

  lemma RequestNormalized(c: Call)
    requires c.OlasRequest? && WellFormed(c)
    ensures WellFormed(Normalize(c)) && RequestWords(Normalize(c)) == RequestWords(c)
    ensures DataTail(Lower(c.requestData)) == DataTail(c.requestData)
    ensures DataTail(Lower(c.paymentData)) == DataTail(c.paymentData)
  {
    hide Abi.FitsWord, Abi.Word, Abi.Tail, Concat;
    LowerBytes(c.requestData);
    LowerBytes(c.paymentData);
    LowerBytes(c.paymentType);
    LowerAddress(c.priorityMech);
    CanonicalKeepsValue(c.maxDeliveryRate);
  }

  /** The sizes that an in-bounds request fits: no text is longer than 2^53 - 1 characters. */
  lemma RequestSizes(c: Call)
    requires c.OlasRequest? && WellFormed(c)
    requires Abi.FitsWord(Value(c.maxDeliveryRate, Dec)) && c.responseTimeout <= MAX_SAFE_INTEGER
    requires |c.requestData| <= MAX_SAFE_INTEGER && |c.paymentData| <= MAX_SAFE_INTEGER
    ensures EncodeOlasRequest(c) ==
      Ok("0xf6938b09" + Concat(RequestWords(c)) + DataTail(c.requestData) + DataTail(c.paymentData))
    ensures |DataTail(c.requestData)| % 64 == 0
    ensures |DataTail(c.requestData)| / 2 <= MAX_SAFE_INTEGER - 192
  {
    hide Abi.FitsWord, Abi.Word, Concat, RequestWords, EncodeOlasRequest, DataTail, IsAddress, AllDigits, IsHexOfLength;
    DataTailSize(c.requestData);
    SafeFits(192);
    SafeFits(c.responseTimeout);
    SafeFits((|c.requestData| - 2) / 2);
    SafeFits((|c.paymentData| - 2) / 2);
    SafeFits(192 + |DataTail(c.requestData)| / 2);
    RequestLayout(c);
  }

  lemma WholeWords(length: nat, padding: nat)
    requires padding < 64 && (length + padding) % 64 == 0 && length <= MAX_SAFE_INTEGER
    ensures (64 + length + padding) % 64 == 0 && (64 + length + padding) / 2 <= MAX_SAFE_INTEGER - 192
    ensures (192 + (64 + length + padding) / 2) % 32 == 0
  {
  }

  lemma DataTailSize(s: string)
    requires IsBytes(s) && |s| <= MAX_SAFE_INTEGER
    ensures |DataTail(s)| % 64 == 0 && |DataTail(s)| / 2 <= MAX_SAFE_INTEGER - 192
    ensures (192 + |DataTail(s)| / 2) % 32 == 0
  {
    hide Abi.FitsWord, Abi.Word, AllDigits, Abi.Padding, Abi.Tail;
    TailShape(Lower(s)[2..]);
    WholeWords(|s| - 2, Abi.Padding(|s| - 2));
  }

  predicate RequestPayload(c: Call, payload: string)
    requires c.OlasRequest? && WellFormed(c)
  {
    && |c.requestData| <= MAX_SAFE_INTEGER && |c.paymentData| == 2
    && Abi.FitsWord(Value(c.maxDeliveryRate, Dec)) && c.responseTimeout <= MAX_SAFE_INTEGER
    && payload == Concat(RequestWords(c)) + (DataTail(c.requestData) + DataTail(c.paymentData))
    && AllDigits(payload, Hex)
  }

  lemma RequestWordsWide(c: Call)
    requires c.OlasRequest? && WellFormed(c)
    requires |c.requestData| <= MAX_SAFE_INTEGER && c.responseTimeout <= MAX_SAFE_INTEGER
    requires Abi.FitsWord(Value(c.maxDeliveryRate, Dec))
    ensures forall k :: 0 <= k < 6 ==> |RequestWords(c)[k]| == 64
    ensures |Concat(RequestWords(c))| == 384
  {
    hide Abi.FitsWord, Abi.Word, Concat, Abi.Tail, AllDigits;
    TailShape(Lower(c.requestData)[2..]);
    SafeFits(192);
    SafeFits(c.responseTimeout);
    SafeFits(192 + |DataTail(c.requestData)| / 2);
    ConcatWidth(RequestWords(c), 64);
  }

  lemma RequestHeadDecodes(c: Call, payload: string, i: nat)
    requires c.OlasRequest? && WellFormed(c) && RequestPayload(c, payload) && i < 6
    ensures WordAt(payload, i) == Ok(RequestWords(c)[i])
  {
    hide Abi.FitsWord, Concat, AllDigits, WordAt, RequestWords, DataTail, IsUnsigned, IsAddress, IsBytes, IsHexOfLength;
    RequestWordsWide(c);
    HeadWordAt(RequestWords(c), DataTail(c.requestData) + DataTail(c.paymentData), i);
  }

  lemma MiddlePart(a: string, b: string, c: string)
    ensures (a + b + c)[|a|..|a| + |b|] == b
  {
  }

  /** The two dynamic parts sit behind the head, one after the other. */
  lemma RequestParts(c: Call, payload: string)
    requires c.OlasRequest? && WellFormed(c) && RequestPayload(c, payload)
    ensures var t, q := DataTail(c.requestData), DataTail(c.paymentData);
      && |payload| == 384 + |t| + |q|
      && payload[384..384 + |t|] == t && payload[384 + |t|..384 + |t| + |q|] == q
  {
    hide Abi.FitsWord, Abi.Word, Concat, AllDigits, DataTail, IsAddress, RequestWords;
    RequestWordsWide(c);
    var h, t, q := Concat(RequestWords(c)), DataTail(c.requestData), DataTail(c.paymentData);
    MiddlePart(h, t, q);
    MiddlePart(h + t, q, "");
    assert payload == h + (t + q) == h + t + q == h + t + q + "";
  }

  lemma RequestDataDecodes(c: Call, payload: string)
    requires c.OlasRequest? && WellFormed(c) && RequestPayload(c, payload)
    ensures var w := RequestWords(c);
      && AllDigits(w[0], Hex) && DecodeDynamicBytes(payload, w[0], 192) == Ok(Lower(c.requestData))
      && AllDigits(w[5], Hex) && DecodeDynamicBytes(payload, w[5], 192) == Ok(Lower(c.paymentData))
  {
    hide Abi.FitsWord, Abi.Word, Concat, AllDigits, DecodeDynamicBytes, DataTail, IsAddress, IsHexData;
    RequestParts(c, payload);
    DataTailSize(c.requestData);
    PartDecodes(payload, 192, c.requestData);
    PartDecodes(payload, 192 + |DataTail(c.requestData)| / 2, c.paymentData);
  }

  /** The bytes found at an aligned offset. */
  lemma PartDecodes(payload: string, offset: nat, s: string)
    requires AllDigits(payload, Hex) && IsBytes(s) && |s| <= MAX_SAFE_INTEGER
    requires 192 <= offset <= MAX_SAFE_INTEGER && offset % 32 == 0
    requires 2 * offset + |DataTail(s)| <= |payload|
    requires payload[2 * offset..2 * offset + |DataTail(s)|] == DataTail(s)
    ensures Abi.FitsWord(offset) && AllDigits(Abi.Word(offset), Hex)
    ensures DecodeDynamicBytes(payload, Abi.Word(offset), 192) == Ok(Lower(s))
  {
    hide Abi.FitsWord, Abi.Word, AllDigits, DecodeDynamicBytes, Abi.Tail;
    SafeFits(offset);
    LowerBytes(s);
    DecodeTail(payload, offset, Lower(s)[2..]);
  }

  lemma RequestRoundTrip(c: Call, payload: string, rule: AllowedCall, input: Input)
    requires c.OlasRequest? && WellFormed(c) && InBounds(c, rule, input)
    requires RequestPayload(c, payload)
    ensures DecodeOlas(payload, rule, input) == Ok(Decoded(Normalize(c), rule.signature, rule.selector))
  {
    hide Abi.FitsWord, Abi.Word, Concat, AllDigits, DecodeDynamicBytes, DataTail, WordAt, DecodeAddressWord,
      EncodeOlasRequest, IsAddress, NormalizeAll;
    RequestHeadDecodes(c, payload, 0);
    RequestHeadDecodes(c, payload, 1);
    RequestHeadDecodes(c, payload, 2);
    RequestHeadDecodes(c, payload, 3);
    RequestHeadDecodes(c, payload, 4);
    RequestHeadDecodes(c, payload, 5);
    RequestDataDecodes(c, payload);
    DecodeAddress(c.priorityMech);
    LowerBytes(c.paymentType);
    SafeFits(c.responseTimeout);
    ApprovedLists(c.priorityMech, input.allowedPriorityMechs);
    CanonicalPayload(c, payload);
    LowerBytes(c.paymentData);
    RequestWordsWide(c);
  }

  lemma ApprovedLists(mech: string, allowed: Option<seq<string>>)
    ensures Approved(mech, allowed) <==>
      NormalizeAll(allowed.GetOr([])).Ok? && Lower(mech) in NormalizeAll(allowed.GetOr([])).value
  {
  }

  lemma CanonicalPayload(c: Call, payload: string)
    requires c.OlasRequest? && WellFormed(c) && RequestPayload(c, payload)
    ensures EncodeOlasRequest(Normalize(c)).Ok?
    ensures SliceFrom(EncodeOlasRequest(Normalize(c)).value, 10) == payload
  {
    hide Abi.FitsWord, Abi.Word, Concat, AllDigits, DataTail, EncodeOlasRequest, IsAddress, RequestWords;
    RequestNormalized(c);
    CanonicalKeepsValue(c.maxDeliveryRate);
    RequestSizes(Normalize(c));
  }

  lemma DynamicBytesShape(payload: string, offsetWord: string, headBytes: nat)
    requires AllDigits(payload, Hex) && AllDigits(offsetWord, Hex) && IsLower(payload)
    requires DecodeDynamicBytes(payload, offsetWord, headBytes).Ok?
    ensures var b := DecodeDynamicBytes(payload, offsetWord, headBytes).value; IsBytes(b) && Lower(b) == b
  {
    hide AllDigits, IsBytes, IsLower;
    var lengthPosition := DecodeUintWord(offsetWord) * 2;
    SliceDigits(payload, lengthPosition, lengthPosition + 64);
    var length := DecodeUintWord(payload[lengthPosition..lengthPosition + 64]);
    HexSlice(payload, lengthPosition + 64, length);
  }

  lemma HexSlice(payload: string, start: nat, bytes: nat)
    requires AllDigits(payload, Hex) && IsLower(payload) && start + bytes * 2 <= |payload|
    ensures var b := "0x" + payload[start..start + bytes * 2]; IsBytes(b) && Lower(b) == b
  {
    var data := payload[start..start + bytes * 2];
    LowerOfLower("0x" + data);
    assert ("0x" + data)[2..] == data;
  }

  lemma PrefixedLower(w: string)
    requires IsLower(w)
    ensures Lower("0x" + w) == "0x" + w
  {
    LowerOfLower("0x" + w);
  }

  lemma WordShape(payload: string, i: nat)
    requires AllDigits(payload, Hex) && IsLower(payload) && WordAt(payload, i).Ok?
    ensures IsLower(WordAt(payload, i).value)
    ensures IsHexOfLength("0x" + WordAt(payload, i).value, 64)
    ensures Lower("0x" + WordAt(payload, i).value) == "0x" + WordAt(payload, i).value
  {
    hide AllDigits, IsLower, Lower;
    var w := WordAt(payload, i).value;
    assert ("0x" + w)[2..] == w;
    SliceLower(payload, 64 * i, 64 * i + 64);
    PrefixedLower(w);
  }

  lemma RequestSound(payload: string, rule: AllowedCall, input: Input)
    requires AllDigits(payload, Hex) && IsLower(payload)
    requires DecodeOlas(payload, rule, input).Ok?
    ensures var d := DecodeOlas(payload, rule, input).value;
      && d.call.OlasRequest? && WellFormed(d.call) && Normalize(d.call) == d.call
      && InBounds(d.call, rule, input)
      && EncodeAllowedCall(d.call).Ok? && SliceFrom(EncodeAllowedCall(d.call).value, 10) == payload
      && d.signature == rule.signature && d.selector == rule.selector
  {
    hide Abi.FitsWord, Abi.Word, Concat, DecodeDynamicBytes, DecodeAddressWord, EncodeOlasRequest, AllDigits,
      IsAddress, IsHexData, IsLower, WordAt, NormalizeAll, IsHexOfLength;
    var d := DecodeOlas(payload, rule, input).value;
    DynamicBytesShape(payload, WordAt(payload, 0).value, 192);
    DynamicBytesShape(payload, WordAt(payload, 5).value, 192);
    WordShape(payload, 2);
    WordShape(payload, 3);
    EncodedAddress(WordAt(payload, 3).value);
    ApprovedLists(d.call.priorityMech, input.allowedPriorityMechs);
    RequestFits(d.call);
  }

  // The laws of the validator

  /** Where the rule of an accepted input comes from. */
  lemma RouteFacts(input: Input, m: Content) returns (c: nat, k: nat)
    requires Route(input, m).Ok?
    ensures c < |m.contracts| && k < |m.allowedCalls| && Route(input, m).value == m.allowedCalls[k]
    ensures input.chainId == m.chainId && IsAddress(input.target)
    ensures Lower(m.contracts[c].address) == Lower(input.target)
    ensures m.allowedCalls[k].contractId == m.contracts[c].id
    ensures Lower(m.allowedCalls[k].selector) == Lower(input.data)[..10]
    ensures IsUnsigned(input.nativeValueWei) && IsUnsigned(m.allowedCalls[k].maxNativeValueWei)
    ensures Value(input.nativeValueWei, Dec) <= Value(m.allowedCalls[k].maxNativeValueWei, Dec)
  {
    hide IsHexData, IsAddress, AllDigits;
    var contract := ContractForTarget(m, input.target).value;
    c := FilterSingleton((x: Contract) => Lower(x.address) == Lower(input.target), m.contracts);
    var selector := Lower(input.data[..10]);
    k := FilterSingleton((x: AllowedCall) => x.contractId == contract.id && Lower(x.selector) == Lower(selector),
                         m.allowedCalls);
    LowerIdempotent(input.data[..10]);
    LowerSlice(input.data, 0, 10);
  }

  /** Everything an acceptance says: the decoded call is well formed, in normal form and within
      the bounds of the rule that the target and selector pick, and the calldata is the canonical
      encoding of that call behind that rule's selector, with nothing before, between or after. */
  lemma AcceptedIsCanonical(input: Input, m: Content)
    requires ValidateCalldata(input, m).Ok?
    ensures Route(input, m).Ok?
    ensures var d, rule := ValidateCalldata(input, m).value, Route(input, m).value;
      && IdOf(d.call) == rule.id && d.selector == rule.selector && d.signature == rule.signature
      && WellFormed(d.call) && Normalize(d.call) == d.call && InBounds(d.call, rule, input)
      && EncodeAllowedCall(d.call).Ok?
      && Lower(input.data) == Lower(rule.selector) + SliceFrom(EncodeAllowedCall(d.call).value, 10)
      && (!d.call.OlasRequest? ==> Lower(input.data) == EncodeAllowedCall(d.call).value)
  {
    hide IsHexData, IsAddress, AllDigits, DecodeOlas, DecodeApprove, DecodeSupply, IsLower, WellFormed, InBounds,
      EncodeAllowedCall, Normalize;
    var rule := Route(input, m).value;
    var c, k := RouteFacts(input, m);
    var payload := Payload(input.data);
    match rule.id {
      case OLAS_REQUEST => RequestSound(payload, rule, input);
      case USDC_APPROVE => ApproveSound(payload, rule, input);
      case AAVE_SUPPLY => SupplySound(payload, rule, input);
    }
    assert Lower(input.data) == Lower(input.data)[..10] + payload;
  }

  /** Two accepted inputs that decode to the same call under the same rule carry the same calldata. */
  lemma AcceptedInjective(a: Input, b: Input, m: Content)
    requires ValidateCalldata(a, m).Ok? && ValidateCalldata(a, m) == ValidateCalldata(b, m)
    ensures Lower(a.data) == Lower(b.data)
  {
    hide ValidateCalldata, WellFormed, InBounds, EncodeAllowedCall, Normalize, Route;
    AcceptedIsCanonical(a, m);
    AcceptedIsCanonical(b, m);
  }

  /** Normalizing a call changes neither its encoding nor whether it is in bounds. */
  lemma NormalizedEncoding(c: Call)
    requires WellFormed(c)
    ensures WellFormed(Normalize(c))
    ensures EncodeAllowedCall(c).Ok? || EncodeAllowedCall(Normalize(c)).Ok? ==>
      EncodeAllowedCall(Normalize(c)) == EncodeAllowedCall(c)
  {
    hide EncodeOlasRequest, EncodeApprove, EncodeSupply, AllDigits, Concat, Abi.FitsWord, Abi.Word, DataTail, RequestWords;
    match c {
      case UsdcApprove(spender, amount) =>
        ApproveNormalized(spender, amount);
        CanonicalKeepsValue(amount);
      case AaveSupply(_, _, _, _) => SupplyNormalized(c);
      case OlasRequest(_, _, _, _, _, _) =>
        RequestNormalized(c);
        CanonicalKeepsValue(c.maxDeliveryRate);
        if EncodeOlasRequest(c).Ok? {
          RequestFits(c);
          RequestLayout(c);
          RequestLayout(Normalize(c));
        } else if EncodeOlasRequest(Normalize(c)).Ok? {
          RequestFits(Normalize(c));
          RequestLayout(c);
        }
    }
  }

  lemma NormalizedBounds(c: Call, rule: AllowedCall, input: Input)
    requires WellFormed(c) && WellFormed(Normalize(c))
    ensures InBounds(Normalize(c), rule, input) <==> InBounds(c, rule, input)
  {
    hide Abi.FitsWord, AllDigits, IsAddress, IsHexData, SpenderCap;
    match c {
      case UsdcApprove(spender, _) => LowerIdempotent(spender);
      case AaveSupply(asset, _, wallet, _) =>
        LowerIdempotent(asset);
        LowerIdempotent(wallet);
      case OlasRequest(_, _, paymentType, mech, _, _) =>
        LowerIdempotent(paymentType);
        LowerIdempotent(mech);
    }
  }

  /** The calldata carries the encoding of the call: all of it for fixed-size calls, all but the
      selector (which the rule pins) for marketplace requests. */
  predicate Carries(data: string, c: Call) {
    && EncodeAllowedCall(c).Ok?
    && SliceFrom(Lower(data), 10) == SliceFrom(EncodeAllowedCall(c).value, 10)
    && (!c.OlasRequest? ==> Lower(data) == EncodeAllowedCall(c).value)
  }

  /** Round trip behind a route: calldata that carries the encoding of an in-bounds call decodes to that call,
      with lower-case hex and canonical decimal amounts. */
  lemma RoutedIsAccepted(c: Call, input: Input, m: Content)
    requires WellFormed(c) && Route(input, m).Ok? && Route(input, m).value.id == IdOf(c)
    requires InBounds(c, Route(input, m).value, input)
    requires |input.data| <= MAX_SAFE_INTEGER && Carries(input.data, c)
    ensures var rule := Route(input, m).value;
      ValidateCalldata(input, m) == Ok(Decoded(Normalize(c), rule.signature, rule.selector))
  {
    hide Route, EncodeOlasRequest, EncodeApprove, EncodeSupply, AllDigits, Concat, Abi.FitsWord, Abi.Word, DecodeOlas,
      DecodeApprove, DecodeSupply, IsAddress, IsLower, DataTail, RequestWords, Normalize, ApproveWords, SupplyWords;
    var rule, payload := Route(input, m).value, Payload(input.data);
    match c {
      case UsdcApprove(spender, amount) =>
        ApproveLayout(spender, amount);
        ApproveRoundTrip(c, payload, rule, input);
      case AaveSupply(_, _, _, _) =>
        SupplyLayout(c);
        SupplyRoundTrip(c, payload, rule, input);
      case OlasRequest(_, _, _, _, _, _) =>
        RequestFits(c);
        RequestLayout(c);
        RequestIsPayload(c, payload, |input.data|);
        RequestRoundTrip(c, payload, rule, input);
    }
  }

  lemma TailContains(s: string)
    requires IsBytes(s)
    ensures |DataTail(s)| >= |s| - 2
  {
    hide Abi.Word;
  }

  lemma RequestIsPayload(c: Call, payload: string, length: nat)
    requires c.OlasRequest? && WellFormed(c) && |c.paymentData| == 2 && c.responseTimeout <= MAX_SAFE_INTEGER
    requires Abi.FitsWord(Value(c.maxDeliveryRate, Dec)) && Abi.FitsWord((|c.requestData| - 2) / 2)
    requires AllDigits(payload, Hex) && |payload| + 10 == length <= MAX_SAFE_INTEGER
    requires payload == SliceFrom("0xf6938b09" + Concat(RequestWords(c)) + DataTail(c.requestData)
                                  + DataTail(c.paymentData), 10)
    ensures RequestPayload(c, payload)
  {
    hide AllDigits, Concat, Abi.FitsWord, Abi.Word, RequestWords, DataTail, IsAddress, IsHexOfLength;
    var a, b, d := Concat(RequestWords(c)), DataTail(c.requestData), DataTail(c.paymentData);
    assert "0xf6938b09" + a + b + d == "0xf6938b09" + (a + (b + d));
    TailContains(c.requestData);
  }

  /** Behind a route, an input decodes to a call if and only if it carries that call's encoding and the call is within
      the bounds of the rule. */
  lemma RoutedAcceptance(c: Call, input: Input, m: Content)
    requires WellFormed(c) && Route(input, m).Ok? && Route(input, m).value.id == IdOf(c)
    requires |input.data| <= MAX_SAFE_INTEGER
    ensures var rule := Route(input, m).value;
      ValidateCalldata(input, m) == Ok(Decoded(Normalize(c), rule.signature, rule.selector))
      <==> InBounds(c, rule, input) && Carries(input.data, c)
  {
    hide Route, EncodeAllowedCall, ValidateCalldata, WellFormed, InBounds, Normalize;
    var rule := Route(input, m).value;
    if ValidateCalldata(input, m) == Ok(Decoded(Normalize(c), rule.signature, rule.selector)) {
      AcceptedIsCanonical(input, m);
      NormalizedEncoding(c);
      NormalizedBounds(c, rule, input);
      var data := Lower(input.data);
      RouteSelectorLength(input, m);
      assert SliceFrom(data, 10) == SliceFrom(EncodeAllowedCall(c).value, 10);
    } else if InBounds(c, rule, input) && Carries(input.data, c) {
      RoutedIsAccepted(c, input, m);
    }
  }

  // Who may be approved

  /** The spenders a constraint names. */
  predicate Named(c: Constraint, spender: string) {
    match c
    case UsdcApproveAave(s, _) => Lower(s) == spender
    case UsdcApproveBoundedSpenders(spenders) => exists i | 0 <= i < |spenders| :: Lower(spenders[i].address) == spender
    case _ => false
  }

  lemma {:induction false} FoundSpenderIsNamed(spenders: seq<Spender>, spender: string)
    requires FindSpender(spenders, spender).Some?
    ensures exists i | 0 <= i < |spenders| :: Lower(spenders[i].address) == spender
  {
    hide Lower;
    if Lower(spenders[0].address) != spender {
      FoundSpenderIsNamed(spenders[1..], spender);
      var i :| 0 <= i < |spenders[1..]| && Lower(spenders[1..][i].address) == spender;
      assert Lower(spenders[i + 1].address) == spender;
    }
  }

  lemma TwoAddresses()
    ensures var a, b := "0x" + Zeros(40), "0x1" + Zeros(39); a != b && IsAddress(a) && IsAddress(b) && Lower(a) == a && Lower(b) == b
  {
    var a, b := "0x" + Zeros(40), "0x1" + Zeros(39);
    assert a[2] == '0' && b[2] == '1';
    assert forall i :: 2 <= i < 42 ==> IsDigit(a[i], Hex) && IsDigit(b[i], Hex);
    assert forall i :: 0 <= i < 42 ==> LowerChar(a[i]) == a[i] && LowerChar(b[i]) == b[i];
  }

  /** Approvals are limited to the named spenders under every kind of constraint except the one that names a single
      spender: there the name is never compared. */
  lemma SpendersLimitedIff(c: Constraint)
    ensures (forall s | IsAddress(s) && Lower(s) == s && SpenderCap(c, s).Some? :: Named(c, s)) <==> !c.UsdcApproveAave?
  {
    hide IsAddress, Lower;
    forall s | SpenderCap(c, s).Some? && !c.UsdcApproveAave? ensures Named(c, s) {
      FoundSpenderIsNamed(c.spenders, s);
    }
    if c.UsdcApproveAave? {
      TwoAddresses();
      var a, b := "0x" + Zeros(40), "0x1" + Zeros(39);
      assert SpenderCap(c, a).Some? && SpenderCap(c, b).Some? && !(Named(c, a) && Named(c, b));
    }
  }

  lemma RouteSelectorLength(input: Input, m: Content)
    requires Route(input, m).Ok?
    ensures |Lower(Route(input, m).value.selector)| == 10
  {
    var c, k := RouteFacts(input, m);
  }

  lemma ApproveWordsWide(spender: string, amount: string)
    requires IsAddress(spender) && IsUnsigned(amount) && Abi.FitsWord(Value(amount, Dec))
    ensures |Concat(ApproveWords(spender, amount))| == 128
  {
    hide Abi.FitsWord, AllDigits, Concat;
    ConcatWidth(ApproveWords(spender, amount), 64);
  }

  // The shape of every encoding

  /** Lower-case hex digits. */
  predicate HexText(s: string) {
    AllDigits(s, Hex) && IsLower(s)
  }

  lemma {:induction false} ConcatHex(words: seq<string>)
    requires forall k :: 0 <= k < |words| ==> HexText(words[k])
    ensures HexText(Concat(words))
  {
    if words != [] {
      ConcatHex(words[1..]);
    }
  }

  lemma TailHex(hex: string)
    requires HexText(hex) && Abi.FitsWord(|hex| / 2)
    ensures HexText(Abi.Tail(Abi.Bytes(hex))) && |Abi.Tail(Abi.Bytes(hex))| % 64 == 0
  {
    hide Abi.FitsWord, Abi.Word, HexText, AllDigits, IsLower, Abi.Padding;
    var w, z := Abi.Word(|hex| / 2), Zeros(Abi.Padding(|hex|));
    WordHex(|hex| / 2);
    ZerosHex(Abi.Padding(|hex|));
    HexConcat(w, hex);
    HexConcat(w + hex, z);
    TailLength(w, hex, z);
  }

  lemma TailLength(w: string, hex: string, z: string)
    requires |w| == 64 && (|hex| + |z|) % 64 == 0
    ensures |w + hex + z| % 64 == 0
  {
  }

  lemma WordHex(n: nat)
    requires Abi.FitsWord(n)
    ensures HexText(Abi.Word(n))
  {
  }

  lemma ZerosHex(n: nat)
    ensures HexText(Zeros(n))
  {
  }

  lemma HexConcat(a: string, b: string)
    requires HexText(a) && HexText(b)
    ensures HexText(a + b)
  {
  }

  lemma AddressHex(address: string)
    requires IsAddress(address)
    ensures |Lower(address)| == 42
    ensures HexText(Zeros(24) + Lower(address)[2..])
  {
    HexDigits(address);
  }

  lemma EncodingShape(selector: string, body: string)
    requires |selector| == 8 && HexText(selector) && HexText(body) && |body| % 64 == 0
    ensures var e := "0x" + selector + body;
      IsHexData(e) && Lower(e) == e && |e| >= 10 && |e| % 64 == 10
  {
    var e := "0x" + selector + body;
    assert e[2..] == selector + body;
    LowerOfLower(e);
  }

  /** An encoding is lower-case hex: four selector bytes followed by whole 32-byte words. */
  lemma EncodedShape(c: Call)
    requires WellFormed(c) && EncodeAllowedCall(c).Ok?
    ensures var e := EncodeAllowedCall(c).value;
      IsHexData(e) && Lower(e) == e && |e| >= 10 && |e| % 64 == 10
  {
    hide Abi.FitsWord, Abi.Word, Concat, AllDigits, IsLower, EncodeOlasRequest, EncodeApprove, EncodeSupply,
      IsHexData, IsAddress, RequestWords, DataTail, ApproveWords, SupplyWords;
    match c {
      case UsdcApprove(spender, amount) =>
        ApproveLayout(spender, amount);
        ApproveWordsHex(spender, amount);
        assert "0x095ea7b3" == "0x" + "095ea7b3";
        EncodingShape("095ea7b3", Concat(ApproveWords(spender, amount)));
      case AaveSupply(_, _, _, _) =>
        SupplyLayout(c);
        SupplyWordsHex(c);
        assert "0x617ba037" == "0x" + "617ba037";
        EncodingShape("617ba037", Concat(SupplyWords(c)));
      case OlasRequest(_, _, _, _, _, _) =>
        RequestFits(c);
        RequestLayout(c);
        RequestBodyHex(c);
        var a, b, d := Concat(RequestWords(c)), DataTail(c.requestData), DataTail(c.paymentData);
        assert "0xf6938b09" + a + b + d == "0x" + "f6938b09" + (a + (b + d));
        EncodingShape("f6938b09", a + (b + d));
    }
  }

  lemma SelectorsHex()
    ensures HexText("095ea7b3") && HexText("617ba037") && HexText("f6938b09")
  {
  }

  lemma ApproveWordsHex(spender: string, amount: string)
    requires IsAddress(spender) && IsUnsigned(amount) && Abi.FitsWord(Value(amount, Dec))
    ensures HexText(Concat(ApproveWords(spender, amount))) && |Concat(ApproveWords(spender, amount))| % 64 == 0
    ensures HexText("095ea7b3")
  {
    hide Abi.FitsWord, Abi.Word, AllDigits, IsLower, Concat;
    var words := ApproveWords(spender, amount);
    SelectorsHex();
    AddressHex(spender);
    ConcatHex(words);
    ConcatWidth(words, 64);
  }

  lemma SupplyWordsHex(c: Call)
    requires c.AaveSupply? && WellFormed(c)
    requires Abi.FitsWord(Value(c.amount, Dec)) && Abi.FitsWord(c.referralCode)
    ensures HexText(Concat(SupplyWords(c))) && |Concat(SupplyWords(c))| % 64 == 0
    ensures HexText("617ba037")
  {
    hide Abi.FitsWord, Abi.Word, AllDigits, IsLower, Concat;
    var words := SupplyWords(c);
    SelectorsHex();
    AddressHex(c.asset);
    AddressHex(c.onBehalfOf);
    ConcatHex(words);
    ConcatWidth(words, 64);
  }

  lemma RequestBodyHex(c: Call)
    requires c.OlasRequest? && WellFormed(c) && EncodeOlasRequest(c).Ok?
    ensures var body := Concat(RequestWords(c)) + (DataTail(c.requestData) + DataTail(c.paymentData));
      HexText(body) && |body| % 64 == 0
    ensures HexText("f6938b09")
  {
    hide Abi.FitsWord, Abi.Word, Abi.Tail, Concat, EncodeOlasRequest, IsAddress, RequestWords, HexText;
    SelectorsHex();
    RequestFits(c);
    RequestHeadHex(c);
    DataTailHex(c.requestData);
    DataTailHex(c.paymentData);
    HexConcat(DataTail(c.requestData), DataTail(c.paymentData));
    HexConcat(Concat(RequestWords(c)), DataTail(c.requestData) + DataTail(c.paymentData));
  }

  lemma DataTailHex(s: string)
    requires IsBytes(s) && Abi.FitsWord((|s| - 2) / 2)
    ensures HexText(DataTail(s)) && |DataTail(s)| % 64 == 0
  {
    hide Abi.FitsWord, Abi.Tail;
    HexDigits(s);
    TailHex(Lower(s)[2..]);
  }

  lemma RequestHeadHex(c: Call)
    requires c.OlasRequest? && WellFormed(c)
    requires Abi.FitsWord(192) && Abi.FitsWord(Value(c.maxDeliveryRate, Dec)) && Abi.FitsWord(c.responseTimeout)
    requires Abi.FitsWord(192 + |DataTail(c.requestData)| / 2)
    ensures HexText(Concat(RequestWords(c))) && |Concat(RequestWords(c))| == 384
  {
    hide Abi.FitsWord, Abi.Word, Concat, IsAddress, DataTail, HexText;
    HexDigits(c.paymentType);
    PaymentTypeHex(c.paymentType);
    AddressHex(c.priorityMech);
    WordHex(192);
    WordHex(Value(c.maxDeliveryRate, Dec));
    WordHex(c.responseTimeout);
    WordHex(192 + |DataTail(c.requestData)| / 2);
    ConcatHex(RequestWords(c));
    ConcatWidth(RequestWords(c), 64);
  }

  lemma PaymentTypeHex(s: string)
    requires IsHexData(s)
    ensures HexText(Lower(s)[2..])
  {
    HexDigits(s);
  }
}
