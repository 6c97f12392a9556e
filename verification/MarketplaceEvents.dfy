/** Reading the request id out of a receipt's marketplace event (packages/olas-contracts/src/events.ts). */
module MarketplaceEvents {
  import opened Results
  import opened Text
  import opened Numerals
  import opened Manifest
  import opened Receipts
  import Abi = AbiEncoding

  datatype EventError =
    | MalformedAddress | MalformedTopic | NotExactlyOne | MalformedData | Truncated | TooLarge | OffsetNotCanonical
    | NotOneRequest | ZeroRequestId

  type Read<T> = Result<T, EventError>

  function Check(ok: bool, otherwise: EventError): Read<()> {
    if ok then Ok(()) else Err(otherwise)
  }

  function TopicAddress(topic: string): Read<string> {
    var _ :- Check(IsHexOfLength(topic, 64), MalformedTopic);
    var _ :- Check(topic[2..26] == Zeros(24), MalformedTopic);
    NormalAddress("0x" + topic[26..], MalformedAddress)
  }

  function TopicAt(topics: seq<string>, i: nat): string {
    if i < |topics| then topics[i] else ""
  }

  /** What the caller expects of the event, in lower case; `topic` is the hashed event signature. */
  datatype Expected = Expected(marketplace: string, topic: string, mech: string, requester: string)

  /** Conditions are tried from left to right; a malformed topic of a marketplace event is an error. */
  function Matches(l: Log, e: Expected): Read<bool> {
    var address :- NormalAddress(l.address, MalformedAddress);
    if address != e.marketplace || l.topics == [] || Lower(l.topics[0]) != e.topic then Ok(false)
    else
      var mech :- TopicAddress(TopicAt(l.topics, 1));
      if mech != e.mech then Ok(false)
      else
        var requester :- TopicAddress(TopicAt(l.topics, 2));
        Ok(requester == e.requester)
  }

  function Matching(logs: seq<Log>, e: Expected): Read<seq<Log>> {
    if logs == [] then Ok([])
    else
      var first :- Matches(logs[0], e);
      var rest :- Matching(logs[1..], e);
      Ok(if first then [logs[0]] + rest else rest)
  }

  function WordAt(data: string, byteOffset: nat): (r: Read<string>)
    ensures r.Ok? <==> 2 + byteOffset * 2 + 64 <= |data|
    ensures r.Ok? ==> r.value == data[2 + byteOffset * 2..2 + byteOffset * 2 + 64]
  {
    var start := 2 + byteOffset * 2;
    var value := Slice(data, start, start + 64);
    if |value| != 64 then Err(Truncated) else Ok(value)
  }

  function Unsigned(word: string): (r: Read<nat>)
    ensures r.Ok? ==> AllDigits(word, Hex) && r.value == Value(word, Hex) <= MAX_SAFE_INTEGER
  {
    if !AllDigits(word, Hex) then Err(MalformedData)
    else if Value(word, Hex) > MAX_SAFE_INTEGER then Err(TooLarge)
    else Ok(Value(word, Hex))
  }

  /** The single id of the event data. */
  function DecodeRequestId(data: string): Read<string> {
    var _ :- Check(IsHexData(data), MalformedData);
    var countWord :- WordAt(data, 0);
    var count :- Unsigned(countWord);
    var offsetWord :- WordAt(data, 32);
    var offset :- Unsigned(offsetWord);
    var _ :- Check(offset >= 96 && offset % 32 == 0, OffsetNotCanonical);
    var lengthWord :- WordAt(data, offset);
    var length :- Unsigned(lengthWord);
    var _ :- Check(count == 1 && length == 1, NotOneRequest);
    var id :- WordAt(data, offset + 32);
    var _ :- Check(Lower(id) != Zeros(64), ZeroRequestId);
    Ok("0x" + Lower(id))
  }

  function ExtractRequestId(logs: seq<Log>, marketplace: string, topic: string, mech: string, requester: string): Read<string> {
    var m :- NormalAddress(marketplace, MalformedAddress);
    var expectedMech :- NormalAddress(mech, MalformedAddress);
    var expectedRequester :- NormalAddress(requester, MalformedAddress);
    var matching :- Matching(logs, Expected(m, topic, expectedMech, expectedRequester));
    var _ :- Check(|matching| == 1, NotExactlyOne);
    DecodeRequestId(matching[0].data)
  }

  // Which event is read

  /** The one log that matches, when exactly one does. */
  lemma {:induction false} OneMatching(logs: seq<Log>, e: Expected) returns (k: nat)
    requires Matching(logs, e).Ok? && |Matching(logs, e).value| == 1
    ensures k < |logs| && Matching(logs, e).value == [logs[k]]
    ensures forall i | 0 <= i < |logs| :: Matches(logs[i], e) == Ok(i == k)
  {
    hide Matches;
    if Matches(logs[0], e).value {
      k := 0;
      NoneMatching(logs[1..], e);
      forall i | 0 < i < |logs| ensures Matches(logs[i], e) == Ok(false) {
        assert logs[i] == logs[1..][i - 1];
      }
    } else {
      var j := OneMatching(logs[1..], e);
      k := j + 1;
      forall i | 0 < i < |logs| ensures Matches(logs[i], e) == Ok(i == k) {
        assert logs[i] == logs[1..][i - 1];
      }
    }
  }

  lemma {:induction false} NoneMatching(logs: seq<Log>, e: Expected)
    requires Matching(logs, e) == Ok([])
    ensures forall i | 0 <= i < |logs| :: Matches(logs[i], e) == Ok(false)
  {
    hide Matches;
    if logs != [] {
      NoneMatching(logs[1..], e);
      forall i | 0 < i < |logs| ensures Matches(logs[i], e) == Ok(false) {
        assert logs[i] == logs[1..][i - 1];
      }
    }
  }

  lemma {:induction false} MatchingOf(logs: seq<Log>, e: Expected, k: nat)
    requires k < |logs| && forall i | 0 <= i < |logs| :: Matches(logs[i], e) == Ok(i == k)
    ensures Matching(logs, e) == Ok([logs[k]])
  {
    hide Matches;
    assert Matches(logs[0], e) == Ok(0 == k);
    if k == 0 {
      AllOthers(logs[1..], e);
      assert [logs[0]] + [] == [logs[0]];
    } else {
      MatchingOf(logs[1..], e, k - 1);
    }
  }

  lemma {:induction false} AllOthers(logs: seq<Log>, e: Expected)
    requires forall i | 0 <= i < |logs| :: Matches(logs[i], e) == Ok(false)
    ensures Matching(logs, e) == Ok([])
  {
    hide Matches;
    if logs != [] {
      AllOthers(logs[1..], e);
    }
  }

  /** An id is returned exactly when one log, and no other, is the marketplace's event for this Mech and requester,
      no log is malformed, and that log's data holds one nonzero id. */
  lemma ExtractedIff(logs: seq<Log>, marketplace: string, topic: string, mech: string, requester: string, id: string)
    requires IsAddress(marketplace) && IsAddress(mech) && IsAddress(requester)
    ensures var e := Expected(Lower(marketplace), topic, Lower(mech), Lower(requester));
      ExtractRequestId(logs, marketplace, topic, mech, requester) == Ok(id) <==>
      exists k | 0 <= k < |logs| ::
        (forall i | 0 <= i < |logs| :: Matches(logs[i], e) == Ok(i == k)) && DecodeRequestId(logs[k].data) == Ok(id)
  {
    hide Matches, Matching, DecodeRequestId, IsAddress, Lower;
    var e := Expected(Lower(marketplace), topic, Lower(mech), Lower(requester));
    if ExtractRequestId(logs, marketplace, topic, mech, requester) == Ok(id) {
      var k := OneMatching(logs, e);
    }
    if k :| 0 <= k < |logs| && (forall i | 0 <= i < |logs| :: Matches(logs[i], e) == Ok(i == k)) && DecodeRequestId(logs[k].data) == Ok(id) {
      MatchingOf(logs, e, k);
    }
  }

  /** The word at a byte offset of the data is there and has this value. */
  predicate WordIs(data: string, at: nat, value: nat) {
    && 2 + 2 * at + 64 <= |data|
    && var word := data[2 + 2 * at..2 + 2 * at + 64];
    AllDigits(word, Hex) && Value(word, Hex) == value
  }

  /** The data of an event for one request: a count of one, the aligned offset of the ids behind the head, one id there,
      which is not zero. */
  predicate HoldsId(data: string, offset: nat, id: string) {
    && IsHexData(data) && WordIs(data, 0, 1) && WordIs(data, 32, offset)
    && 96 <= offset <= MAX_SAFE_INTEGER && offset % 32 == 0 && WordIs(data, offset, 1)
    && 2 + 2 * (offset + 32) + 64 <= |data| && !WordIs(data, offset + 32, 0)
    && id == "0x" + Lower(data[2 + 2 * (offset + 32)..2 + 2 * (offset + 32) + 64])
  }

  /** Event data yields an id exactly when it is the data of an event for one request with that id. */
  lemma DecodedIff(data: string, id: string)
    ensures DecodeRequestId(data) == Ok(id) <==> exists offset: nat :: HoldsId(data, offset, id)
  {
    hide Value, AllDigits, Lower, WordAt, Unsigned, WordIs, HoldsId, IsHexData, DecodeRequestId;
    if DecodeRequestId(data) == Ok(id) {
      DecodedHolds(data, id);
    }
    if offset: nat :| HoldsId(data, offset, id) {
      HeldDecodes(data, offset, id);
    }
  }

  /** A word that is read as a number. */
  function NumberAt(data: string, at: nat): Read<nat> {
    var word :- WordAt(data, at);
    Unsigned(word)
  }

  lemma NumberIff(data: string, at: nat, n: nat)
    requires IsHexData(data)
    ensures NumberAt(data, at) == Ok(n) <==> WordIs(data, at, n) && n <= MAX_SAFE_INTEGER
  {
    hide Value, AllDigits;
    if WordAt(data, at).Ok? {
      HexPart(data, 2 + 2 * at);
    }
  }

  lemma HexPart(data: string, at: nat)
    requires IsHexData(data) && 2 <= at && at + 64 <= |data|
    ensures AllDigits(data[at..at + 64], Hex)
  {
    assert data[at..at + 64] == data[2..][at - 2..at + 62];
  }

  lemma ZeroIff(data: string, at: nat)
    requires IsHexData(data) && WordAt(data, at).Ok?
    ensures Lower(WordAt(data, at).value) == Zeros(64) <==> WordIs(data, at, 0)
  {
    hide Value, AllDigits, Lower;
    HexPart(data, 2 + 2 * at);
    var word := WordAt(data, at).value;
    NoDigits();
    LeadingZeros(64, "", Hex);
    assert Zeros(64) + "" == Zeros(64);
    LowerKeepsValue(word, Hex);
    if Value(word, Hex) == 0 {
      ValueInjective(word, Zeros(64), Hex);
      ZerosAreLower();
    }
  }

  lemma NoDigits()
    ensures AllDigits("", Hex) && Value("", Hex) == 0
  {
  }

  lemma ZerosAreLower()
    ensures Lower(Zeros(64)) == Zeros(64)
  {
  }

  /** The reads of a decoding, in order. */
  lemma DecodeReads(data: string, id: string)
    ensures DecodeRequestId(data) == Ok(id) <==>
      && IsHexData(data) && NumberAt(data, 0) == Ok(1) && NumberAt(data, 32).Ok?
      && var offset := NumberAt(data, 32).value;
      && 96 <= offset && offset % 32 == 0 && NumberAt(data, offset) == Ok(1)
      && WordAt(data, offset + 32).Ok? && Lower(WordAt(data, offset + 32).value) != Zeros(64)
      && id == "0x" + Lower(WordAt(data, offset + 32).value)
  {
    hide Unsigned, Lower, IsHexData, WordAt;
  }

  lemma DecodedHolds(data: string, id: string)
    requires DecodeRequestId(data) == Ok(id)
    ensures exists offset: nat :: HoldsId(data, offset, id)
  {
    hide Unsigned, Lower, IsHexData, WordIs, DecodeRequestId, NumberAt, WordAt, HoldsId;
    DecodeReads(data, id);
    var offset := NumberAt(data, 32).value;
    NumberIff(data, 0, 1);
    NumberIff(data, 32, offset);
    NumberIff(data, offset, 1);
    IdHeld(data, offset, id);
  }

  lemma IdHeld(data: string, offset: nat, id: string)
    requires IsHexData(data) && WordIs(data, 0, 1) && WordIs(data, 32, offset) && WordIs(data, offset, 1)
    requires 96 <= offset <= MAX_SAFE_INTEGER && offset % 32 == 0
    requires WordAt(data, offset + 32).Ok? && Lower(WordAt(data, offset + 32).value) != Zeros(64)
    requires id == "0x" + Lower(WordAt(data, offset + 32).value)
    ensures HoldsId(data, offset, id)
  {
    hide Lower, IsHexData, WordIs;
    ZeroIff(data, offset + 32);
  }

  lemma HeldDecodes(data: string, offset: nat, id: string)
    requires HoldsId(data, offset, id)
    ensures DecodeRequestId(data) == Ok(id)
  {
    hide Unsigned, Lower, IsHexData, WordIs, DecodeRequestId, NumberAt;
    DecodeReads(data, id);
    NumberIff(data, 0, 1);
    NumberIff(data, 32, offset);
    NumberIff(data, offset, 1);
    ZeroIff(data, offset + 32);
  }

  /** Which logs match: the emitter, the signature, and both indexed addresses in full words. */
  lemma MatchesIff(l: Log, e: Expected)
    requires IsAddress(l.address) && |l.topics| >= 3 && IsHexOfLength(l.topics[1], 64) && IsHexOfLength(l.topics[2], 64)
    ensures Matches(l, e) == Ok(true) <==>
      && Lower(l.address) == e.marketplace && Lower(l.topics[0]) == e.topic
      && Lower(l.topics[1]) == "0x" + Zeros(24) + SliceFrom(e.mech, 2) && |e.mech| == 42 && e.mech[..2] == "0x"
      && Lower(l.topics[2]) == "0x" + Zeros(24) + SliceFrom(e.requester, 2) && |e.requester| == 42 && e.requester[..2] == "0x"
  {
    hide IsAddress, IsHexOfLength, Lower, TopicAddress;
    TopicAddressIff(l.topics[1], e.mech);
    TopicAddressIff(l.topics[2], e.requester);
  }

  lemma TopicAddressIff(topic: string, address: string)
    requires IsHexOfLength(topic, 64)
    ensures TopicAddress(topic) == Ok(address) <==>
      Lower(topic) == "0x" + Zeros(24) + SliceFrom(address, 2) && |address| == 42 && address[..2] == "0x"
  {
    hide AllDigits;
    var low := Lower(topic);
    TopicParts(topic);
    if TopicAddress(topic) == Ok(address) {
      assert address == "0x" + Lower(topic[26..]);
    }
    if low == "0x" + Zeros(24) + SliceFrom(address, 2) && |address| == 42 && address[..2] == "0x" {
      assert low[2..26] == Zeros(24) && low[26..] == address[2..];
      assert address == address[..2] + address[2..];
      ZeroDigits(topic);
    }
  }

  lemma TopicParts(topic: string)
    requires IsHexOfLength(topic, 64)
    ensures Lower(topic) == "0x" + Lower(topic[2..26]) + Lower(topic[26..])
    ensures IsAddress("0x" + topic[26..]) && Lower("0x" + topic[26..]) == "0x" + Lower(topic[26..])
    ensures topic[2..26] == Zeros(24) ==> Lower(topic[2..26]) == Zeros(24)
  {
    assert ("0x" + topic[26..])[2..] == topic[26..];
    assert topic[26..] == topic[2..][24..];
    LowerSlice(topic, 2, 26);
    LowerSlice(topic, 26, 66);
    LowerConcat("0x", topic[26..]);
    assert Lower(topic)[0] == '0' && Lower(topic)[1] == 'x';
  }

  lemma ZeroDigits(topic: string)
    requires |topic| == 66 && Lower(topic)[2..26] == Zeros(24)
    ensures topic[2..26] == Zeros(24)
  {
    forall i | 2 <= i < 26 ensures topic[i] == '0' {
      assert Lower(topic)[i] == Lower(topic)[2..26][i - 2];
      assert LowerChar(topic[i]) == '0';
    }
  }

  // Round trip

  /** The data of a single-request event: count, offset of the ids, offset of the datas, one id, then anything. */
  function EventData(id: string, second: string, rest: string): string {
    "0x" + Abi.Word(1) + Abi.Word(96) + second + Abi.Word(1) + id + rest
  }

  lemma FiveWords(a: string, b: string, c: string, d: string, e: string, rest: string)
    requires |a| == |b| == |c| == |d| == |e| == 64
    ensures var t := "0x" + a + b + c + d + e + rest;
      && |t| == 322 + |rest| && t[0] == '0' && t[1] == 'x'
      && t[2..66] == a && t[66..130] == b && t[194..258] == d && t[258..322] == e
  {
  }

  lemma EventLayout(id: string, second: string, rest: string)
    requires |id| == 64 && |second| == 64
    ensures var d := EventData(id, second, rest);
      && |d| == 322 + |rest|
      && d[2..66] == Abi.Word(1) && d[66..130] == Abi.Word(96) && d[194..258] == Abi.Word(1) && d[258..322] == id
  {
    hide Abi.Word;
    SmallWords();
    FiveWords(Abi.Word(1), Abi.Word(96), second, Abi.Word(1), id, rest);
  }

  lemma SmallWords()
    ensures Abi.FitsWord(1) && Abi.FitsWord(96)
  {
    PowGrows(Hex, 2, 64);
    assert Pow(Hex, 2) == 256 by { assert Pow(Hex, 1) == 16; }
  }

  lemma SmallWordDecodes(n: nat)
    requires n == 1 || n == 96
    ensures Abi.FitsWord(n) && Unsigned(Abi.Word(n)) == Ok(n)
  {
    hide Value, AllDigits;
    SmallWords();
  }

  lemma EventIsHex(id: string, second: string, rest: string)
    requires |id| == 64 && |second| == 64 && AllDigits(id, Hex) && AllDigits(second, Hex) && AllDigits(rest, Hex)
    ensures IsHexData(EventData(id, second, rest))
  {
    hide Value, Abi.Word, AllDigits;
    SmallWordDecodes(1);
    SmallWordDecodes(96);
    HexJoin(Abi.Word(1), Abi.Word(96));
    HexJoin(Abi.Word(1) + Abi.Word(96), second);
    HexJoin(Abi.Word(1) + Abi.Word(96) + second, Abi.Word(1));
    HexJoin(Abi.Word(1) + Abi.Word(96) + second + Abi.Word(1), id);
    HexJoin(Abi.Word(1) + Abi.Word(96) + second + Abi.Word(1) + id, rest);
    var body := Abi.Word(1) + Abi.Word(96) + second + Abi.Word(1) + id + rest;
    assert EventData(id, second, rest) == "0x" + body;
    assert ("0x" + body)[2..] == body;
  }

  lemma HexJoin(a: string, b: string)
    requires AllDigits(a, Hex) && AllDigits(b, Hex)
    ensures AllDigits(a + b, Hex)
  {
  }

  lemma DecodeWords(d: string, id: string)
    requires IsHexData(d) && |d| >= 322
    requires d[2..66] == Abi.Word(1) && d[66..130] == Abi.Word(96) && d[194..258] == Abi.Word(1) && d[258..322] == id
    requires Lower(id) != Zeros(64)
    ensures DecodeRequestId(d) == Ok("0x" + Lower(id))
  {
    hide Value, Abi.Word, AllDigits, IsHexData, Unsigned, Lower, WordAt;
    SmallWordDecodes(1);
    SmallWordDecodes(96);
    WordsOf(d);
  }

  /** The four words that decoding reads. */
  lemma WordsOf(d: string)
    requires |d| >= 322
    ensures WordAt(d, 0) == Ok(d[2..66]) && WordAt(d, 32) == Ok(d[66..130])
    ensures WordAt(d, 96) == Ok(d[194..258]) && WordAt(d, 128) == Ok(d[258..322])
  {
  }

  /** Event data that encodes one nonzero id gives back that id in lower case, whatever payload follows. */
  lemma EventRoundTrip(id: string, second: string, rest: string)
    requires |id| == 64 && |second| == 64 && AllDigits(id, Hex) && AllDigits(second, Hex) && AllDigits(rest, Hex)
    requires Lower(id) != Zeros(64)
    ensures DecodeRequestId(EventData(id, second, rest)) == Ok("0x" + Lower(id))
  {
    hide AllDigits, EventData, IsHexData, DecodeRequestId, Lower;
    EventLayout(id, second, rest);
    EventIsHex(id, second, rest);
    DecodeWords(EventData(id, second, rest), id);
  }
}
