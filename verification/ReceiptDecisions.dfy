/** The reconciliation decision: exactly when each answer is given, what a verified success says of the raw evidence,
    and when a decision stays while evidence grows (packages/keeperhub-client/src/receipt-verification.ts). */
module ReceiptDecisions {
  import opened Results
  import opened Text
  import opened Numerals
  import opened Manifest
  import opened CanonicalJson
  import opened Hashing
  import opened SafeExecution
  import opened GatewayStore
  import opened Receipts
  import opened ReceiptLaws

  /** The evidence names the right execution and transaction. */
  predicate RightExecution(q: Question, k: KeeperHub) {
    && (k.executionId.None? || k.executionId.value == q.executionId)
    && (q.expectedTransactionHash.Some? && k.transactionHash.Some? ==>
          k.transactionHash.value == Lower(q.expectedTransactionHash.value))
  }

  /** The service names the right transaction, and the node is asked for it on Base. */
  predicate Asked(q: Question, k: KeeperHub, node: Node) {
    RightExecution(q, k) && k.transactionHash.Some? && node.chainId == Ok("0x2105")
  }

  /** Both receipts are there for the named transaction, and equal field by field. */
  predicate Agreed(q: Question, k: KeeperHub, node: Node) {
    && Asked(q, k, node)
    && k.fields.Some? && node.receipt == Found(k.fields.value)
    && k.fields.value.transactionHash == k.transactionHash.value
  }

  /** Something in the evidence contradicts the question or itself. */
  predicate Contradicts(q: Question, k: KeeperHub, node: Node) {
    || !RightExecution(q, k)
    || (k.transactionHash.Some? && node.chainId.Ok? && node.chainId.value != "0x2105")
    || (Asked(q, k, node)
        && (|| node.receipt.Illegible?
            || (node.receipt.Found?
                && (|| node.receipt.fields.transactionHash != k.transactionHash.value
                    || (k.fields.Some? && k.fields.value != node.receipt.fields)))))
  }

  /** No failure event of the Safe, and its success event where one is required. */
  predicate SafeAccepts(q: Question, f: Fields) {
    && SafeOutcomeOf(f, q.safeAddress, q.topics) != SafeFailure
    && (q.safeAddress.Some? && q.requireSafeSuccess ==> SafeOutcomeOf(f, q.safeAddress, q.topics) == SafeSuccess)
  }

  /** The service says itself that the execution is verified and its transaction succeeded. */
  predicate Asserts(k: KeeperHub) {
    k.verified && k.receiptStatus == Some(true)
  }

  /** Nothing contradicts, and something is still missing: the transaction, a receipt on either side, the Safe's
      success event or the service's assertion. */
  predicate Awaited(q: Question, k: KeeperHub, node: Node) {
    && RightExecution(q, k)
    && (|| k.transactionHash.None?
        || (Asked(q, k, node) && node.receipt.NotFound?)
        || (Asked(q, k, node) && node.receipt.Found? && k.fields.None?
            && node.receipt.fields.transactionHash == k.transactionHash.value)
        || (Agreed(q, k, node) && k.fields.value.success
            && SafeOutcomeOf(k.fields.value, q.safeAddress, q.topics) != SafeFailure
            && !(SafeAccepts(q, k.fields.value) && Asserts(k))))
  }

  lemma HashesAgree(hash: Hash, k: KeeperHub, node: Node)
    requires CollisionFree(hash)
    ensures k.fields.Some? && node.receipt.Found? ==>
              (HashReceipt(hash, k.fields.value) == HashReceipt(hash, node.receipt.fields) <==>
               k.fields.value == node.receipt.fields)
  {
    hide HashReceipt;
    if k.fields.Some? && node.receipt.Found? {
      ReceiptHashBinds(hash, k.fields.value, node.receipt.fields);
    }
  }

  /** A mismatch is decided exactly on a service response that cannot be read or on contradicting evidence. */
  lemma MismatchIff(hash: Hash, q: Question, response: Evidenced<KeeperHub>, node: Node, now: int)
    requires CollisionFree(hash)
    ensures Decide(hash, q, response, node, now) == Ok(EvidenceMismatch) <==>
            response.Err? || Contradicts(q, response.value, node)
  {
    hide HashReceipt, SafeOutcomeOf, Lower;
    if response.Ok? {
      HashesAgree(hash, response.value, node);
    }
  }

  /** Failures are decided exactly on agreed receipts: the Safe's own failure first, then a reverted transaction. */
  lemma FailureIff(hash: Hash, q: Question, k: KeeperHub, node: Node, now: int)
    requires CollisionFree(hash)
    ensures Decide(hash, q, Ok(k), node, now) == Ok(SafeInnerFailure) <==>
            Agreed(q, k, node) && SafeOutcomeOf(k.fields.value, q.safeAddress, q.topics) == SafeFailure
    ensures Decide(hash, q, Ok(k), node, now) == Ok(Reverted) <==>
            Agreed(q, k, node) && SafeOutcomeOf(k.fields.value, q.safeAddress, q.topics) != SafeFailure
            && !k.fields.value.success
  {
    hide HashReceipt, SafeOutcomeOf, Lower;
    HashesAgree(hash, k, node);
  }

  /** Success is exactly: agreed receipts that were not reverted, a Safe that accepts, and the service's own assertion. */
  lemma VerifiedIff(hash: Hash, q: Question, k: KeeperHub, node: Node, now: int)
    requires CollisionFree(hash)
    ensures Decide(hash, q, Ok(k), node, now) == Ok(VerifiedSuccess) <==>
            Agreed(q, k, node) && k.fields.value.success && SafeAccepts(q, k.fields.value) && Asserts(k)
  {
    hide HashReceipt, SafeOutcomeOf, Lower;
    HashesAgree(hash, k, node);
  }

  /** The two pending answers are given exactly while something is awaited, and the deadline tells them apart. */
  lemma PendingIff(hash: Hash, q: Question, k: KeeperHub, node: Node, now: int)
    requires CollisionFree(hash)
    ensures Decide(hash, q, Ok(k), node, now) == Ok(Unconfirmed) <==> Awaited(q, k, node) && now < q.deadline
    ensures Decide(hash, q, Ok(k), node, now) == Ok(TimedOut) <==> Awaited(q, k, node) && q.deadline <= now
  {
    hide HashReceipt, SafeOutcomeOf, Lower;
    HashesAgree(hash, k, node);
  }

  /** No decision is made, and an error is thrown, exactly when the node does not say which chain it is on, or, on
      Base, does not answer for the receipt. */
  lemma ThrowsIff(hash: Hash, q: Question, k: KeeperHub, node: Node, now: int)
    ensures Decide(hash, q, Ok(k), node, now).Err? <==>
            || (RightExecution(q, k) && k.transactionHash.Some? && node.chainId.Err?)
            || (Asked(q, k, node) && node.receipt.Unreachable?)
  {
    hide HashReceipt, SafeOutcomeOf, Lower;
  }

  // Raw evidence

  /** What a verified success says of what was received: the service's response holds a receipt, the node returned one
      on chain 8453, the two agree in every field and every log, and the receipt reports success. */
  predicate RawAgreement(response: seq<Property>, node: RawNode) {
    && QuantityValue(node.chainId) == Some(8453)
    && Nested(response).Some? && node.receipt.Some? && node.receipt.value.VObject?
    && AgreeingReceipts(Nested(response).value, node.receipt.value.fields)
    && SaysSuccess(Lookup(node.receipt.value.fields, "status"))
  }

  lemma BaseChain(v: Option<HostValue>)
    ensures NormalizeQuantity(v) == Ok("0x2105") <==> QuantityValue(v) == Some(8453)
  {
    hide QuantityValue;
    BaseNumeral();
    match QuantityValue(v)
    case None =>
    case Some(n) =>
      assert "0x" + Numeral(8453, Hex) == "0x2105";
      assert ("0x" + Numeral(n, Hex))[2..] == Numeral(n, Hex) && ("0x" + Numeral(8453, Hex))[2..] == Numeral(8453, Hex);
      assert Value(Numeral(n, Hex), Hex) == n;
  }

  lemma BaseNumeral()
    ensures Numeral(8453, Hex) == "2105" && Value(Numeral(8453, Hex), Hex) == 8453
  {
    assert Numeral(2, Hex) == "2" && Numeral(33, Hex) == "21" && Numeral(528, Hex) == "210";
  }

  lemma KeeperHubFields(response: seq<Property>)
    requires NormalizeKeeperHub(response).Ok? && NormalizeKeeperHub(response).value.fields.Some?
    ensures Nested(response).Some?
    ensures NormalizeReceipt(Nested(response).value) == Ok(NormalizeKeeperHub(response).value.fields.value)
  {
    hide Nested, NormalizeReceipt, First, Sources, TransactionHashOf;
  }

  /** A verified success on raw evidence: both sides answered and agree on everything. */
  lemma VerifiedAgreement(hash: Hash, q: Question, response: seq<Property>, node: RawNode, now: int)
    requires CollisionFree(hash) && Reconcile(hash, q, response, node, now) == Ok(VerifiedSuccess)
    ensures RawAgreement(response, node)
    ensures NormalizeKeeperHub(response).Ok? && RightExecution(q, NormalizeKeeperHub(response).value)
            && Asserts(NormalizeKeeperHub(response).value)
    ensures ReadReceipt(node.receipt).Found? && SafeAccepts(q, ReadReceipt(node.receipt).fields)
            && NormalizeKeeperHub(response).value.transactionHash == Some(ReadReceipt(node.receipt).fields.transactionHash)
  {
    hide NormalizeKeeperHub, NormalizeReceipt, Decide, Nested, AgreeingReceipts, SafeAccepts, NormalizeQuantity, Lower, QuantityValue;
    if NormalizeKeeperHub(response).Err? {
      MismatchIff(hash, q, NormalizeKeeperHub(response), ReadNode(node), now);
    }
    var k, n := NormalizeKeeperHub(response).value, ReadNode(node);
    VerifiedIff(hash, q, k, n, now);
    BaseChain(node.chainId);
    KeeperHubFields(response);
    ReceiptsAgreeIff(Nested(response).value, node.receipt.value.fields);
    ReceiptStatus(node.receipt.value.fields);
    StatusIff(Lookup(node.receipt.value.fields, "status"));
  }

  // The decision on raw evidence

  /** A raw log by which this Safe emits this event: its address and first topic, in any letter case. */
  predicate RawEmits(v: HostValue, safe: string, topic: string) {
    match v
    case VObject(fields) =>
      (match (Lookup(fields, "address"), Lookup(fields, "topics"))
       case (Some(VString(address)), Some(VArray(topics))) =>
         Lower(address) == Lower(safe) && topics != [] && topics[0].VString? && Lower(topics[0].s) == topic
       case _ => false)
    case _ => false
  }

  predicate SomeEmits(fields: seq<Property>, safe: string, topic: string) {
    match Lookup(fields, "logs")
    case Some(VArray(logs)) => exists i | 0 <= i < |logs| :: RawEmits(logs[i], safe, topic)
    case _ => false
  }

  lemma EmitsIff(v: HostValue, safe: string, topic: string)
    requires NormalizeLog(v).Ok?
    ensures Emits(NormalizeLog(v).value, safe, topic) <==> RawEmits(v, safe, topic)
  {
    hide Lower, NormalizeQuantity, Lookup;
    var topics := Lookup(v.fields, "topics").value.items;
    if topics != [] {
      assert NormalizeTopics(topics).value[0] == BytesOf(Some(topics[0])).value;
    }
  }

  lemma SomeEmitsIff(fields: seq<Property>, safe: string, topic: string)
    requires NormalizeReceipt(fields).Ok?
    ensures SomeEmits(fields, safe, topic) <==>
            exists i | 0 <= i < |NormalizeReceipt(fields).value.logs| :: Emits(NormalizeReceipt(fields).value.logs[i], safe, topic)
  {
    hide NormalizeReceipt, NormalizeLog, Emits, RawEmits, Lookup;
    HasLogs(fields);
    var logs := Lookup(fields, "logs").value.items;
    var read := NormalizeReceipt(fields).value.logs;
    forall i | 0 <= i < |logs| ensures RawEmits(logs[i], safe, topic) <==> Emits(read[i], safe, topic) {
      EmitsIff(logs[i], safe, topic);
    }
  }

  lemma HasLogs(fields: seq<Property>)
    requires NormalizeReceipt(fields).Ok?
    ensures Lookup(fields, "logs").Some? && Lookup(fields, "logs").value.VArray?
    ensures NormalizeLogs(Lookup(fields, "logs").value.items) == Ok(NormalizeReceipt(fields).value.logs)
  {
    hide Lower, QuantityValue, NormalizeQuantity, NormalizeLogs, NormalizeStatus, Lookup, AddressOf, BytesOf, TransactionHashOf,
         Recipient;
  }

  /** A failure event of the Safe in question. */
  predicate SafeFails(q: Question, fields: seq<Property>) {
    q.safeAddress.Some? && SomeEmits(fields, q.safeAddress.value, q.topics.failure)
  }

  /** Its success event, where the question wants one. */
  predicate SafeSucceeds(q: Question, fields: seq<Property>) {
    q.safeAddress.Some? && q.requireSafeSuccess ==> SomeEmits(fields, q.safeAddress.value, q.topics.success)
  }

  lemma SafeIff(q: Question, fields: seq<Property>)
    requires NormalizeReceipt(fields).Ok?
    ensures var f := NormalizeReceipt(fields).value;
      && (SafeOutcomeOf(f, q.safeAddress, q.topics) == SafeFailure <==> SafeFails(q, fields))
      && (SafeAccepts(q, f) <==> !SafeFails(q, fields) && SafeSucceeds(q, fields))
  {
    hide NormalizeReceipt, Emits, SomeEmits;
    if q.safeAddress.Some? {
      SomeEmitsIff(fields, q.safeAddress.value, q.topics.failure);
      SomeEmitsIff(fields, q.safeAddress.value, q.topics.success);
    }
  }

  /** The service's response can be read, names the right execution and transaction, and holds a receipt; the node
      returned one on chain 8453 that can be read; and the two agree in every field and every log. */
  predicate RawAgreed(q: Question, response: seq<Property>, node: RawNode) {
    && NormalizeKeeperHub(response).Ok? && RightExecution(q, NormalizeKeeperHub(response).value)
    && QuantityValue(node.chainId) == Some(8453)
    && Nested(response).Some? && node.receipt.Some? && node.receipt.value.VObject?
    && NormalizeReceipt(node.receipt.value.fields).Ok?
    && AgreeingReceipts(Nested(response).value, node.receipt.value.fields)
    && NormalizeKeeperHub(response).value.transactionHash.Some?
    && SameHex(Some(VString(NormalizeKeeperHub(response).value.transactionHash.value)),
               Lookup(node.receipt.value.fields, "transactionHash"))
  }

  lemma HashReads(fields: seq<Property>)
    requires NormalizeReceipt(fields).Ok?
    ensures Lookup(fields, "transactionHash").Some? && Lookup(fields, "transactionHash").value.VString?
    ensures NormalizeReceipt(fields).value.transactionHash == Lower(Lookup(fields, "transactionHash").value.s)
  {
    hide Lower, QuantityValue, NormalizeQuantity, NormalizeLogs, NormalizeStatus, Lookup, AddressOf, BytesOf, Recipient, LogItems;
  }

  /** A transaction hash of the service is read in lower case. */
  lemma HashIsLower(response: seq<Property>)
    requires NormalizeKeeperHub(response).Ok? && NormalizeKeeperHub(response).value.transactionHash.Some?
    ensures var h := NormalizeKeeperHub(response).value.transactionHash.value; Lower(h) == h
  {
    hide Lower, Nested, NormalizeReceipt, Sources, First;
    var v := First(Sources(response), ["transactionHash", "txHash"]);
    LowerIdempotent(v.value.s);
  }

  lemma NestedReads(response: seq<Property>)
    requires NormalizeKeeperHub(response).Ok?
    ensures match Nested(response)
            case None => NormalizeKeeperHub(response).value.fields == None
            case Some(r) => NormalizeReceipt(r).Ok?
                            && NormalizeKeeperHub(response).value.fields == Some(NormalizeReceipt(r).value)
  {
    hide Nested, NormalizeReceipt, First, Sources, TransactionHashOf;
  }

  lemma AgreedIff(q: Question, response: seq<Property>, node: RawNode)
    ensures RawAgreed(q, response, node) <==>
            NormalizeKeeperHub(response).Ok? && Agreed(q, NormalizeKeeperHub(response).value, ReadNode(node))
  {
    hide NormalizeKeeperHub, NormalizeReceipt, Nested, AgreeingReceipts, NormalizeQuantity, Lower, QuantityValue, Lookup,
         RightExecution;
    BaseChain(node.chainId);
    if NormalizeKeeperHub(response).Ok? {
      NestedReads(response);
      if Nested(response).Some? && ReadReceipt(node.receipt).Found? {
        ReceiptsAgreeIff(Nested(response).value, node.receipt.value.fields);
        HashReads(node.receipt.value.fields);
        if NormalizeKeeperHub(response).value.transactionHash.Some? {
          HashIsLower(response);
        }
      }
    }
  }

  /** The service asserts success: its own flag, and its own word for the receipt. */
  predicate AssertsSuccess(response: seq<Property>) {
    && First(Sources(response), ["verified"]) == Some(VBool(true))
    && First(Sources(response), ["receiptStatus"]) == Some(VString("success"))
  }

  lemma AssertsIff(response: seq<Property>)
    requires NormalizeKeeperHub(response).Ok?
    ensures Asserts(NormalizeKeeperHub(response).value) <==> AssertsSuccess(response)
  {
    hide First, Sources, Nested, NormalizeReceipt, TransactionHashOf;
  }

  /** VERIFIED_SUCCESS on raw evidence, exactly: both sides agree, the receipt says success, the Safe did not fail and
      succeeded where that is wanted, and the service asserts success. */
  lemma VerifiedOnRaw(hash: Hash, q: Question, response: seq<Property>, node: RawNode, now: int)
    requires CollisionFree(hash)
    ensures Reconcile(hash, q, response, node, now) == Ok(VerifiedSuccess) <==>
            && RawAgreed(q, response, node)
            && SaysSuccess(Lookup(node.receipt.value.fields, "status"))
            && !SafeFails(q, node.receipt.value.fields) && SafeSucceeds(q, node.receipt.value.fields)
            && AssertsSuccess(response)
  {
    hide NormalizeKeeperHub, NormalizeReceipt, Decide, AgreeingReceipts, SafeAccepts, SafeFails, SafeSucceeds, NormalizeQuantity,
         Lower, QuantityValue, RawAgreed, AssertsSuccess, Asserts, Lookup, RightExecution, SaysSuccess;
    MismatchIff(hash, q, NormalizeKeeperHub(response), ReadNode(node), now);
    AgreedIff(q, response, node);
    if NormalizeKeeperHub(response).Ok? {
      VerifiedIff(hash, q, NormalizeKeeperHub(response).value, ReadNode(node), now);
      AssertsIff(response);
      AgreedFields(q, response, node);
    }
  }

  /** What agreed evidence has at hand. */
  lemma AgreedFields(q: Question, response: seq<Property>, node: RawNode)
    requires NormalizeKeeperHub(response).Ok?
    ensures Agreed(q, NormalizeKeeperHub(response).value, ReadNode(node)) ==>
              && node.receipt.Some? && node.receipt.value.VObject?
              && var fields := node.receipt.value.fields;
              var f := NormalizeKeeperHub(response).value.fields.value;
              && NormalizeReceipt(fields) == Ok(f)
              && (f.success <==> SaysSuccess(Lookup(fields, "status"))) && (!f.success <==> SaysReverted(Lookup(fields, "status")))
              && (SafeOutcomeOf(f, q.safeAddress, q.topics) == SafeFailure <==> SafeFails(q, fields))
              && (SafeAccepts(q, f) <==> !SafeFails(q, fields) && SafeSucceeds(q, fields))
  {
    hide NormalizeKeeperHub, NormalizeReceipt, SafeAccepts, SafeFails, SafeSucceeds, NormalizeQuantity, Lookup, RightExecution,
         SaysSuccess, SaysReverted, SafeOutcomeOf, NormalizeStatus;
    if Agreed(q, NormalizeKeeperHub(response).value, ReadNode(node)) {
      ReceiptStatus(node.receipt.value.fields);
      StatusIff(Lookup(node.receipt.value.fields, "status"));
      SafeIff(q, node.receipt.value.fields);
    }
  }

  /** REVERTED on raw evidence, exactly: both sides agree, the Safe did not fail, and the receipt says reverted. */
  lemma RevertedOnRaw(hash: Hash, q: Question, response: seq<Property>, node: RawNode, now: int)
    requires CollisionFree(hash)
    ensures Reconcile(hash, q, response, node, now) == Ok(Reverted) <==>
            && RawAgreed(q, response, node) && !SafeFails(q, node.receipt.value.fields)
            && SaysReverted(Lookup(node.receipt.value.fields, "status"))
    ensures Reconcile(hash, q, response, node, now) == Ok(SafeInnerFailure) <==>
            RawAgreed(q, response, node) && SafeFails(q, node.receipt.value.fields)
  {
    hide NormalizeKeeperHub, NormalizeReceipt, Decide, AgreeingReceipts, SafeAccepts, SafeFails, SafeSucceeds, NormalizeQuantity,
         Lower, QuantityValue, RawAgreed, Lookup, RightExecution, SaysSuccess, SaysReverted;
    MismatchIff(hash, q, NormalizeKeeperHub(response), ReadNode(node), now);
    AgreedIff(q, response, node);
    if NormalizeKeeperHub(response).Ok? {
      FailureIff(hash, q, NormalizeKeeperHub(response).value, ReadNode(node), now);
      AgreedFields(q, response, node);
    }
  }

  /** Where the service's word is taken from: the response, else its result, else its receipt. */
  lemma FirstSource(response: seq<Property>, key: string)
    ensures First(Sources(response), [key]) ==
              if Has(response, key) then Lookup(response, key)
              else if Lookup(response, "result").Some? && Lookup(response, "result").value.VObject?
                      && Has(Lookup(response, "result").value.fields, key) then Lookup(Lookup(response, "result").value.fields, key)
              else if Nested(response).Some? && Has(Nested(response).value, key) then Lookup(Nested(response).value, key)
              else None
  {
    hide Lookup, Nested;
    FirstKeys(response);
    var result := Record(Lookup(response, "result"));
    if result.Some? {
      FirstKeys(result.value);
    }
    if Nested(response).Some? {
      FirstKeys(Nested(response).value);
    }
    FirstOfAll(Sources(response), [key]);
  }

  predicate HasObject(fields: seq<Property>, key: string) {
    Lookup(fields, key).Some? && Lookup(fields, key).value.VObject?
  }

  /** The service's receipt is the response's own, else its result's. */
  lemma NestedIff(response: seq<Property>, r: seq<Property>)
    ensures Nested(response) == Some(r) <==>
      if HasObject(response, "receipt") then Lookup(response, "receipt") == Some(VObject(r))
      else && HasObject(response, "result")
           && Lookup(Lookup(response, "result").value.fields, "receipt") == Some(VObject(r))
  {
    hide Lookup;
  }

  /** What the node's answer counts as: nothing that answered, no receipt yet, a receipt that can be read, field by field,
      or one that cannot. */
  lemma NodeAnswerIff(v: Option<HostValue>)
    ensures ReadReceipt(v).Unreachable? <==> v == None
    ensures ReadReceipt(v).NotFound? <==> v == Some(VNull) || v == Some(VUndefined)
    ensures ReadReceipt(v).Found? <==> v.Some? && v.value.VObject? && Readable(v.value.fields)
    ensures ReadReceipt(v).Found? ==> Reads(ReadReceipt(v).fields, v.value.fields)
  {
    hide NormalizeReceipt, Readable, Reads;
    if v.Some? && v.value.VObject? {
      ReceiptReads(v.value.fields);
    }
  }

  /** A member that is there and not undefined. */
  predicate Has(fields: seq<Property>, key: string) {
    Lookup(fields, key).Some? && !Lookup(fields, key).value.VUndefined?
  }

  lemma FirstOfAll(sources: seq<seq<Property>>, keys: seq<string>)
    requires |sources| <= 3
    ensures First(sources, keys) ==
              if |sources| > 0 && FirstKey(sources[0], keys).Some? then FirstKey(sources[0], keys)
              else if |sources| > 1 && FirstKey(sources[1], keys).Some? then FirstKey(sources[1], keys)
              else if |sources| > 2 then FirstKey(sources[2], keys)
              else None
  {
    hide FirstKey;
    if |sources| > 1 {
      assert First(sources[1..], keys) == if FirstKey(sources[1], keys).Some? then FirstKey(sources[1], keys) else First(sources[2..], keys) by {
        assert sources[1..][0] == sources[1] && sources[1..][1..] == sources[2..];
      }
      if |sources| > 2 {
        assert sources[2..][0] == sources[2] && sources[2..][1..] == [];
        assert First([], keys) == None;
      }
    }
  }

  lemma ReceiptStatus(fields: seq<Property>)
    requires NormalizeReceipt(fields).Ok?
    ensures NormalizeStatus(Lookup(fields, "status")) == Ok(NormalizeReceipt(fields).value.success)
  {
    hide Lower, QuantityValue, NormalizeQuantity, NormalizeLogs, NormalizeStatus, Lookup, AddressOf, BytesOf, TransactionHashOf,
         Recipient, LogItems;
  }

  /** One failure event of the Safe among the node's logs, in whatever place and whatever else is there, excludes a
      verified success. */
  lemma FailureEventBlocks(hash: Hash, q: Question, response: seq<Property>, node: RawNode, now: int, fields: seq<Property>,
                           logs: seq<HostValue>, i: nat)
    requires node.receipt == Some(VObject(fields)) && Lookup(fields, "logs") == Some(VArray(logs)) && i < |logs|
    requires q.safeAddress.Some? && NormalizeLog(logs[i]).Ok? && Emits(NormalizeLog(logs[i]).value, q.safeAddress.value, q.topics.failure)
    ensures Reconcile(hash, q, response, node, now) != Ok(VerifiedSuccess)
  {
    hide NormalizeKeeperHub, NormalizeLog, HashReceipt, Lower, Emits, NormalizeQuantity;
    if NormalizeReceipt(fields).Ok? {
      ReceiptLogs(fields, logs);
      var f := NormalizeReceipt(fields).value;
      assert Emits(f.logs[i], q.safeAddress.value, q.topics.failure);
      OutcomeIsFailure(f, q, i);
    }
  }

  lemma ReceiptLogs(fields: seq<Property>, logs: seq<HostValue>)
    requires NormalizeReceipt(fields).Ok? && Lookup(fields, "logs") == Some(VArray(logs))
    ensures NormalizeLogs(logs) == Ok(NormalizeReceipt(fields).value.logs)
  {
    hide Lower, QuantityValue, NormalizeQuantity, NormalizeLogs, NormalizeStatus, Lookup, AddressOf, BytesOf, TransactionHashOf,
         Recipient;
  }

  lemma OutcomeIsFailure(f: Fields, q: Question, i: nat)
    requires q.safeAddress.Some? && i < |f.logs| && Emits(f.logs[i], q.safeAddress.value, q.topics.failure)
    ensures SafeOutcomeOf(f, q.safeAddress, q.topics) == SafeFailure
  {
    hide Emits;
  }

  // Stability

  predicate IsPending(c: Classification) {
    c.Unconfirmed? || c.TimedOut?
  }

  /** Evidence that was present stays; evidence that was absent may appear. */
  predicate Keeps<T(==)>(x: Option<T>, y: Option<T>) {
    x.Some? ==> y == x
  }

  /** The node goes on saying what it said; where it gave no answer it may give one. */
  predicate NodeKeeps(n: Node, n': Node) {
    && (n.chainId.Ok? ==> n'.chainId == n.chainId)
    && (n.receipt.Illegible? || n.receipt.Found? ==> n'.receipt == n.receipt)
  }

  predicate EvidenceGrows(k: KeeperHub, n: Node, k': KeeperHub, n': Node) {
    && Keeps(k.executionId, k'.executionId) && Keeps(k.transactionHash, k'.transactionHash)
    && (k.verified ==> k'.verified) && Keeps(k.receiptStatus, k'.receiptStatus) && Keeps(k.fields, k'.fields)
    && NodeKeeps(n, n')
  }

  /** The service names an execution it had not named before, and it is another one. */
  predicate NamesAnother(q: Question, k: KeeperHub, k': KeeperHub) {
    k.executionId.None? && k'.executionId.Some? && k'.executionId.value != q.executionId
  }

  /** A final decision survives growing evidence and advancing time exactly unless the service belatedly names another
      execution, which turns every final decision into a mismatch. */
  lemma StableIff(hash: Hash, q: Question, k: KeeperHub, n: Node, now: int, k': KeeperHub, n': Node, later: int)
    requires EvidenceGrows(k, n, k', n') && now <= later
    requires Decide(hash, q, Ok(k), n, now).Ok? && !IsPending(Decide(hash, q, Ok(k), n, now).value)
    ensures var c := Decide(hash, q, Ok(k), n, now);
      Decide(hash, q, Ok(k'), n', later) == c <==> c == Ok(EvidenceMismatch) || !NamesAnother(q, k, k')
  {
    hide HashReceipt, SafeOutcomeOf, Lower;
  }

  /** A response that asserts success and holds a receipt, without naming its execution. */
  function Unnamed(x: seq<Property>, transactionHash: string): seq<Property> {
    [Property("verified", VBool(true)), Member("receiptStatus", "success"), Member("transactionHash", transactionHash),
     Property("receipt", VObject(x))]
  }

  /** The same response with its execution named. */
  function NamedBy(x: seq<Property>, transactionHash: string, executionId: string): seq<Property> {
    [Member("executionId", executionId)] + Unnamed(x, transactionHash)
  }

  lemma {:induction false} LookupPlace(fields: seq<Property>, i: nat)
    requires i < |fields| && forall j | 0 <= j < i :: fields[j].key != fields[i].key
    ensures Lookup(fields, fields[i].key) == Some(fields[i].value)
  {
    if i > 0 {
      LookupPlace(fields[1..], i - 1);
    }
  }

  lemma {:induction false} LookupAbsent(fields: seq<Property>, key: string)
    requires forall j | 0 <= j < |fields| :: fields[j].key != key
    ensures Lookup(fields, key) == None
  {
    if fields != [] {
      LookupAbsent(fields[1..], key);
    }
  }

  lemma ResponseKeys()
    ensures |"verified"| == 8 && |"receiptStatus"| == 13 && |"transactionHash"| == 15 && |"receipt"| == 7
    ensures |"executionId"| == 11 && |"result"| == 6 && |"txHash"| == 6
  {
  }

  lemma UnnamedLookups(x: seq<Property>, h: string)
    ensures var r := Unnamed(x, h);
      && Lookup(r, "verified") == Some(VBool(true)) && Lookup(r, "receiptStatus") == Some(VString("success"))
      && Lookup(r, "transactionHash") == Some(VString(h)) && Lookup(r, "receipt") == Some(VObject(x))
      && Lookup(r, "result") == None && Lookup(r, "executionId") == None
  {
    hide Lookup;
    ResponseKeys();
    var r := Unnamed(x, h);
    LookupPlace(r, 0);
    LookupPlace(r, 1);
    LookupPlace(r, 2);
    LookupPlace(r, 3);
    LookupAbsent(r, "result");
    LookupAbsent(r, "executionId");
  }

  lemma NamedLookups(x: seq<Property>, h: string, id: string)
    ensures var r := NamedBy(x, h, id);
      && Lookup(r, "executionId") == Some(VString(id))
      && forall key | key != "executionId" :: Lookup(r, key) == Lookup(Unnamed(x, h), key)
  {
    assert NamedBy(x, h, id)[1..] == Unnamed(x, h);
  }

  /** How the two responses read. */
  lemma ResponsesRead(x: seq<Property>, h: string, id: string)
    requires NormalizeReceipt(x).Ok? && IsHexOfLength(h, 64) && Lookup(x, "executionId") == None
    ensures var k := KeeperHub(None, Some(Lower(h)), true, Some(true), Some(NormalizeReceipt(x).value));
      && NormalizeKeeperHub(Unnamed(x, h)) == Ok(k)
      && NormalizeKeeperHub(NamedBy(x, h, id)) == Ok(k.(executionId := Some(id)))
  {
    hide Lookup, NormalizeReceipt, IsHexOfLength, Lower, Unnamed, NamedBy;
    UnnamedLookups(x, h);
    NamedLookups(x, h, id);
    ResponseKeys();
    FirstKeys(Unnamed(x, h));
    FirstKeys(NamedBy(x, h, id));
    FirstKeys(x);
    FirstOf(Unnamed(x, h), x);
    FirstOf(NamedBy(x, h, id), x);
  }

  lemma FirstKeys(r: seq<Property>)
    ensures forall key :: FirstKey(r, [key]) == match Lookup(r, key) case Some(VUndefined) => None case v => v
    ensures forall key, other | Lookup(r, key).Some? && !Lookup(r, key).value.VUndefined? ::
              FirstKey(r, [key, other]) == Lookup(r, key)
  {
    hide Lookup;
    forall key ensures FirstKey(r, [key]) == match Lookup(r, key) case Some(VUndefined) => None case v => v {
      assert [key][1..] == [] && FirstKey(r, []) == None;
    }
  }

  lemma FirstOf(r: seq<Property>, x: seq<Property>)
    requires Lookup(r, "receipt") == Some(VObject(x)) && Lookup(r, "result") == None
    ensures Nested(r) == Some(x) && Sources(r) == [r, x]
    ensures forall keys :: First([r, x], keys) ==
                             match FirstKey(r, keys) case Some(v) => Some(v) case None => FirstKey(x, keys)
  {
    hide Lookup, FirstKey;
    forall keys ensures First([r, x], keys) ==
                          match FirstKey(r, keys) case Some(v) => Some(v) case None => FirstKey(x, keys)
    {
      assert [r, x][1..] == [x] && [x][1..] == [];
      assert First([x], keys) == match FirstKey(x, keys) case Some(v) => Some(v) case None => First([], keys);
    }
  }

  /** The one way a verified success is withdrawn, on what the two sides send: for every receipt that can be read and
      reports success, the response that holds it without an execution id is verified, and the same response naming
      another execution is a mismatch. */
  lemma SuccessWithdrawn(hash: Hash, q: Question, x: seq<Property>, now: int, other: string)
    requires NormalizeReceipt(x).Ok? && Lookup(x, "executionId") == None && other != q.executionId
    requires var f := NormalizeReceipt(x).value;
      && f.success && SafeAccepts(q, f)
      && (q.expectedTransactionHash.Some? ==> Lower(q.expectedTransactionHash.value) == f.transactionHash)
    ensures var h := NormalizeReceipt(x).value.transactionHash;
      var node := RawNode(Some(VString("8453")), Some(VObject(x)));
      && Reconcile(hash, q, Unnamed(x, h), node, now) == Ok(VerifiedSuccess)
      && Reconcile(hash, q, NamedBy(x, h, other), node, now) == Ok(EvidenceMismatch)
  {
    hide Lookup, NormalizeReceipt, NormalizeKeeperHub, Lower, NormalizeQuantity, IsHexOfLength, Decide, SafeAccepts, Unnamed,
         NamedBy, QuantityValue;
    var f := NormalizeReceipt(x).value;
    ReceiptHash(x);
    ResponsesRead(x, f.transactionHash, other);
    BaseSpelling();
    BaseChain(Some(VString("8453")));
    DecidedBoth(hash, q, f, now, other);
  }

  /** The two decisions on normalized evidence. */
  lemma DecidedBoth(hash: Hash, q: Question, f: Fields, now: int, other: string)
    requires f.success && SafeAccepts(q, f) && other != q.executionId
    requires q.expectedTransactionHash.Some? ==> Lower(q.expectedTransactionHash.value) == f.transactionHash
    ensures var k, node := KeeperHub(None, Some(f.transactionHash), true, Some(true), Some(f)), Node(Ok("0x2105"), Found(f));
      && Decide(hash, q, Ok(k), node, now) == Ok(VerifiedSuccess)
      && Decide(hash, q, Ok(k.(executionId := Some(other))), node, now) == Ok(EvidenceMismatch)
  {
    hide HashReceipt, SafeOutcomeOf, Lower;
  }

  lemma ReceiptHash(x: seq<Property>)
    requires NormalizeReceipt(x).Ok?
    ensures var h := NormalizeReceipt(x).value.transactionHash; IsHexOfLength(h, 64) && Lower(h) == h
  {
    hide QuantityValue, NormalizeQuantity, NormalizeLogs, NormalizeStatus, Lookup, BytesOf, AddressOf, Recipient, LogItems, Lower,
         IsHexOfLength;
    var h := Lookup(x, "transactionHash").value.s;
    LowerHex(h);
  }

  lemma LowerHex(s: string)
    requires IsHexOfLength(s, 64)
    ensures IsHexOfLength(Lower(s), 64) && Lower(Lower(s)) == Lower(s)
  {
    LowerIdempotent(s);
    LowerKeepsValue(s[2..], Hex);
    LowerSlice(s, 2, |s|);
  }

  lemma BaseSpelling()
    ensures QuantityValue(Some(VString("8453"))) == Some(8453)
  {
    hide QuantityValue;
    SpellingsAgree(8453);
    ChainNumeral();
  }

  lemma ChainNumeral()
    ensures Numeral(8453, Dec) == "8453"
  {
    hide Value, AllDigits, IsLower, Minimal;
    assert Numeral(8, Dec) == "8";
    assert Numeral(84, Dec) == "84";
    assert Numeral(845, Dec) == "845";
  }

  /** One such receipt. */
  function PlainReceipt(): seq<Property> {
    ReceiptProperties(Fields("0x" + Zeros(64), "0x", "0x1", "0x0", "0x" + Zeros(40), None, "0x1", "0x1", "0x1", true, []))
  }

  lemma PlainReceiptReads()
    ensures NormalizeReceipt(PlainReceipt()).Ok? && NormalizeReceipt(PlainReceipt()).value.success
    ensures Lookup(PlainReceipt(), "executionId") == None
  {
    hide Lookup, QuantityValue, Lower, Numeral, IsHexOfLength, AllDigits, Zeros;
    var f := Fields("0x" + Zeros(64), "0x", "0x1", "0x0", "0x" + Zeros(40), None, "0x1", "0x1", "0x1", true, []);
    PropertiesOf(f);
    PlainPlaces(f);
    ZeroHex(64);
    ZeroHex(40);
    PlainNumbers();
    var x := PlainReceipt();
    assert LogItems(x) == Ok([]);
    assert TransactionHashOf(Lookup(x, "transactionHash")).Ok?;
    assert BytesOf(Lookup(x, "blockHash")).Ok? by { EmptyHex(); }
    assert NormalizeQuantity(Lookup(x, "blockNumber")).Ok? && NormalizeQuantity(Lookup(x, "transactionIndex")).Ok?;
    assert AddressOf(Lookup(x, "from")).Ok?;
    assert Recipient(Lookup(x, "to")).Ok?;
    assert NormalizeQuantity(Lookup(x, "cumulativeGasUsed")).Ok? && NormalizeQuantity(Lookup(x, "gasUsed")).Ok?;
    assert NormalizeQuantity(Lookup(x, "effectiveGasPrice")).Ok?;
    assert NormalizeStatus(Lookup(x, "status")) == Ok(true);
    assert NormalizeLogs([]).Ok?;
  }

  lemma EmptyHex()
    ensures IsHexData("0x")
  {
  }

  /** The places by their keys. */
  lemma PlainPlaces(f: Fields)
    ensures var p := ReceiptProperties(f);
      |p| == 11
      && p[0] == Member("transactionHash", f.transactionHash) && p[1] == Member("blockHash", f.blockHash)
      && p[2] == Member("blockNumber", f.blockNumber) && p[3] == Member("transactionIndex", f.transactionIndex)
      && p[4] == Member("from", f.sender) && p[5].key == "to" && p[6] == Member("cumulativeGasUsed", f.cumulativeGasUsed)
      && p[7] == Member("gasUsed", f.gasUsed) && p[8] == Member("effectiveGasPrice", f.effectiveGasPrice)
      && p[9].key == "status" && p[10] == Property("logs", VArray(LogValues(f.logs)))
  {
  }

  lemma ZeroHex(n: nat)
    ensures IsHexOfLength("0x" + Zeros(n), n)
  {
  }

  lemma PlainNumbers()
    ensures QuantityValue(Some(VString("0x1"))) == Some(1) && QuantityValue(Some(VString("0x0"))) == Some(0)
  {
    hide QuantityValue, Value, AllDigits;
    SpellingsAgree(1);
    SpellingsAgree(0);
    assert Numeral(1, Hex) == "1";
    assert Numeral(0, Hex) == "0";
    assert "0x" + "1" == "0x1" && "0x" + "0" == "0x0";
  }

  /** Each field of a receipt is found under its key. */
  lemma PropertiesOf(f: Fields)
    ensures forall i | 0 <= i < 11 :: Lookup(ReceiptProperties(f), ReceiptProperties(f)[i].key) == Some(ReceiptProperties(f)[i].value)
    ensures Lookup(ReceiptProperties(f), "executionId") == None
  {
    hide Lookup, ReceiptProperties;
    var p := ReceiptProperties(f);
    ReceiptCount(f);
    forall i | 0 <= i < 11 ensures Lookup(p, p[i].key) == Some(p[i].value) {
      forall j | 0 <= j < i ensures p[j].key != p[i].key {
        ReceiptKeys(f, f, j);
      }
      LookupPlace(p, i);
    }
    NoExecutionKey(f);
    LookupAbsent(p, "executionId");
  }

  lemma NoExecutionKey(f: Fields)
    ensures |ReceiptProperties(f)| == 11 && forall i | 0 <= i < 11 :: ReceiptProperties(f)[i].key != "executionId"
  {
    var p := ReceiptProperties(f);
    assert |p[0].key| == 15 && |p[1].key| == 9 && p[2].key[0] == 'b' && |p[3].key| == 16 && |p[4].key| == 4;
    assert |p[5].key| == 2 && |p[6].key| == 17 && |p[7].key| == 7 && |p[8].key| == 17 && |p[9].key| == 6 && |p[10].key| == 4;
  }
}
