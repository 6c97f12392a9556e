/** Receipt evidence: normal forms of quantities, logs and receipts, and the reconciliation decision
    (packages/keeperhub-client/src/receipt-verification.ts). */
module Receipts {
  import opened Results
  import opened Text
  import opened Numerals
  import opened Manifest
  import opened CanonicalJson
  import opened Hashing
  import opened SafeExecution
  import opened GatewayStore

  datatype Malformed = Malformed

  type Evidenced<T> = Result<T, Malformed>

  // Normal forms

  function AddressOf(v: Option<HostValue>): (r: Evidenced<string>)
    ensures r.Ok? <==> v.Some? && v.value.VString? && IsAddress(v.value.s)
    ensures r.Ok? ==> r.value == Lower(v.value.s)
  {
    match v
    case Some(VString(s)) => if IsAddress(s) then Ok(Lower(s)) else Err(Malformed)
    case _ => Err(Malformed)
  }

  function TransactionHashOf(v: Option<HostValue>): (r: Evidenced<string>)
    ensures r.Ok? <==> v.Some? && v.value.VString? && IsHexOfLength(v.value.s, 64)
    ensures r.Ok? ==> r.value == Lower(v.value.s)
  {
    match v
    case Some(VString(s)) => if IsHexOfLength(s, 64) then Ok(Lower(s)) else Err(Malformed)
    case _ => Err(Malformed)
  }

  function BytesOf(v: Option<HostValue>): (r: Evidenced<string>)
    ensures r.Ok? <==> v.Some? && v.value.VString? && IsHexData(v.value.s) && |v.value.s| % 2 == 0
    ensures r.Ok? ==> r.value == Lower(v.value.s)
  {
    match v
    case Some(VString(s)) => if IsHexData(s) && |s| % 2 == 0 then Ok(Lower(s)) else Err(Malformed)
    case _ => Err(Malformed)
  }

  predicate IsHexQuantity(s: string) {
    IsHexData(s) && |s| > 2
  }

  /** The number a quantity denotes: a safe integer, decimal digits, or prefixed hexadecimal digits. */
  function QuantityValue(v: Option<HostValue>): Option<nat> {
    match v
    case Some(VNumber(n)) =>
      if IsUnsigned(n) && Value(n, Dec) <= MAX_SAFE_INTEGER then Some(Value(n, Dec)) else None
    case Some(VString(s)) =>
      var t := Trim(s);
      if IsUnsigned(t) then Some(Value(t, Dec))
      else if IsHexQuantity(t) then Some(Value(t[2..], Hex))
      else None
    case _ => None
  }

  /** `normalizeQuantity`: minimal lower-case hexadecimal. */
  function NormalizeQuantity(v: Option<HostValue>): Evidenced<string> {
    match QuantityValue(v)
    case Some(n) => Ok("0x" + Numeral(n, Hex))
    case None => Err(Malformed)
  }

  function NormalizeStatus(v: Option<HostValue>): Evidenced<bool> {
    match v
    case Some(VBool(b)) => Ok(b)
    case Some(VNumber(n)) => if n == "1" then Ok(true) else if n == "0" then Ok(false) else Err(Malformed)
    case Some(VString(s)) =>
      if s == "1" || s == "0x1" || s == "success" then Ok(true)
      else if s == "0" || s == "0x0" || s == "reverted" then Ok(false)
      else Err(Malformed)
    case _ => Err(Malformed)
  }

  datatype Log = Log(address: string, topics: seq<string>, data: string, logIndex: string)

  datatype Fields = Fields(transactionHash: string, blockHash: string, blockNumber: string, transactionIndex: string,
                           sender: string, recipient: Option<string>, cumulativeGasUsed: string, gasUsed: string,
                           effectiveGasPrice: string, success: bool, logs: seq<Log>)

  function Record(v: Option<HostValue>): Option<seq<Property>> {
    match v
    case Some(VObject(fields)) => Some(fields)
    case _ => None
  }

  function NormalizeTopics(items: seq<HostValue>): (r: Evidenced<seq<string>>)
    ensures r.Ok? ==> |r.value| == |items|
  {
    if items == [] then Ok([]) else
      var topic :- BytesOf(Some(items[0]));
      var rest :- NormalizeTopics(items[1..]);
      Ok([topic] + rest)
  }

  function NormalizeLog(v: HostValue): Evidenced<Log> {
    match v
    case VObject(fields) =>
      (match Lookup(fields, "topics")
       case Some(VArray(items)) =>
         var address :- AddressOf(Lookup(fields, "address"));
         var topics :- NormalizeTopics(items);
         var data :- BytesOf(Lookup(fields, "data"));
         var index :- NormalizeQuantity(Lookup(fields, "logIndex"));
         Ok(Log(address, topics, data, index))
       case _ => Err(Malformed))
    case _ => Err(Malformed)
  }

  function NormalizeLogs(items: seq<HostValue>): (r: Evidenced<seq<Log>>)
    ensures r.Ok? ==> |r.value| == |items| && forall i :: 0 <= i < |items| ==> NormalizeLog(items[i]) == Ok(r.value[i])
  {
    if items == [] then Ok([]) else
      var log :- NormalizeLog(items[0]);
      var rest :- NormalizeLogs(items[1..]);
      Ok([log] + rest)
  }

  function Recipient(v: Option<HostValue>): Evidenced<Option<string>> {
    if v == Some(VNull) then Ok(None) else var a :- AddressOf(v); Ok(Some(a))
  }

  function LogItems(fields: seq<Property>): Evidenced<seq<HostValue>> {
    match Lookup(fields, "logs")
    case Some(VArray(items)) => Ok(items)
    case _ => Err(Malformed)
  }

  /** `normalizeReceiptFields` on an object. */
  function NormalizeReceipt(fields: seq<Property>): Evidenced<Fields> {
    var items :- LogItems(fields);
    var hash :- TransactionHashOf(Lookup(fields, "transactionHash"));
    var blockHash :- BytesOf(Lookup(fields, "blockHash"));
    var blockNumber :- NormalizeQuantity(Lookup(fields, "blockNumber"));
    var index :- NormalizeQuantity(Lookup(fields, "transactionIndex"));
    var sender :- AddressOf(Lookup(fields, "from"));
    var recipient :- Recipient(Lookup(fields, "to"));
    var cumulative :- NormalizeQuantity(Lookup(fields, "cumulativeGasUsed"));
    var used :- NormalizeQuantity(Lookup(fields, "gasUsed"));
    var price :- NormalizeQuantity(Lookup(fields, "effectiveGasPrice"));
    var status :- NormalizeStatus(Lookup(fields, "status"));
    var logs :- NormalizeLogs(items);
    Ok(Fields(hash, blockHash, blockNumber, index, sender, recipient, cumulative, used, price, status, logs))
  }

  // Hashing

  function Texts(items: seq<string>): (r: seq<HostValue>)
    ensures |r| == |items| && forall i :: 0 <= i < |r| ==> r[i] == VString(items[i])
  {
    if items == [] then [] else [VString(items[0])] + Texts(items[1..])
  }

  function LogProperties(l: Log): seq<Property> {
    [Member("address", l.address), Property("topics", VArray(Texts(l.topics))), Member("data", l.data),
     Member("logIndex", l.logIndex)]
  }

  function LogValues(logs: seq<Log>): (r: seq<HostValue>)
    ensures |r| == |logs| && forall i :: 0 <= i < |r| ==> r[i] == VObject(LogProperties(logs[i]))
  {
    if logs == [] then [] else [VObject(LogProperties(logs[0]))] + LogValues(logs[1..])
  }

  function ReceiptProperties(f: Fields): seq<Property> {
    [Member("transactionHash", f.transactionHash), Member("blockHash", f.blockHash), Member("blockNumber", f.blockNumber),
     Member("transactionIndex", f.transactionIndex), Member("from", f.sender),
     Property("to", if f.recipient.None? then VNull else VString(f.recipient.value)),
     Member("cumulativeGasUsed", f.cumulativeGasUsed), Member("gasUsed", f.gasUsed),
     Member("effectiveGasPrice", f.effectiveGasPrice), Member("status", if f.success then "success" else "reverted"),
     Property("logs", VArray(LogValues(f.logs)))]
  }

  /** `hashReceiptFields` */
  function HashReceipt(hash: Hash, f: Fields): string {
    match StrictText(VObject(ReceiptProperties(f)))
    case Ok(text) => "sha256:" + hash(text)
    case Err(_) => ""
  }

  // KeeperHub evidence

  datatype KeeperHub = KeeperHub(executionId: Option<string>, transactionHash: Option<string>, verified: bool,
                                 receiptStatus: Option<bool>, fields: Option<Fields>)

  /** The first of the sources that has one of the keys. */
  function First(sources: seq<seq<Property>>, keys: seq<string>): Option<HostValue> {
    if sources == [] then None
    else
      match FirstKey(sources[0], keys)
      case Some(v) => Some(v)
      case None => First(sources[1..], keys)
  }

  function FirstKey(source: seq<Property>, keys: seq<string>): Option<HostValue> {
    if keys == [] then None
    else
      match Lookup(source, keys[0])
      case Some(VUndefined) => FirstKey(source, keys[1..])
      case Some(v) => Some(v)
      case None => FirstKey(source, keys[1..])
  }

  function Nested(response: seq<Property>): Option<seq<Property>> {
    match Record(Lookup(response, "receipt"))
    case Some(r) => Some(r)
    case None =>
      match Record(Lookup(response, "result"))
      case Some(result) => Record(Lookup(result, "receipt"))
      case None => None
  }

  function Sources(response: seq<Property>): seq<seq<Property>> {
    [response]
    + (match Record(Lookup(response, "result")) case Some(r) => [r] case None => [])
    + (match Nested(response) case Some(r) => [r] case None => [])
  }

  function NormalizeKeeperHub(response: seq<Property>): Evidenced<KeeperHub> {
    var sources := Sources(response);
    var hash :- (match First(sources, ["transactionHash", "txHash"])
                 case None => Ok(None)
                 case Some(v) => var h :- TransactionHashOf(Some(v)); Ok(Some(h)));
    var fields :- (match Nested(response)
                   case None => Ok(None)
                   case Some(r) => var f :- NormalizeReceipt(r); Ok(Some(f)));
    Ok(KeeperHub(match First(sources, ["executionId"]) case Some(VString(s)) => Some(s) case _ => None,
                 hash,
                 First(sources, ["verified"]) == Some(VBool(true)),
                 match First(sources, ["receiptStatus"])
                 case Some(VString(s)) => if s == "success" then Some(true) else if s == "reverted" then Some(false) else None
                 case _ => None,
                 fields))
  }

  // The decision

  datatype SafeOutcome = SafeSuccess | SafeFailure | SafeMissing | NotApplicable

  predicate Emits(l: Log, safe: string, topic: string) {
    l.address == Lower(safe) && l.topics != [] && l.topics[0] == topic
  }

  /** `topics` are the hashed signatures of the two Safe events. */
  datatype SafeTopics = SafeTopics(success: string, failure: string)

  function SafeOutcomeOf(f: Fields, safe: Option<string>, topics: SafeTopics): SafeOutcome {
    if safe.None? then NotApplicable
    else if exists i | 0 <= i < |f.logs| :: Emits(f.logs[i], safe.value, topics.failure) then SafeFailure
    else if exists i | 0 <= i < |f.logs| :: Emits(f.logs[i], safe.value, topics.success) then SafeSuccess
    else SafeMissing
  }

  datatype Question = Question(executionId: string, expectedTransactionHash: Option<string>, deadline: int,
                               safeAddress: Option<string>, requireSafeSuccess: bool, topics: SafeTopics)

  /** The receipt as the independent node gives it: no answer, none yet, one that cannot be read, or one. */
  datatype NodeReceipt = Unreachable | NotFound | Illegible | Found(fields: Fields)

  /** A chain id that the node does not give, or not as a quantity, ends the reconciliation with an error. */
  datatype Node = Node(chainId: Evidenced<string>, receipt: NodeReceipt)

  /** The two results of the node, absent where the call failed. */
  datatype RawNode = RawNode(chainId: Option<HostValue>, receipt: Option<HostValue>)

  function ReadReceipt(v: Option<HostValue>): NodeReceipt {
    match v
    case None => Unreachable
    case Some(VNull) => NotFound
    case Some(VUndefined) => NotFound
    case Some(VObject(fields)) =>
      (match NormalizeReceipt(fields) case Ok(f) => Found(f) case Err(_) => Illegible)
    case Some(_) => Illegible
  }

  function ReadNode(n: RawNode): Node {
    Node(NormalizeQuantity(n.chainId), ReadReceipt(n.receipt))
  }

  function Pending(q: Question, now: int): Classification {
    if now >= q.deadline then TimedOut else Unconfirmed
  }

  /** `reconcile` on normalized evidence: a chain of early returns. An error is one that `reconcile` throws. */
  function Decide(hash: Hash, q: Question, response: Evidenced<KeeperHub>, node: Node, now: int): Evidenced<Classification> {
    if response.Err? then Ok(EvidenceMismatch)
    else
      var k := response.value;
      if k.executionId.Some? && k.executionId.value != q.executionId then Ok(EvidenceMismatch)
      else if q.expectedTransactionHash.Some? && k.transactionHash.Some?
              && k.transactionHash.value != Lower(q.expectedTransactionHash.value) then Ok(EvidenceMismatch)
      else if k.transactionHash.None? then Ok(Pending(q, now))
      else
        var chainId :- node.chainId;
        if chainId != "0x2105" then Ok(EvidenceMismatch)
        else if node.receipt.Unreachable? then Err(Malformed)
        else if node.receipt.NotFound? then Ok(Pending(q, now))
        else if node.receipt.Illegible? then Ok(EvidenceMismatch)
        else Ok(DecideReceipts(hash, q, k, node.receipt.fields, now))
  }

  /** The decision once both sides have a transaction. */
  function DecideReceipts(hash: Hash, q: Question, k: KeeperHub, rpc: Fields, now: int): Classification
    requires k.transactionHash.Some?
  {
    if rpc.transactionHash != k.transactionHash.value then EvidenceMismatch
    else if k.fields.None? then Pending(q, now)
    else if HashReceipt(hash, k.fields.value) != HashReceipt(hash, rpc) then EvidenceMismatch
    else
      var safe := SafeOutcomeOf(rpc, q.safeAddress, q.topics);
      if safe == SafeFailure then SafeInnerFailure
      else if !rpc.success then Reverted
      else if q.safeAddress.Some? && q.requireSafeSuccess && safe != SafeSuccess then Pending(q, now)
      else if k.verified && k.receiptStatus == Some(true) then VerifiedSuccess
      else Pending(q, now)
  }

  /** `reconcile` on what the service and the node send. */
  function Reconcile(hash: Hash, q: Question, response: seq<Property>, node: RawNode, now: int): Evidenced<Classification> {
    Decide(hash, q, NormalizeKeeperHub(response), ReadNode(node), now)
  }
}
