/** The tables behind the execution gateway, their constraints, and the repository operations that
    write them (packages/database/src/schema.ts and packages/database/src/repositories.ts). */
module GatewayStore {
  import opened Results
  import opened Manifest

  /** `${callId}:${mechAddress}` */
  datatype Purpose = Purpose(callId: CallId, mech: string)

  /** Receipt verdicts; a verdict is also the status written for an execution it did not confirm. */
  datatype Classification = VerifiedSuccess | Reverted | SafeInnerFailure | Unconfirmed | TimedOut | EvidenceMismatch

  datatype Status = Pending | Broadcast | Completed | Classified(verdict: Classification)

  datatype Execution = Execution(intentId: string, purpose: Purpose, idempotencyKey: string, simulationHash: string,
                                 executionId: Option<string>, status: Status, economicSuccess: bool)

  datatype Receipt = Receipt(execution: string, transactionHash: string, verified: bool)

  datatype OlasRow = OlasRow(intentMechId: string, chainId: nat, requestId: string, execution: string,
                             transactionHash: string)

  /** Rows by primary key. */
  datatype Tables = Tables(executions: map<string, Execution>, receipts: map<string, Receipt>,
                           requests: map<string, OlasRow>)

  // Constraints

  /** Two rows that the unique indexes of the execution table keep apart. */
  predicate Apart(x: Execution, y: Execution) {
    && x.idempotencyKey != y.idempotencyKey
    && (x.executionId.Some? ==> x.executionId != y.executionId)
    && (x.economicSuccess && y.economicSuccess ==> x.intentId != y.intentId || x.purpose != y.purpose)
  }

  predicate ExecutionsOk(m: map<string, Execution>) {
    && (forall a, b | a in m && b in m && a != b :: Apart(m[a], m[b]))
    && (forall a | a in m :: m[a].economicSuccess ==> m[a].status == Completed)
  }

  predicate ReceiptsOk(t: Tables) {
    var m := t.receipts;
    && (forall a | a in m :: m[a].execution in t.executions)
    && (forall a, b | a in m && b in m && a != b ::
          m[a].execution != m[b].execution && m[a].transactionHash != m[b].transactionHash)
  }

  predicate RequestsOk(t: Tables) {
    var m := t.requests;
    && (forall a | a in m :: m[a].execution in t.executions)
    && (forall a, b | a in m && b in m && a != b ::
          && m[a].intentMechId != m[b].intentMechId
          && (m[a].chainId == m[b].chainId ==> m[a].requestId != m[b].requestId))
  }

  predicate Consistent(t: Tables) {
    ExecutionsOk(t.executions) && ReceiptsOk(t) && RequestsOk(t)
  }

  // Repository operations on values

  datatype StoreError = ConstraintViolation | PersistenceConflict

  type Stored<T> = Result<T, StoreError>

  predicate HasExecutionKey(m: map<string, Execution>, key: string) {
    exists a | a in m :: m[a].idempotencyKey == key
  }

  ghost function FindByKey(m: map<string, Execution>, key: string): (r: Option<string>)
    ensures r.Some? ==> r.value in m && m[r.value].idempotencyKey == key
    ensures r.None? ==> !HasExecutionKey(m, key)
  {
    if a :| a in m && m[a].idempotencyKey == key then Some(a) else None
  }

  datatype Reservation = Reservation(row: string, created: bool)

  /** `insert … on conflict do nothing`, then the lookup by key. */
  ghost function Reserve(t: Tables, id: string, e: Execution): (r: Stored<(Tables, Reservation)>)
    ensures r.Ok? ==> r.value.1.row in r.value.0.executions
                      && r.value.0.executions[r.value.1.row].idempotencyKey == e.idempotencyKey
    ensures r.Ok? && !r.value.1.created ==> r.value.0 == t
  {
    if id !in t.executions && !HasExecutionKey(t.executions, e.idempotencyKey) then
      Ok((t.(executions := t.executions[id := e]), Reservation(id, true)))
    else
      match FindByKey(t.executions, e.idempotencyKey)
      case Some(row) => Ok((t, Reservation(row, false)))
      case None => Err(PersistenceConflict)
  }

  /** One row updated; the statement fails when the row is absent or a constraint is broken. */
  function Update(t: Tables, row: string, e: Execution): Stored<Tables> {
    if row !in t.executions then Err(PersistenceConflict)
    else if ExecutionsOk(t.executions[row := e]) then Ok(t.(executions := t.executions[row := e]))
    else Err(ConstraintViolation)
  }

  function AttachExecution(t: Tables, row: string, executionId: string): Stored<Tables> {
    if row !in t.executions then Err(PersistenceConflict)
    else Update(t, row, t.executions[row].(executionId := Some(executionId), status := Broadcast))
  }

  function MarkStatus(t: Tables, row: string, status: Status): Stored<Tables> {
    if row !in t.executions then Err(PersistenceConflict)
    else Update(t, row, t.executions[row].(status := status))
  }

  function MarkEconomicSuccess(t: Tables, row: string, executionId: string): Stored<Tables> {
    if row !in t.executions then Err(PersistenceConflict)
    else Update(t, row, t.executions[row].(executionId := Some(executionId), status := Completed,
                                            economicSuccess := true))
  }

  function CreateReceipt(t: Tables, id: string, r: Receipt): Stored<Tables> {
    var t' := t.(receipts := t.receipts[id := r]);
    if id !in t.receipts && ReceiptsOk(t') then Ok(t') else Err(ConstraintViolation)
  }

  predicate RequestConflict(m: map<string, OlasRow>, id: string, r: OlasRow) {
    || id in m
    || exists a | a in m :: m[a].intentMechId == r.intentMechId
                            || (m[a].chainId == r.chainId && m[a].requestId == r.requestId)
  }

  predicate HasRequest(m: map<string, OlasRow>, intentMechId: string, requestId: string) {
    exists a | a in m :: m[a].intentMechId == intentMechId && m[a].requestId == requestId
  }

  /** A request for a persisted intent-mech is accepted again only with the same request id. */
  function ReserveRequest(t: Tables, id: string, r: OlasRow): Stored<Tables> {
    if RequestConflict(t.requests, id, r) then
      if HasRequest(t.requests, r.intentMechId, r.requestId) then Ok(t) else Err(PersistenceConflict)
    else if r.execution in t.executions then Ok(t.(requests := t.requests[id := r]))
    else Err(ConstraintViolation)
  }

  datatype Success = Success(row: string, executionId: string, receiptId: string, transactionHash: string,
                             request: Option<(string, OlasRow)>)

  /** The success transaction: the execution, its receipt and its request are written together or not at all. */
  function RecordSuccess(t: Tables, s: Success): Stored<Tables> {
    var t1 :- MarkEconomicSuccess(t, s.row, s.executionId);
    var t2 :- CreateReceipt(t1, s.receiptId, Receipt(s.row, s.transactionHash, true));
    match s.request
    case None => Ok(t2)
    case Some(r) => ReserveRequest(t2, r.0, r.1)
  }

  // What every operation keeps

  /** History of one row: identity never changes, an attached execution id stays, success is final. */
  predicate RowKept(x: Execution, y: Execution) {
    && (x.intentId, x.purpose, x.idempotencyKey, x.simulationHash) == (y.intentId, y.purpose, y.idempotencyKey, y.simulationHash)
    && (x.executionId.Some? ==> y.executionId == x.executionId)
    && (x.economicSuccess ==> y.economicSuccess)
  }

  predicate Grows(t: Tables, t': Tables) {
    && (forall a | a in t.executions :: a in t'.executions && RowKept(t.executions[a], t'.executions[a]))
    && (forall a | a in t.receipts :: a in t'.receipts && t'.receipts[a] == t.receipts[a])
    && (forall a | a in t.requests :: a in t'.requests && t'.requests[a] == t.requests[a])
  }

  lemma GrowsTransitive(t: Tables, u: Tables, v: Tables)
    requires Grows(t, u) && Grows(u, v)
    ensures Grows(t, v)
  {
  }

  lemma ReserveKeeps(t: Tables, id: string, e: Execution)
    requires Consistent(t) && !e.economicSuccess && e.executionId.None?
    requires Reserve(t, id, e).Ok?
    ensures Consistent(Reserve(t, id, e).value.0) && Grows(t, Reserve(t, id, e).value.0)
  {
    var t' := Reserve(t, id, e).value.0;
    assert t' == t || t' == t.(executions := t.executions[id := e]);
  }

  /** With the key's row in place, every later reservation returns that row and creates nothing. */
  lemma ReserveFinds(t: Tables, id: string, e: Execution, row: string)
    requires ExecutionsOk(t.executions) && row in t.executions && t.executions[row].idempotencyKey == e.idempotencyKey
    ensures Reserve(t, id, e) == Ok((t, Reservation(row, false)))
  {
    assert HasExecutionKey(t.executions, e.idempotencyKey);
  }

  lemma UpdateConsistent(t: Tables, row: string, e: Execution)
    requires Consistent(t) && Update(t, row, e).Ok?
    ensures Consistent(Update(t, row, e).value)
  {
  }

  lemma UpdateKeeps(t: Tables, row: string, e: Execution)
    requires Consistent(t) && Update(t, row, e).Ok?
    requires row in t.executions ==> RowKept(t.executions[row], e)
    ensures Consistent(Update(t, row, e).value) && Grows(t, Update(t, row, e).value)
  {
  }

  lemma ReserveRequestKeeps(t: Tables, id: string, r: OlasRow)
    requires Consistent(t) && ReserveRequest(t, id, r).Ok?
    ensures var t' := ReserveRequest(t, id, r).value;
      Consistent(t') && Grows(t, t') && HasRequest(t'.requests, r.intentMechId, r.requestId)
      && t'.executions == t.executions && t'.receipts == t.receipts
  {
    if !RequestConflict(t.requests, id, r) {
      var t' := ReserveRequest(t, id, r).value;
      assert t'.requests[id] == r;
    }
  }

  /** A success row can only keep its status: any other write to it aborts. */
  lemma SuccessIsFinal(t: Tables, row: string, status: Status)
    requires row in t.executions && t.executions[row].economicSuccess && status != Completed
    ensures MarkStatus(t, row, status) == Err(ConstraintViolation)
  {
    var e := t.executions[row].(status := status);
    assert t.executions[row := e][row] == e;
  }

  predicate HasVerifiedReceipt(t: Tables, row: string) {
    exists a | a in t.receipts :: t.receipts[a].execution == row && t.receipts[a].verified
  }

  lemma ExecutionAndReceipt(t: Tables, s: Success)
    requires Consistent(t) && MarkEconomicSuccess(t, s.row, s.executionId).Ok?
    requires s.row in t.executions ==> t.executions[s.row].executionId == Some(s.executionId)
    requires CreateReceipt(MarkEconomicSuccess(t, s.row, s.executionId).value, s.receiptId,
                           Receipt(s.row, s.transactionHash, true)).Ok?
    ensures var t1 := MarkEconomicSuccess(t, s.row, s.executionId).value;
      var t2 := CreateReceipt(t1, s.receiptId, Receipt(s.row, s.transactionHash, true)).value;
      Consistent(t2) && Grows(t, t2) && HasVerifiedReceipt(t2, s.row)
  {
    var e := t.executions[s.row].(executionId := Some(s.executionId), status := Completed, economicSuccess := true);
    UpdateKeeps(t, s.row, e);
    var t1 := MarkEconomicSuccess(t, s.row, s.executionId).value;
    var t2 := CreateReceipt(t1, s.receiptId, Receipt(s.row, s.transactionHash, true)).value;
    assert t2.receipts[s.receiptId].execution == s.row;
  }

  /** The success transaction either changes nothing or writes all three records. */
  lemma RecordSuccessKeeps(t: Tables, s: Success)
    requires Consistent(t) && RecordSuccess(t, s).Ok?
    requires s.row in t.executions ==> t.executions[s.row].executionId == Some(s.executionId)
    ensures var t' := RecordSuccess(t, s).value;
      && Consistent(t') && Grows(t, t')
      && s.row in t'.executions && t'.executions[s.row].economicSuccess
      && (forall a | a in t'.executions && a != s.row :: a in t.executions && t'.executions[a] == t.executions[a])
      && HasVerifiedReceipt(t', s.row)
      && (s.request.Some? ==> HasRequest(t'.requests, s.request.value.1.intentMechId, s.request.value.1.requestId))
  {
    hide Consistent, HasVerifiedReceipt, ExecutionsOk, ReceiptsOk, RequestConflict;
    ExecutionAndReceipt(t, s);
    var t1 := MarkEconomicSuccess(t, s.row, s.executionId).value;
    var t2 := CreateReceipt(t1, s.receiptId, Receipt(s.row, s.transactionHash, true)).value;
    if s.request.Some? {
      ReserveRequestKeeps(t2, s.request.value.0, s.request.value.1);
      SameReceipts(t2, RecordSuccess(t, s).value, s.row);
    }
  }

  lemma SameReceipts(t: Tables, t': Tables, row: string)
    requires t'.receipts == t.receipts
    ensures HasVerifiedReceipt(t', row) == HasVerifiedReceipt(t, row)
  {
  }

  /** A second success record for a row that has one always aborts, because receipts are unique per execution. */
  lemma SecondSuccessAborts(t: Tables, s: Success)
    requires Consistent(t) && HasVerifiedReceipt(t, s.row)
    ensures RecordSuccess(t, s).Err?
  {
    var a :| a in t.receipts && t.receipts[a].execution == s.row;
    if MarkEconomicSuccess(t, s.row, s.executionId).Ok? {
      var t1 := MarkEconomicSuccess(t, s.row, s.executionId).value;
      var m := t1.receipts[s.receiptId := Receipt(s.row, s.transactionHash, true)];
      if s.receiptId !in t1.receipts {
        assert a != s.receiptId && m[a].execution == m[s.receiptId].execution;
      }
    }
  }
}
