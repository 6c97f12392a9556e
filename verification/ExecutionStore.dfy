/** The execution tables as mutable state: every operation is proved equal to its specification on values,
    and a failed transaction restores the tables (packages/database/src/repositories.ts). */
module ExecutionStore {
  import opened Results
  import opened GatewayStore

  class Store {
    var executions: map<string, Execution>
    var receipts: map<string, Receipt>
    var requests: map<string, OlasRow>

    function Snapshot(): Tables
      reads this
    {
      Tables(executions, receipts, requests)
    }

    predicate Valid()
      reads this
    {
      Consistent(Snapshot())
    }

    constructor ()
      ensures Snapshot() == Tables(map[], map[], map[]) && Valid()
    {
      executions, receipts, requests := map[], map[], map[];
    }

    /** Insert unless the id or the key is taken, then read the row of the key. */
    method Reserve(id: string, e: Execution) returns (r: Stored<Reservation>)
      requires Valid() && !e.economicSuccess && e.executionId.None?
      modifies this
      ensures Valid()
      ensures match GatewayStore.Reserve(old(Snapshot()), id, e)
              case Err(error) => r == Err(error) && Snapshot() == old(Snapshot())
              case Ok((t, reservation)) => r == Ok(reservation) && Snapshot() == t
    {
      hide Consistent, RowKept;
      if id !in executions && !HasExecutionKey(executions, e.idempotencyKey) {
        ReserveKeeps(Snapshot(), id, e);
        executions := executions[id := e];
        return Ok(Reservation(id, true));
      }
      if !HasExecutionKey(executions, e.idempotencyKey) {
        return Err(PersistenceConflict);
      }
      var row := LookUp(e.idempotencyKey);
      return Ok(Reservation(row, false));
    }

    method LookUp(key: string) returns (row: string)
      requires Valid() && HasExecutionKey(executions, key)
      ensures FindByKey(executions, key) == Some(row)
    {
      row :| row in executions && executions[row].idempotencyKey == key;
    }

    /** `update … where id = row returning *` under the table's constraints. */
    method Update(row: string, e: Execution) returns (r: Stored<()>)
      modifies this`executions
      ensures match GatewayStore.Update(old(Snapshot()), row, e)
              case Err(error) => r == Err(error) && Snapshot() == old(Snapshot())
              case Ok(t) => r == Ok(()) && Snapshot() == t
    {
      if row !in executions {
        return Err(PersistenceConflict);
      }
      if !ExecutionsOk(executions[row := e]) {
        return Err(ConstraintViolation);
      }
      executions := executions[row := e];
      return Ok(());
    }

    method AttachExecution(row: string, executionId: string) returns (r: Stored<()>)
      requires Valid()
      modifies this`executions
      ensures Valid()
      ensures match GatewayStore.AttachExecution(old(Snapshot()), row, executionId)
              case Err(error) => r == Err(error) && Snapshot() == old(Snapshot())
              case Ok(t) => r == Ok(()) && Snapshot() == t
    {
      hide ExecutionsOk;
      if row !in executions {
        return Err(PersistenceConflict);
      }
      var e := executions[row].(executionId := Some(executionId), status := Broadcast);
      ghost var t := Snapshot();
      r := Update(row, e);
      if r.Ok? {
        UpdateConsistent(t, row, e);
      }
    }

    method MarkStatus(row: string, status: Status) returns (r: Stored<()>)
      requires Valid()
      modifies this`executions
      ensures Valid()
      ensures match GatewayStore.MarkStatus(old(Snapshot()), row, status)
              case Err(error) => r == Err(error) && Snapshot() == old(Snapshot())
              case Ok(t) => r == Ok(()) && Snapshot() == t
    {
      hide ExecutionsOk;
      if row !in executions {
        return Err(PersistenceConflict);
      }
      var e := executions[row].(status := status);
      ghost var t := Snapshot();
      r := Update(row, e);
      if r.Ok? {
        UpdateConsistent(t, row, e);
      }
    }

    method MarkEconomicSuccess(row: string, executionId: string) returns (r: Stored<()>)
      modifies this`executions
      ensures match GatewayStore.MarkEconomicSuccess(old(Snapshot()), row, executionId)
              case Err(error) => r == Err(error) && Snapshot() == old(Snapshot())
              case Ok(t) => r == Ok(()) && Snapshot() == t
    {
      if row !in executions {
        return Err(PersistenceConflict);
      }
      r := Update(row, executions[row].(executionId := Some(executionId), status := Completed, economicSuccess := true));
    }

    method CreateReceipt(id: string, receipt: Receipt) returns (r: Stored<()>)
      modifies this`receipts
      ensures match GatewayStore.CreateReceipt(old(Snapshot()), id, receipt)
              case Err(error) => r == Err(error) && Snapshot() == old(Snapshot())
              case Ok(t) => r == Ok(()) && Snapshot() == t
    {
      if id in receipts || !ReceiptsOk(Snapshot().(receipts := receipts[id := receipt])) {
        return Err(ConstraintViolation);
      }
      receipts := receipts[id := receipt];
      return Ok(());
    }

    method ReserveRequest(id: string, row: OlasRow) returns (r: Stored<()>)
      modifies this`requests
      ensures match GatewayStore.ReserveRequest(old(Snapshot()), id, row)
              case Err(error) => r == Err(error) && Snapshot() == old(Snapshot())
              case Ok(t) => r == Ok(()) && Snapshot() == t
    {
      if RequestConflict(requests, id, row) {
        return if HasRequest(requests, row.intentMechId, row.requestId) then Ok(()) else Err(PersistenceConflict);
      }
      if row.execution !in executions {
        return Err(ConstraintViolation);
      }
      requests := requests[id := row];
      return Ok(());
    }

    /** One transaction of up to three writes; when one fails the earlier ones are undone. */
    method RecordSuccess(s: Success) returns (r: Stored<()>)
      requires Valid()
      requires s.row in executions ==> executions[s.row].executionId == Some(s.executionId)
      modifies this
      ensures Valid()
      ensures match GatewayStore.RecordSuccess(old(Snapshot()), s)
              case Err(error) => r == Err(error) && Snapshot() == old(Snapshot())
              case Ok(t) => r == Ok(()) && Snapshot() == t
    {
      hide Consistent, GatewayStore.MarkEconomicSuccess, GatewayStore.CreateReceipt, GatewayStore.ReserveRequest;
      hide HasVerifiedReceipt, RowKept;
      var backup := Snapshot();
      r := MarkEconomicSuccess(s.row, s.executionId);
      if r.Ok? {
        r := CreateReceipt(s.receiptId, Receipt(s.row, s.transactionHash, true));
      }
      if r.Ok? && s.request.Some? {
        r := ReserveRequest(s.request.value.0, s.request.value.1);
      }
      if r.Err? {
        executions, receipts, requests := backup.executions, backup.receipts, backup.requests;
      } else {
        RecordSuccessKeeps(backup, s);
      }
    }
  }
}
