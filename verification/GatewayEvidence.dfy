/** What stands behind the rows of a recorded success: every receipt row was written on evidence that decided for a
    verified success of that row's execution, and every request row carries the id of the marketplace event in that
    evidence's receipt (apps/api/src/olas-gateway.ts). */
module GatewayEvidence {
  import opened Results
  import opened GatewayStore
  import opened Gateway
  import Hashing
  import Manifest
  import M = MarketplaceEvents
  import R = Receipts
  import D = ReceiptDecisions

  /** Event `n` of a run confirmed this execution of a plan, with this transaction and this request id. */
  predicate ConfirmedAt(cfg: Config, events: seq<Event>, n: nat, p: Plan, executionId: string, transactionHash: string,
                        requestId: string)
    requires n < |events|
  {
    && events[n].Confirm? && Confirms(cfg, executionId, events[n].evidence)
    && var receipt := R.ReadReceipt(events[n].evidence.node.receipt).fields;
    && receipt.transactionHash == transactionHash && RequestIdOf(cfg, p, receipt) == Ok(requestId)
  }

  predicate Confirmed(cfg: Config, events: seq<Event>, p: Plan, executionId: string, transactionHash: string, requestId: string) {
    exists n | 0 <= n < |events| :: ConfirmedAt(cfg, events, n, p, executionId, transactionHash, requestId)
  }

  /** A row of the execution table for a plan, with its execution id. */
  predicate RowFor(t: Tables, row: string, p: Plan, executionId: string) {
    row in t.executions && t.executions[row].intentId == p.intentId && t.executions[row].purpose == p.purpose
    && t.executions[row].executionId == Some(executionId)
  }

  ghost predicate ReceiptBacked(cfg: Config, events: seq<Event>, t: Tables, r: Receipt) {
    exists p: Plan, executionId, requestId ::
      RowFor(t, r.execution, p, executionId) && Confirmed(cfg, events, p, executionId, r.transactionHash, requestId)
  }

  ghost predicate RequestBacked(cfg: Config, events: seq<Event>, t: Tables, o: OlasRow) {
    exists p: Plan, executionId ::
      && p.purpose.callId.OLAS_REQUEST? && o.intentMechId == cfg.mechRow(p.intentId, p.purpose.mech)
      && RowFor(t, o.execution, p, executionId)
      && Confirmed(cfg, events, p, executionId, o.transactionHash, o.requestId)
  }

  ghost predicate TablesBacked(cfg: Config, events: seq<Event>, t: Tables) {
    && (forall a | a in t.receipts :: ReceiptBacked(cfg, events, t, t.receipts[a]))
    && (forall a | a in t.requests :: RequestBacked(cfg, events, t, t.requests[a]))
  }

  predicate SubmitterBacked(cfg: Config, events: seq<Event>, sub: Submitter) {
    sub.pc.Verified? ==> Confirmed(cfg, events, sub.plan, sub.pc.executionId, sub.pc.transactionHash, sub.pc.requestId)
  }

  ghost predicate Backed(cfg: Config, events: seq<Event>, w: World) {
    && TablesBacked(cfg, events, w.tables)
    && forall s | s in w.submitters :: SubmitterBacked(cfg, events, w.submitters[s])
  }

  // Backing survives later events and a growing store

  lemma StillConfirmed(cfg: Config, events: seq<Event>, e: Event, p: Plan, executionId: string, transactionHash: string,
                       requestId: string)
    requires Confirmed(cfg, events, p, executionId, transactionHash, requestId)
    ensures Confirmed(cfg, events + [e], p, executionId, transactionHash, requestId)
  {
    hide Confirms, RequestIdOf, R.ReadReceipt;
    var n :| 0 <= n < |events| && ConfirmedAt(cfg, events, n, p, executionId, transactionHash, requestId);
    assert (events + [e])[n] == events[n];
    assert ConfirmedAt(cfg, events + [e], n, p, executionId, transactionHash, requestId);
  }

  lemma ReceiptStays(cfg: Config, events: seq<Event>, e: Event, t: Tables, t': Tables, r: Receipt)
    requires ReceiptBacked(cfg, events, t, r) && Grows(t, t')
    ensures ReceiptBacked(cfg, events + [e], t', r)
  {
    hide Confirmed;
    var p: Plan, executionId, requestId :|
      RowFor(t, r.execution, p, executionId) && Confirmed(cfg, events, p, executionId, r.transactionHash, requestId);
    StillConfirmed(cfg, events, e, p, executionId, r.transactionHash, requestId);
    assert RowFor(t', r.execution, p, executionId);
  }

  lemma RequestStays(cfg: Config, events: seq<Event>, e: Event, t: Tables, t': Tables, o: OlasRow)
    requires RequestBacked(cfg, events, t, o) && Grows(t, t')
    ensures RequestBacked(cfg, events + [e], t', o)
  {
    hide Confirmed;
    var p: Plan, executionId :|
      && p.purpose.callId.OLAS_REQUEST? && o.intentMechId == cfg.mechRow(p.intentId, p.purpose.mech)
      && RowFor(t, o.execution, p, executionId)
      && Confirmed(cfg, events, p, executionId, o.transactionHash, o.requestId);
    StillConfirmed(cfg, events, e, p, executionId, o.transactionHash, o.requestId);
    assert RowFor(t', o.execution, p, executionId);
  }

  /** Rows that were there stay backed; only new rows need a reason. */
  lemma TablesStay(cfg: Config, events: seq<Event>, e: Event, t: Tables, t': Tables)
    requires TablesBacked(cfg, events, t) && Grows(t, t')
    requires forall a | a in t'.receipts && a !in t.receipts :: ReceiptBacked(cfg, events + [e], t', t'.receipts[a])
    requires forall a | a in t'.requests && a !in t.requests :: RequestBacked(cfg, events + [e], t', t'.requests[a])
    ensures TablesBacked(cfg, events + [e], t')
  {
    hide ReceiptBacked, RequestBacked;
    forall a | a in t'.receipts ensures ReceiptBacked(cfg, events + [e], t', t'.receipts[a]) {
      if a in t.receipts {
        ReceiptStays(cfg, events, e, t, t', t.receipts[a]);
      }
    }
    forall a | a in t'.requests ensures RequestBacked(cfg, events + [e], t', t'.requests[a]) {
      if a in t.requests {
        RequestStays(cfg, events, e, t, t', t.requests[a]);
      }
    }
  }

  // Steps

  /** Steps that neither confirm nor record add no receipt, no request and no verified submitter. */
  lemma QuietStep(cfg: Config, w: World, e: Event)
    requires !e.Confirm? && !e.Record?
    ensures var w' := Step(cfg, w, e);
      && w'.tables.receipts == w.tables.receipts && w'.tables.requests == w.tables.requests
      && forall s | s in w'.submitters && w'.submitters[s].pc.Verified? ::
           s in w.submitters && w'.submitters[s] == w.submitters[s]
  {
    hide ExecutionsOk, RequestIdOf, Confirms, AfterConfirm, AfterReserve;
    if e.ReserveRow? && e.s in w.submitters {
      ReserveAdds(w, e.s, w.submitters[e.s], e.id);
    }
  }

  lemma ReserveAdds(w: World, s: nat, sub: Submitter, id: string)
    ensures var w' := AfterReserve(w, s, sub, id);
      && w'.tables.receipts == w.tables.receipts && w'.tables.requests == w.tables.requests
      && s in w'.submitters && w'.submitters == w.submitters[s := w'.submitters[s]] && !w'.submitters[s].pc.Verified?
  {
    hide HasExecutionKey;
  }

  lemma ConfirmBacks(cfg: Config, events: seq<Event>, w: World, e: Event)
    requires e.Confirm? && forall s | s in w.submitters :: SubmitterBacked(cfg, events, w.submitters[s])
    ensures var w' := Step(cfg, w, e);
      w'.tables == w.tables && forall s | s in w'.submitters :: SubmitterBacked(cfg, events + [e], w'.submitters[s])
  {
    hide RequestIdOf, Confirms, R.ReadReceipt, Confirmed;
    var w' := Step(cfg, w, e);
    forall s | s in w'.submitters ensures SubmitterBacked(cfg, events + [e], w'.submitters[s]) {
      var sub := w'.submitters[s];
      if s in w.submitters && sub == w.submitters[s] {
        SubmitterStays(cfg, events, e, sub);
      } else if sub.pc.Verified? {
        assert (events + [e])[|events|] == e;
        assert ConfirmedAt(cfg, events + [e], |events|, sub.plan, sub.pc.executionId, sub.pc.transactionHash, sub.pc.requestId);
        ConfirmedNow(cfg, events + [e], |events|, sub);
      }
    }
  }

  lemma ConfirmedNow(cfg: Config, events: seq<Event>, n: nat, sub: Submitter)
    requires n < |events| && sub.pc.Verified?
    requires ConfirmedAt(cfg, events, n, sub.plan, sub.pc.executionId, sub.pc.transactionHash, sub.pc.requestId)
    ensures SubmitterBacked(cfg, events, sub)
  {
    hide ConfirmedAt;
  }

  lemma SubmitterStays(cfg: Config, events: seq<Event>, e: Event, sub: Submitter)
    requires SubmitterBacked(cfg, events, sub)
    ensures SubmitterBacked(cfg, events + [e], sub)
  {
    hide Confirmed;
    if sub.pc.Verified? {
      StillConfirmed(cfg, events, e, sub.plan, sub.pc.executionId, sub.pc.transactionHash, sub.pc.requestId);
    }
  }

  lemma QuietKeeps(cfg: Config, events: seq<Event>, w: World, e: Event)
    requires KeyBinds(cfg) && Inv(cfg, w) && Backed(cfg, events, w) && !e.Confirm? && !e.Record?
    ensures Backed(cfg, events + [e], Step(cfg, w, e))
  {
    hide KeyBinds, Inv, Step, SubmitterBacked, TablesBacked, Grows;
    var w' := Step(cfg, w, e);
    StepKeeps(cfg, w, e);
    QuietStep(cfg, w, e);
    TablesStay(cfg, events, e, w.tables, w'.tables);
    forall s | s in w'.submitters ensures SubmitterBacked(cfg, events + [e], w'.submitters[s]) {
      if w'.submitters[s].pc.Verified? {
        SubmitterStays(cfg, events, e, w.submitters[s]);
      } else {
        NotVerified(cfg, events + [e], w'.submitters[s]);
      }
    }
  }

  lemma NotVerified(cfg: Config, events: seq<Event>, sub: Submitter)
    requires !sub.pc.Verified?
    ensures SubmitterBacked(cfg, events, sub)
  {
  }

  /** What the success transaction adds, part by part. */
  lemma RecordAdds(t: Tables, x: Success)
    requires RecordSuccess(t, x).Ok?
    ensures var t' := RecordSuccess(t, x).value;
      && (forall a | a in t'.receipts && a !in t.receipts :: t'.receipts[a] == Receipt(x.row, x.transactionHash, true))
      && (forall a | a in t'.requests && a !in t.requests :: x.request.Some? && t'.requests[a] == x.request.value.1)
  {
    hide ExecutionsOk, ReceiptsOk, RequestConflict, HasRequest;
  }

  lemma RecordBacks(cfg: Config, events: seq<Event>, w: World, s: nat, receiptId: string, requestRow: string)
    requires KeyBinds(cfg) && Inv(cfg, w) && Backed(cfg, events, w) && s in w.submitters && w.submitters[s].pc.Verified?
    ensures Backed(cfg, events + [Record(s, receiptId, requestRow)], Step(cfg, w, Record(s, receiptId, requestRow)))
  {
    hide KeyBinds, Inv, RecordSuccess, ReceiptBacked, RequestBacked, TablesBacked, SubmitterBacked, Confirmed, Grows;
    var e := Record(s, receiptId, requestRow);
    var w', sub := Step(cfg, w, e), w.submitters[s];
    StepKeeps(cfg, w, e);
    SubmitterIsTied(cfg, w, s);
    var r := RecordSuccess(w.tables, SuccessOf(cfg, sub, receiptId, requestRow));
    if r.Ok? {
      RecordAdds(w.tables, SuccessOf(cfg, sub, receiptId, requestRow));
      RecordedRow(cfg, events, e, sub, w.tables, w'.tables, receiptId, requestRow);
    }
    TablesStay(cfg, events, e, w.tables, w'.tables);
    forall q | q in w'.submitters ensures SubmitterBacked(cfg, events + [e], w'.submitters[q]) {
      if q == s {
        NotVerified(cfg, events + [e], w'.submitters[q]);
      } else {
        SubmitterStays(cfg, events, e, w.submitters[q]);
      }
    }
  }

  /** The rows that a verified submitter writes are backed by its confirmation. */
  lemma RecordedRow(cfg: Config, events: seq<Event>, e: Event, sub: Submitter, t: Tables, t': Tables, receiptId: string,
                    requestRow: string)
    requires sub.pc.Verified? && Tied(cfg, t, sub) && SubmitterBacked(cfg, events, sub) && Grows(t, t')
    ensures var x := SuccessOf(cfg, sub, receiptId, requestRow);
      && ReceiptBacked(cfg, events + [e], t', Receipt(x.row, x.transactionHash, true))
      && (x.request.Some? ==> RequestBacked(cfg, events + [e], t', x.request.value.1))
  {
    hide Confirmed;
    StillConfirmed(cfg, events, e, sub.plan, sub.pc.executionId, sub.pc.transactionHash, sub.pc.requestId);
    assert RowFor(t', sub.row.value, sub.plan, sub.pc.executionId);
  }

  lemma StepBacks(cfg: Config, events: seq<Event>, w: World, e: Event)
    requires KeyBinds(cfg) && Inv(cfg, w) && Backed(cfg, events, w)
    ensures Backed(cfg, events + [e], Step(cfg, w, e))
  {
    hide KeyBinds, Inv, SubmitterBacked, TablesBacked, Grows, AfterConfirm, Confirms, RecordSuccess, AfterReserve, Settle;
    if e.Record? && e.s in w.submitters && w.submitters[e.s].pc.Verified? {
      RecordBacks(cfg, events, w, e.s, e.receiptId, e.requestRow);
    } else if e.Record? {
      assert Step(cfg, w, e) == w;
      NothingBacks(cfg, events, w, e);
    } else if e.Confirm? {
      ConfirmBacks(cfg, events, w, e);
      SameTables(cfg, events, w.tables, e);
    } else {
      QuietKeeps(cfg, events, w, e);
    }
  }

  lemma SameTables(cfg: Config, events: seq<Event>, t: Tables, e: Event)
    requires TablesBacked(cfg, events, t)
    ensures TablesBacked(cfg, events + [e], t)
  {
    hide ReceiptBacked, RequestBacked;
    GrowsReflexive(t);
    TablesStay(cfg, events, e, t, t);
  }

  lemma GrowsReflexive(t: Tables)
    ensures Grows(t, t)
  {
  }

  lemma NothingBacks(cfg: Config, events: seq<Event>, w: World, e: Event)
    requires Backed(cfg, events, w)
    ensures Backed(cfg, events + [e], w)
  {
    hide SubmitterBacked, TablesBacked;
    SameTables(cfg, events, w.tables, e);
    forall s | s in w.submitters ensures SubmitterBacked(cfg, events + [e], w.submitters[s]) {
      SubmitterStays(cfg, events, e, w.submitters[s]);
    }
  }

  lemma {:induction false} RunBacks(cfg: Config, events: seq<Event>)
    requires KeyBinds(cfg)
    ensures Backed(cfg, events, Run(cfg, INITIAL, events))
  {
    hide KeyBinds, Step, Backed;
    if events == [] {
      NothingYet(cfg);
    } else {
      var init, last := events[..|events| - 1], events[|events| - 1];
      RunBacks(cfg, init);
      Reachable(cfg, init);
      StepBacks(cfg, init, Run(cfg, INITIAL, init), last);
      RunExtends(cfg, INITIAL, init, last);
      assert init + [last] == events;
    }
  }

  lemma NothingYet(cfg: Config)
    ensures Backed(cfg, [], INITIAL)
  {
  }

  // Results over every run

  /** Both sides sent evidence for this execution that agrees in every field, and the node's receipt has this
      transaction. */
  predicate Proved(e: Evidence, executionId: string, transactionHash: string) {
    && e.question.executionId == executionId
    && D.RawAgreement(e.response, e.node)
    && R.ReadReceipt(e.node.receipt).Found? && R.ReadReceipt(e.node.receipt).fields.transactionHash == transactionHash
  }

  lemma ConfirmedIsProved(cfg: Config, events: seq<Event>, n: nat, p: Plan, executionId: string, transactionHash: string,
                          requestId: string)
    requires Hashing.CollisionFree(cfg.hash) && n < |events|
    requires ConfirmedAt(cfg, events, n, p, executionId, transactionHash, requestId)
    ensures Proved(events[n].evidence, executionId, transactionHash)
  {
    hide R.Reconcile, R.ReadReceipt, D.RawAgreement, RequestIdOf;
    var e := events[n].evidence;
    D.VerifiedAgreement(cfg.hash, e.question, e.response, e.node, e.now);
  }

  /** Every receipt row, over every run: an earlier event confirmed the row's execution on raw evidence in which the
      service and the node agree in every field, for this transaction. */
  lemma ReceiptsAreProved(cfg: Config, events: seq<Event>, a: string) returns (n: nat)
    requires KeyBinds(cfg) && Hashing.CollisionFree(cfg.hash) && a in Run(cfg, INITIAL, events).tables.receipts
    ensures var t := Run(cfg, INITIAL, events).tables;
      var r := t.receipts[a];
      && n < |events| && events[n].Confirm?
      && r.execution in t.executions && t.executions[r.execution].executionId.Some?
      && Proved(events[n].evidence, t.executions[r.execution].executionId.value, r.transactionHash)
  {
    hide Run, Proved, ConfirmedAt, SubmitterBacked;
    RunBacks(cfg, events);
    var t := Run(cfg, INITIAL, events).tables;
    var r := t.receipts[a];
    assert ReceiptBacked(cfg, events, t, r);
    var p: Plan, executionId, requestId :|
      RowFor(t, r.execution, p, executionId) && Confirmed(cfg, events, p, executionId, r.transactionHash, requestId);
    n :| 0 <= n < |events| && ConfirmedAt(cfg, events, n, p, executionId, r.transactionHash, requestId);
    ConfirmedIsProved(cfg, events, n, p, executionId, r.transactionHash, requestId);
    IsConfirm(cfg, events, n, p, executionId, r.transactionHash, requestId);
  }

  lemma IsConfirm(cfg: Config, events: seq<Event>, n: nat, p: Plan, executionId: string, transactionHash: string,
                  requestId: string)
    requires n < |events| && ConfirmedAt(cfg, events, n, p, executionId, transactionHash, requestId)
    ensures events[n].Confirm? && R.ReadReceipt(events[n].evidence.node.receipt).Found?
    ensures RequestIdOf(cfg, p, R.ReadReceipt(events[n].evidence.node.receipt).fields) == Ok(requestId)
  {
    hide R.Reconcile, R.ReadReceipt, RequestIdOf;
  }

  /** Every request row, over every run: its id is the one that the marketplace event of its Mech carries in the
      receipt of such a confirmation. */
  lemma RequestsAreExtracted(cfg: Config, events: seq<Event>, a: string) returns (n: nat, p: Plan)
    requires KeyBinds(cfg) && Hashing.CollisionFree(cfg.hash) && a in Run(cfg, INITIAL, events).tables.requests
    ensures var t := Run(cfg, INITIAL, events).tables;
      var o := t.requests[a];
      && n < |events| && events[n].Confirm?
      && o.intentMechId == cfg.mechRow(p.intentId, p.purpose.mech)
      && o.execution in t.executions && t.executions[o.execution].intentId == p.intentId
      && t.executions[o.execution].purpose == p.purpose && t.executions[o.execution].executionId.Some?
      && Proved(events[n].evidence, t.executions[o.execution].executionId.value, o.transactionHash)
      && M.ExtractRequestId(R.ReadReceipt(events[n].evidence.node.receipt).fields.logs, Manifest.MARKETPLACE_ADDRESS,
                            cfg.requestTopic, p.purpose.mech, p.sender) == Ok(o.requestId)
  {
    hide Run, ConfirmedAt, SubmitterBacked, R.ReadReceipt, D.RawAgreement, M.ExtractRequestId;
    RunBacks(cfg, events);
    var t := Run(cfg, INITIAL, events).tables;
    var o := t.requests[a];
    assert RequestBacked(cfg, events, t, o);
    var executionId;
    p, executionId :|
      && p.purpose.callId.OLAS_REQUEST? && o.intentMechId == cfg.mechRow(p.intentId, p.purpose.mech)
      && RowFor(t, o.execution, p, executionId)
      && Confirmed(cfg, events, p, executionId, o.transactionHash, o.requestId);
    n :| 0 <= n < |events| && ConfirmedAt(cfg, events, n, p, executionId, o.transactionHash, o.requestId);
    ConfirmedIsProved(cfg, events, n, p, executionId, o.transactionHash, o.requestId);
    IsConfirm(cfg, events, n, p, executionId, o.transactionHash, o.requestId);
  }
}
