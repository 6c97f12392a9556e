/** The history of an execution row (apps/api/src/olas-gateway.ts, the store in
    packages/database/src/repositories.ts): who writes it, when, and what its status says. */
module GatewayRows {
  import opened Results
  import opened GatewayStore
  import opened Gateway

  /** What the status of a row says about its other fields. */
  predicate StatusSays(e: Execution) {
    && (e.status.Pending? <==> e.executionId.None?)
    && (e.status.Completed? <==> e.economicSuccess)
  }

  predicate StatusesSay(t: Tables) {
    forall a | a in t.executions :: StatusSays(t.executions[a])
  }

  /** The writes of a row: reserved pending without an execution id by an approved submitter; attached to the id that
      was answered; marked with the verdict that was reached, unless it is a success; recorded as a success. */
  predicate Reserved(w: World, e: Event, row: string, after: Execution) {
    && e.ReserveRow? && e.id == row && e.s in w.submitters && w.submitters[e.s].pc.Approved?
    && var p := w.submitters[e.s].plan;
    && (after.intentId, after.purpose) == (p.intentId, p.purpose)
    && (after.idempotencyKey, after.simulationHash) == (p.prepared.idempotencyKey, p.prepared.payloadHash)
    && after.status == Pending && after.executionId == None && !after.economicSuccess
  }

  predicate Written(w: World, e: Event, row: string, before: Execution, after: Execution) {
    && e.s in w.submitters && w.submitters[e.s].row == Some(row)
    && var pc := w.submitters[e.s].pc;
    && (after.intentId, after.purpose) == (before.intentId, before.purpose)
    && (after.idempotencyKey, after.simulationHash) == (before.idempotencyKey, before.simulationHash)
    && match e {
         case Attach(_) =>
           && pc.Answered? && before.status == Pending && after.status == Broadcast
           && after.executionId == Some(pc.executionId) && !before.economicSuccess && !after.economicSuccess
         case Mark(_) =>
           && pc.Rejected? && after.status == Classified(pc.verdict)
           && after.executionId == before.executionId && before.executionId.Some?
           && !before.economicSuccess && !after.economicSuccess
         case Record(_, _, _) =>
           && pc.Verified? && after.status == Completed && after.executionId == before.executionId == Some(pc.executionId)
           && after.economicSuccess
         case _ => false
       }
  }

  /** A row appears by its reservation, stays as it is, or is written. */
  predicate RowMoves(w: World, e: Event, w': World, row: string) {
    row in w'.tables.executions ==>
      if row !in w.tables.executions then Reserved(w, e, row, w'.tables.executions[row])
      else w'.tables.executions[row] == w.tables.executions[row]
           || Written(w, e, row, w.tables.executions[row], w'.tables.executions[row])
  }

  /** Every step of every submitter moves every row as its own submitter's counter says. */
  lemma RowStep(cfg: Config, w: World, e: Event, row: string)
    requires Inv(cfg, w) && StatusesSay(w.tables)
    ensures RowMoves(w, e, Step(cfg, w, e), row)
  {
    hide Inv, AfterReserve, AfterConfirm, Confirms, AttachExecution, MarkStatus, RecordSuccess, Reserved, Written, RowMoves, Settle,
         StatusesSay;
    var w' := Step(cfg, w, e);
    if e.s in w.submitters && e.ReserveRow? && w.submitters[e.s].pc.Approved? {
      ReservedRow(w, e.s, e.id, row);
    } else if e.s in w.submitters && e.Attach? && w.submitters[e.s].pc.Answered? {
      AttachedRow(cfg, w, e.s, row);
    } else if e.s in w.submitters && e.Mark? && w.submitters[e.s].pc.Rejected? {
      MarkedRow(cfg, w, e.s, row);
    } else if e.s in w.submitters && e.Record? && w.submitters[e.s].pc.Verified? {
      RecordedRow(cfg, w, e.s, e.receiptId, e.requestRow, row);
    } else {
      RowRests(w, e, w', row);
    }
  }

  lemma RowRests(w: World, e: Event, w': World, row: string)
    requires w'.tables == w.tables
    ensures RowMoves(w, e, w', row)
  {
  }

  lemma ReservedRow(w: World, s: nat, id: string, row: string)
    requires s in w.submitters && w.submitters[s].pc.Approved?
    ensures RowMoves(w, ReserveRow(s, id), AfterReserve(w, s, w.submitters[s], id), row)
  {
    hide HasExecutionKey;
  }

  /** The step of a submitter whose row stands in the tables: what is known of the row, and that the tables are
      consistent. */
  lemma RowKnown(cfg: Config, w: World, s: nat)
    requires Inv(cfg, w) && s in w.submitters
    requires var pc := w.submitters[s].pc; pc.Answered? || pc.Rejected? || pc.Verified?
    ensures Consistent(w.tables)
    ensures var sub := w.submitters[s];
      && sub.row.Some? && sub.row.value in w.tables.executions
      && var id := w.tables.executions[sub.row.value].executionId;
      if sub.pc.Answered? then id.None? && !w.tables.executions[sub.row.value].economicSuccess
      else if sub.pc.Verified? then id == Some(sub.pc.executionId)
      else id.Some?
  {
    hide Consistent;
    SubmitterFacts(cfg, w, s);
  }

  lemma AttachedRow(cfg: Config, w: World, s: nat, row: string)
    requires Inv(cfg, w) && StatusesSay(w.tables) && s in w.submitters && w.submitters[s].pc.Answered?
    ensures RowMoves(w, Attach(s), Step(cfg, w, Attach(s)), row)
  {
    hide Inv, ExecutionsOk, Step, Consistent;
    RowKnown(cfg, w, s);
    AttachStep(cfg, w, s);
    assert StatusSays(w.tables.executions[w.submitters[s].row.value]);
  }

  lemma MarkedRow(cfg: Config, w: World, s: nat, row: string)
    requires Inv(cfg, w) && StatusesSay(w.tables) && s in w.submitters && w.submitters[s].pc.Rejected?
    ensures RowMoves(w, Mark(s), Step(cfg, w, Mark(s)), row)
  {
    hide Inv, ExecutionsOk, Step, Consistent;
    RowKnown(cfg, w, s);
    MarkStep(cfg, w, s);
    var sub := w.submitters[s];
    if w.tables.executions[sub.row.value].economicSuccess {
      SuccessIsFinal(w.tables, sub.row.value, Classified(sub.pc.verdict));
    }
  }

  lemma RecordedRow(cfg: Config, w: World, s: nat, receiptId: string, requestRow: string, row: string)
    requires Inv(cfg, w) && s in w.submitters && w.submitters[s].pc.Verified?
    ensures RowMoves(w, Record(s, receiptId, requestRow), Step(cfg, w, Record(s, receiptId, requestRow)), row)
  {
    hide Inv, ExecutionsOk, Step, ReceiptsOk, RequestConflict, HasRequest, Consistent;
    RowKnown(cfg, w, s);
    RecordStep(cfg, w, s, receiptId, requestRow);
  }

  /** From w to w', only this row of the execution table is different, and only in its status and execution id. */
  predicate OnlyRow(w: World, w': World, row: string, executionId: Option<string>, status: Status) {
    && row in w.tables.executions && row in w'.tables.executions
    && w'.tables.receipts == w.tables.receipts && w'.tables.requests == w.tables.requests
    && w'.tables.executions.Keys == w.tables.executions.Keys
    && (forall a | a in w.tables.executions && a != row :: w'.tables.executions[a] == w.tables.executions[a])
    && var before, after := w.tables.executions[row], w'.tables.executions[row];
    && (after.intentId, after.purpose) == (before.intentId, before.purpose)
    && (after.idempotencyKey, after.simulationHash) == (before.idempotencyKey, before.simulationHash)
    && after.economicSuccess == before.economicSuccess
    && after.executionId == executionId && after.status == status
  }

  predicate RowIsSuccess(w: World, s: nat) {
    && s in w.submitters && w.submitters[s].row.Some? && w.submitters[s].row.value in w.tables.executions
    && w.tables.executions[w.submitters[s].row.value].economicSuccess
  }

  /** A rejection is written down: the row gets the verdict as its status and nothing else changes, unless another
      submitter has recorded the execution as a success, which stays. */
  predicate Rejects(w: World, w': World, s: nat) {
    && s in w.submitters && w.submitters[s].pc.Rejected? && w.submitters[s].row.Some?
    && s in w'.submitters && w'.submitters[s].pc.Stopped?
    && w.submitters[s].row.value in w.tables.executions
    && var row := w.submitters[s].row.value;
    if RowIsSuccess(w, s) then w'.tables == w.tables
    else OnlyRow(w, w', row, w.tables.executions[row].executionId, Classified(w.submitters[s].pc.verdict))
  }

  lemma RejectionMarks(cfg: Config, w: World, s: nat)
    requires Inv(cfg, w) && s in w.submitters && w.submitters[s].pc.Rejected?
    ensures Rejects(w, Step(cfg, w, Mark(s)), s)
  {
    hide Inv, Step;
    RowKnown(cfg, w, s);
    MarkStep(cfg, w, s);
    var sub := w.submitters[s];
    if w.tables.executions[sub.row.value].economicSuccess {
      SuccessIsFinal(w.tables, sub.row.value, Classified(sub.pc.verdict));
    }
  }

  predicate IdTaken(w: World, executionId: string) {
    exists a | a in w.tables.executions :: w.tables.executions[a].executionId == Some(executionId)
  }

  /** An answer is written down: the row leaves the pending status with the id of the answer and its submitter goes on
      to reconcile that id, unless a row already has the id; then nothing is written and the submission ends. */
  predicate Attaches(w: World, w': World, s: nat) {
    && s in w.submitters && w.submitters[s].pc.Answered? && w.submitters[s].row.Some? && s in w'.submitters
    && var id := w.submitters[s].pc.executionId;
    if IdTaken(w, id) then w'.tables == w.tables && w'.submitters[s].pc.Stopped?
    else OnlyRow(w, w', w.submitters[s].row.value, Some(id), Broadcast)
         && w'.submitters[s].pc.Reconciling? && w'.submitters[s].pc.executionId == id && !w'.submitters[s].pc.recorded
  }

  lemma AnswerAttaches(cfg: Config, w: World, s: nat)
    requires Inv(cfg, w) && s in w.submitters && w.submitters[s].pc.Answered?
    ensures Attaches(w, Step(cfg, w, Attach(s)), s)
  {
    hide Inv, Step, ReceiptsOk, RequestsOk, ExecutionsOk;
    RowKnown(cfg, w, s);
    AttachStep(cfg, w, s);
    AttachIff(w.tables, w.submitters[s].row.value, w.submitters[s].pc.executionId);
  }

  /** The unique index on execution ids is the only one an attachment can break. */
  lemma AttachIff(t: Tables, row: string, executionId: string)
    requires ExecutionsOk(t.executions) && row in t.executions && t.executions[row].executionId.None?
    requires !t.executions[row].economicSuccess
    ensures var after := t.executions[row := t.executions[row].(executionId := Some(executionId), status := Broadcast)];
      ExecutionsOk(after) <==> forall a | a in t.executions :: t.executions[a].executionId != Some(executionId)
  {
    var m := t.executions;
    var after := m[row := m[row].(executionId := Some(executionId), status := Broadcast)];
    if a :| a in m && m[a].executionId == Some(executionId) {
      assert !Apart(after[row], after[a]);
    } else {
      forall a, b | a in after && b in after && a != b ensures Apart(after[a], after[b]) {
        assert Apart(m[a], m[b]) && Apart(m[b], m[a]);
      }
    }
  }

  lemma StatusStep(cfg: Config, w: World, e: Event)
    requires Inv(cfg, w) && StatusesSay(w.tables)
    ensures StatusesSay(Step(cfg, w, e).tables)
  {
    hide Inv, Step, RowMoves, StatusSays;
    var w' := Step(cfg, w, e);
    forall a | a in w'.tables.executions ensures StatusSays(w'.tables.executions[a]) {
      RowStep(cfg, w, e, a);
      if a in w.tables.executions {
        assert StatusSays(w.tables.executions[a]);
      }
      MovedSays(w, e, w', a);
    }
  }

  lemma MovedSays(w: World, e: Event, w': World, row: string)
    requires RowMoves(w, e, w', row) && row in w'.tables.executions
    requires row in w.tables.executions ==> StatusSays(w.tables.executions[row])
    ensures StatusSays(w'.tables.executions[row])
  {
  }

  /** Over every run: a row is pending exactly while it has no execution id, and completed exactly when it is an
      economic success. */
  lemma {:induction false} StatusLaw(cfg: Config, events: seq<Event>)
    requires KeyBinds(cfg)
    ensures StatusesSay(Run(cfg, INITIAL, events).tables)
  {
    hide KeyBinds, Step, Inv, StatusSays;
    if events != [] {
      var init, last := events[..|events| - 1], events[|events| - 1];
      StatusLaw(cfg, init);
      Reachable(cfg, init);
      StatusStep(cfg, Run(cfg, INITIAL, init), last);
      RunExtends(cfg, INITIAL, init, last);
      assert init + [last] == events;
    }
  }

  /** The event is the mark of a submitter of this row that had rejected it with this verdict. */
  predicate MarkedBy(w: World, e: Event, row: string, verdict: Classification) {
    && e.Mark? && e.s in w.submitters && w.submitters[e.s].row == Some(row)
    && w.submitters[e.s].pc.Rejected? && w.submitters[e.s].pc.verdict == verdict
  }

  predicate HasVerdict(w: World, row: string, verdict: Classification) {
    row in w.tables.executions && w.tables.executions[row].status == Classified(verdict)
  }

  /** In every run, a row has a verdict for a status only after a submitter of this row had rejected it with it. */
  lemma {:induction false} VerdictIsReached(cfg: Config, events: seq<Event>, row: string, verdict: Classification) returns (n: nat)
    requires KeyBinds(cfg) && HasVerdict(Run(cfg, INITIAL, events), row, verdict)
    ensures n < |events| && MarkedBy(Run(cfg, INITIAL, events[..n]), events[n], row, verdict)
  {
    hide KeyBinds, Step, Inv, StatusesSay, MarkedBy, RowMoves, HasVerdict;
    assert events != [] by { NoVerdictYet(row, verdict); }
    var init, last := events[..|events| - 1], events[|events| - 1];
    StatusLaw(cfg, init);
    Reachable(cfg, init);
    RunExtends(cfg, INITIAL, init, last);
    assert init + [last] == events;
    var w := Run(cfg, INITIAL, init);
    RowStep(cfg, w, last, row);
    if HasVerdict(w, row, verdict) {
      n := VerdictIsReached(cfg, init, row, verdict);
      assert events[..n] == init[..n];
    } else {
      n := |init|;
      MarkWrote(w, last, Step(cfg, w, last), row, verdict);
    }
  }

  lemma NoVerdictYet(row: string, verdict: Classification)
    ensures !HasVerdict(INITIAL, row, verdict)
  {
  }

  lemma MarkWrote(w: World, e: Event, w': World, row: string, verdict: Classification)
    requires RowMoves(w, e, w', row) && HasVerdict(w', row, verdict) && !HasVerdict(w, row, verdict)
    ensures MarkedBy(w, e, row, verdict)
  {
  }
}
