/** `submit` as it is written: a sequence of awaited store and client calls. It is proved to be a run of the
    step machine, so everything proved of all runs holds of it (apps/api/src/olas-gateway.ts). */
module GatewayService {
  import opened Results
  import opened GatewayStore
  import opened Gateway
  import opened GatewayRows
  import Hashing
  import Manifest
  import E = ExecutionStore
  import J = CanonicalJson
  import R = Receipts
  import D = ReceiptDecisions
  import M = MarketplaceEvents

  /** What the outside world answers during one submission. */
  datatype Answers = Answers(approved: bool, rowId: string, paused: bool, respond: nat -> Answer,
                             expectedTransactionHash: Option<string>, response: seq<J.Property>, node: R.RawNode,
                             startedAt: int, decidedAt: int, safeTopics: R.SafeTopics, receiptId: string, requestRow: string)

  /** The reconciliation of an execution: no Safe, and a deadline five minutes after it began. */
  function EvidenceFor(executionId: string, a: Answers): Evidence {
    Evidence(R.Question(executionId, a.expectedTransactionHash, a.startedAt + 300_000, None, true, a.safeTopics),
             a.response, a.node, a.decidedAt)
  }

  function VerdictOf(hash: Hashing.Hash, executionId: string, a: Answers): R.Evidenced<Classification> {
    var e := EvidenceFor(executionId, a);
    R.Reconcile(hash, e.question, e.response, e.node, e.now)
  }

  /** A reconciliation is given five minutes from its start: the pending verdict is the retryable one before that, and final
      from then on. */
  lemma VerdictWaits(hash: Hashing.Hash, executionId: string, a: Answers)
    requires Hashing.CollisionFree(hash)
    ensures VerdictOf(hash, executionId, a) == Ok(Unconfirmed) ==> a.decidedAt - a.startedAt < 300_000
    ensures VerdictOf(hash, executionId, a) == Ok(TimedOut) ==> a.decidedAt - a.startedAt >= 300_000
  {
    hide R.NormalizeKeeperHub, R.ReadNode, R.Decide;
    var e := EvidenceFor(executionId, a);
    if R.NormalizeKeeperHub(e.response).Ok? {
      D.PendingIff(hash, e.question, R.NormalizeKeeperHub(e.response).value, R.ReadNode(e.node), e.now);
    } else {
      Unreadable(hash, e);
    }
  }

  lemma Unreadable(hash: Hashing.Hash, e: Evidence)
    requires R.NormalizeKeeperHub(e.response).Err?
    ensures R.Reconcile(hash, e.question, e.response, e.node, e.now) == Ok(EvidenceMismatch)
  {
    hide R.NormalizeKeeperHub, R.ReadNode;
  }

  datatype Failure = SimulationRejected | StoreFailed(e: StoreError) | SimulationDrift | OrganizationPaused
                   | BroadcastFailed | ExecutionIdMissing | ExecutionAmbiguous | ReceiptUnconfirmed | ReceiptRejected
                   | ReconciliationFailed | RequestIdMissing

  /** The event that submitter `s` brings about next when the outside world answers with `a`. */
  ghost function Next(cfg: Config, w: World, s: nat, plan: Plan, a: Answers): Option<Event> {
    if s !in w.submitters then Some(Start(s, plan))
    else
      match w.submitters[s].pc
      case Ready => Some(Gateway.Simulate(s, a.approved))
      case Approved => Some(ReserveRow(s, a.rowId))
      case Reserved => Some(PauseCheck(s, a.paused))
      case Calling => Some(Invoke(s))
      case Sending => Some(Send(s, a.respond(w.submitters[s].sends)))
      case Answered(_) => Some(Attach(s))
      case Reconciling(executionId, _) => Some(Reconciled(s, executionId, VerdictOf(cfg.hash, executionId, a), a))
      case Verified(_, _, _) => Some(Record(s, a.receiptId, a.requestRow))
      case Rejected(_) => Some(Mark(s))
      case Finished | Stopped => None
  }

  /** A reconciliation that throws ends the submission. */
  function Reconciled(s: nat, executionId: string, verdict: R.Evidenced<Classification>, a: Answers): Event {
    match verdict
    case Err(_) => Crash(s)
    case Ok(VerifiedSuccess) => Confirm(s, EvidenceFor(executionId, a))
    case Ok(classification) => Reject(s, classification)
  }

  /** Every event of the run is the next one of its submitter: nothing is skipped, nothing is added, and every answer
      is the outside world's. */
  ghost predicate Follows(cfg: Config, w: World, s: nat, plan: Plan, a: Answers, events: seq<Event>)
    decreases |events|
  {
    events == [] || (Next(cfg, w, s, plan, a) == Some(events[0]) && Follows(cfg, Step(cfg, w, events[0]), s, plan, a, events[1..]))
  }

  lemma {:induction false} FollowsOn(cfg: Config, w: World, s: nat, plan: Plan, a: Answers, events: seq<Event>, more: seq<Event>)
    requires Follows(cfg, w, s, plan, a, events) && Follows(cfg, Run(cfg, w, events), s, plan, a, more)
    ensures Follows(cfg, w, s, plan, a, events + more)
    decreases |events|
  {
    hide Step, Next;
    if events == [] {
      assert events + more == more;
    } else {
      FollowsOn(cfg, Step(cfg, w, events[0]), s, plan, a, events[1..], more);
      assert (events + more)[1..] == events[1..] + more;
    }
  }

  lemma FollowsOne(cfg: Config, w: World, s: nat, plan: Plan, a: Answers, e: Event)
    requires Next(cfg, w, s, plan, a) == Some(e)
    ensures Follows(cfg, w, s, plan, a, [e])
  {
    hide Step, Next;
    assert [e][1..] == [];
  }

  lemma FollowsExtends(cfg: Config, w: World, s: nat, plan: Plan, a: Answers, events: seq<Event>, e: Event)
    requires Follows(cfg, w, s, plan, a, events) && Next(cfg, Run(cfg, w, events), s, plan, a) == Some(e)
    ensures Follows(cfg, w, s, plan, a, events + [e])
  {
    hide Step, Next, Run, Follows;
    FollowsOne(cfg, Run(cfg, w, events), s, plan, a, e);
    FollowsOn(cfg, w, s, plan, a, events, [e]);
  }

  lemma FollowsTwo(cfg: Config, w: World, s: nat, plan: Plan, a: Answers, d: Event, e: Event)
    requires Next(cfg, w, s, plan, a) == Some(d) && Next(cfg, Step(cfg, w, d), s, plan, a) == Some(e)
    ensures Follows(cfg, w, s, plan, a, [d, e])
  {
    hide Step, Next;
    FollowsOne(cfg, Step(cfg, w, d), s, plan, a, e);
    assert [d, e][1..] == [e];
  }

  /** A row of the store with this execution id. */
  predicate Carries(t: Tables, row: Option<string>, executionId: string) {
    row.Some? && row.value in t.executions && t.executions[row.value].executionId == Some(executionId)
  }

  /** The plan's key is reserved for another payload. */
  predicate Drifted(t: Tables, plan: Plan) {
    exists row | row in t.executions :: t.executions[row].idempotencyKey == plan.prepared.idempotencyKey
                                        && t.executions[row].simulationHash != plan.prepared.payloadHash
  }

  /** The plan's key is reserved for its payload, and no answer to a broadcast is known. */
  predicate Unanswered(t: Tables, plan: Plan) {
    exists row | row in t.executions :: t.executions[row].idempotencyKey == plan.prepared.idempotencyKey
                                        && t.executions[row].simulationHash == plan.prepared.payloadHash
                                        && t.executions[row].executionId.None?
  }

  lemma RowOfKey(t: Tables, id: string, plan: Plan)
    requires ExecutionsOk(t.executions)
    ensures match Reserve(t, id, NewRow(plan))
            case Err(_) => !Drifted(t, plan) && !Unanswered(t, plan)
            case Ok((t', reserved)) =>
              if reserved.created then !Drifted(t, plan) && !Unanswered(t, plan)
              else
                var e := t'.executions[reserved.row];
                && (Drifted(t, plan) <==> e.simulationHash != plan.prepared.payloadHash)
                && (Unanswered(t, plan) <==> e.simulationHash == plan.prepared.payloadHash && e.executionId.None?)
  {
  }

  /** The success transaction leaves the execution id as it is. */
  lemma CarriesOn(t: Tables, x: Success)
    requires Consistent(t) && RecordSuccess(t, x).Ok? && Carries(t, Some(x.row), x.executionId)
    ensures Carries(RecordSuccess(t, x).value, Some(x.row), x.executionId)
  {
    hide Consistent, GatewayStore.RecordSuccess, HasVerifiedReceipt, ExecutionsOk, ReceiptsOk;
    RecordSuccessKeeps(t, x);
  }

  /** The id that a confirmation reads from the node's receipt. */
  function IdRead(cfg: Config, plan: Plan, a: Answers): M.Read<string>
    requires R.ReadReceipt(a.node.receipt).Found?
  {
    RequestIdOf(cfg, plan, R.ReadReceipt(a.node.receipt).fields)
  }

  /** The confirming step of a submitter whose execution is verified. */
  lemma ConfirmStep(cfg: Config, w: World, s: nat, plan: Plan, a: Answers, executionId: string, recorded: bool)
    requires s in w.submitters && w.submitters[s].pc == Reconciling(executionId, recorded) && w.submitters[s].plan == plan
    requires VerdictOf(cfg.hash, executionId, a) == Ok(VerifiedSuccess)
    ensures R.ReadReceipt(a.node.receipt).Found?
    ensures Next(cfg, w, s, plan, a) == Some(Confirm(s, EvidenceFor(executionId, a)))
    ensures var sub, id := w.submitters[s], IdRead(cfg, plan, a);
      Step(cfg, w, Confirm(s, EvidenceFor(executionId, a))) ==
        Put(w, s, sub.(pc :=
          if id.Err? then Stopped
          else if recorded then Finished
          else Verified(executionId, R.ReadReceipt(a.node.receipt).fields.transactionHash, id.value)))
  {
    hide R.Reconcile, R.ReadReceipt, RequestIdOf;
    SuccessHasReceipt(cfg.hash, EvidenceFor(executionId, a));
  }

  lemma RecordNext(cfg: Config, w: World, s: nat, plan: Plan, a: Answers)
    requires s in w.submitters && w.submitters[s].pc.Verified? && w.submitters[s].row.Some?
    ensures Next(cfg, w, s, plan, a) == Some(Record(s, a.receiptId, a.requestRow))
  {
  }

  /** Start and simulation as the first two steps. */
  lemma StartSteps(cfg: Config, w: World, s: nat, plan: Plan, a: Answers)
    requires s !in w.submitters && cfg.legit(plan)
    ensures Next(cfg, w, s, plan, a) == Some(Start(s, plan))
    ensures var w1 := Step(cfg, w, Start(s, plan));
      && Next(cfg, w1, s, plan, a) == Some(Gateway.Simulate(s, a.approved))
      && Step(cfg, w1, Gateway.Simulate(s, a.approved)) ==
           Emit(w, s, Submitter(plan, if a.approved then Approved else Stopped, None, false, 0),
                Simulation(s, plan.prepared.payloadHash, a.approved))
  {
  }

  lemma ReserveNext(cfg: Config, w: World, s: nat, plan: Plan, a: Answers)
    requires s in w.submitters && w.submitters[s].pc.Approved?
    ensures Next(cfg, w, s, plan, a) == Some(ReserveRow(s, a.rowId))
  {
  }

  lemma PauseSteps(cfg: Config, w: World, s: nat, plan: Plan, a: Answers)
    requires s in w.submitters && w.submitters[s].pc.Reserved?
    ensures Next(cfg, w, s, plan, a) == Some(PauseCheck(s, a.paused))
    ensures Step(cfg, w, PauseCheck(s, a.paused)) ==
              Put(w, s, w.submitters[s].(pc := if a.paused then Stopped else Calling))
  {
  }

  lemma AttachNext(cfg: Config, w: World, s: nat, plan: Plan, a: Answers)
    requires s in w.submitters && w.submitters[s].pc.Answered?
    ensures Next(cfg, w, s, plan, a) == Some(Attach(s))
  {
  }

  /** The broadcast call and one request of it, as the submitter's next steps. */
  lemma CallSteps(cfg: Config, w: World, s: nat, plan: Plan, a: Answers)
    requires s in w.submitters && w.submitters[s].pc.Calling?
    ensures Next(cfg, w, s, plan, a) == Some(Invoke(s))
    ensures var sub := w.submitters[s];
      Step(cfg, w, Invoke(s)) == Emit(w, s, sub.(pc := Sending), BroadcastCall(s, sub.plan.prepared))
  {
  }

  lemma SendSteps(cfg: Config, w: World, s: nat, plan: Plan, a: Answers)
    requires s in w.submitters && w.submitters[s].pc.Sending?
    ensures var sub := w.submitters[s];
      var answer := a.respond(sub.sends);
      && Next(cfg, w, s, plan, a) == Some(Send(s, answer))
      && Step(cfg, w, Send(s, answer)) == Emit(w, s, AfterSend(cfg, sub, answer), Request(s, sub.plan.prepared))
  {
    hide AfterSend;
  }

  /** Why a submission ends without a receipt, told by its last step and the world before it. */
  predicate Reason(w: World, e: Event, s: nat, plan: Plan, f: Failure) {
    match e
    case Simulate(_, approved) => !approved && f == SimulationRejected
    case ReserveRow(_, _) =>
      if Drifted(w.tables, plan) then f == SimulationDrift
      else if Unanswered(w.tables, plan) then f == ExecutionAmbiguous
      else f.StoreFailed?
    case PauseCheck(_, paused) => paused && f == OrganizationPaused
    case Send(_, answer) => f == if answer == Accepted("") then ExecutionIdMissing else BroadcastFailed
    case Attach(_) => f.StoreFailed?
    case Confirm(_, _) => f == RequestIdMissing
    case Record(_, _, _) => f.StoreFailed?
    case Mark(_) =>
      && s in w.submitters && w.submitters[s].pc.Rejected?
      && (if RowIsSuccess(w, s) then f.StoreFailed?
          else f == if w.submitters[s].pc.verdict.Unconfirmed? then ReceiptUnconfirmed else ReceiptRejected)
    case Crash(_) => f == ReconciliationFailed
    case _ => false
  }

  ghost predicate Ends(cfg: Config, w: World, s: nat, plan: Plan, events: seq<Event>, f: Failure) {
    events != [] && Reason(Run(cfg, w, events[..|events| - 1]), events[|events| - 1], s, plan, f)
  }

  lemma EndsOne(cfg: Config, w: World, s: nat, plan: Plan, e: Event, f: Failure)
    requires Reason(w, e, s, plan, f)
    ensures Ends(cfg, w, s, plan, [e], f)
  {
    hide Step, Reason;
    assert [e][..0] == [];
  }

  lemma EndsTwo(cfg: Config, w: World, s: nat, plan: Plan, d: Event, e: Event, f: Failure)
    requires Reason(Step(cfg, w, d), e, s, plan, f)
    ensures Ends(cfg, w, s, plan, [d, e], f)
  {
    hide Step, Reason;
    RunOne(cfg, w, d);
    assert [d, e][..1] == [d];
  }

  lemma EndsHere(cfg: Config, w: World, s: nat, plan: Plan, events: seq<Event>, e: Event)
    ensures forall f | Reason(Run(cfg, w, events), e, s, plan, f) :: Ends(cfg, w, s, plan, events + [e], f)
  {
    hide Run, Reason;
    assert (events + [e])[..|events|] == events;
  }

  lemma EndsOn(cfg: Config, w: World, s: nat, plan: Plan, events: seq<Event>, more: seq<Event>, f: Failure)
    requires Ends(cfg, Run(cfg, w, events), s, plan, more, f)
    ensures Ends(cfg, w, s, plan, events + more, f)
  {
    hide Run, Reason;
    RunSplit(cfg, w, events, more[..|more| - 1]);
    assert (events + more)[..|events + more| - 1] == events + more[..|more| - 1];
  }

  /** Marking fails exactly on a row that is recorded as a success. */
  lemma MarkFails(t: Tables, row: string, verdict: Classification)
    requires Consistent(t) && row in t.executions
    ensures GatewayStore.MarkStatus(t, row, Classified(verdict)).Err? <==> t.executions[row].economicSuccess
  {
    if t.executions[row].economicSuccess {
      SuccessIsFinal(t, row, Classified(verdict));
    }
  }

  class Service {
    const store: E.Store
    const maxRetries: nat
    const hash: Hashing.Hash
    const requestTopic: string
    var wire: seq<Wire>

    constructor (store: E.Store, maxRetries: nat, hash: Hashing.Hash, requestTopic: string)
      ensures this.store == store && this.maxRetries == maxRetries && this.hash == hash && this.requestTopic == requestTopic
      ensures wire == []
    {
      this.store, this.maxRetries, this.hash, this.requestTopic, wire := store, maxRetries, hash, requestTopic, [];
    }

    /** The settings of the step machine are this service's. */
    ghost predicate Configured(cfg: Config) {
      cfg.maxRetries == maxRetries && cfg.hash == hash && cfg.requestTopic == requestTopic
    }

    /** The world this service is part of, given the other submitters. */
    ghost predicate Shows(w: World)
      reads this, store
    {
      w.tables == store.Snapshot() && w.wire == wire
    }

    /** The simulation call. */
    method Simulate(s: nat, plan: Plan, approved: bool)
      modifies this`wire
      ensures wire == old(wire) + [Simulation(s, plan.prepared.payloadHash, approved)]
    {
      wire := wire + [Simulation(s, plan.prepared.payloadHash, approved)];
    }

    /** The broadcast call: one request, sent again unchanged while it is rate limited and retries remain. */
    method Broadcast(ghost cfg: Config, ghost w: World, s: nat, plan: Plan, a: Answers)
      returns (r: Result<string, Failure>, ghost events: seq<Event>)
      requires Shows(w) && cfg.maxRetries == maxRetries && s in w.submitters
      requires w.submitters[s].pc.Calling? && w.submitters[s].plan == plan && w.submitters[s].sends == 0
      modifies this`wire
      ensures var w' := Run(cfg, w, events);
        && Shows(w') && s in w'.submitters
        && w'.submitters == w.submitters[s := w.submitters[s].(
            pc := if r.Ok? then Answered(r.value) else Stopped, sends := w'.submitters[s].sends)]
      ensures Follows(cfg, w, s, plan, a, events)
      ensures r.Err? ==> Ends(cfg, w, s, plan, events, r.error)
    {
      hide Follows, Step, Next, Ends;
      wire := wire + [BroadcastCall(s, plan.prepared)];
      events := [Invoke(s)];
      assert Run(cfg, w, events) == Step(cfg, w, Invoke(s)) by { RunExtends(cfg, w, [], Invoke(s)); assert events == [] + events; }
      CallSteps(cfg, w, s, plan, a);
      FollowsOne(cfg, w, s, plan, a, Invoke(s));
      ghost var sub := w.submitters[s].(pc := Sending);
      var retries := 0;
      while true
        invariant retries <= maxRetries
        invariant Follows(cfg, w, s, plan, a, events)
        invariant Run(cfg, w, events) == World(store.Snapshot(), w.submitters[s := sub.(sends := retries)], wire)
        decreases maxRetries - retries
      {
        wire := wire + [Request(s, plan.prepared)];
        var answer := a.respond(retries);
        ghost var before := events;
        events := events + [Send(s, answer)];
        RunExtends(cfg, w, before, Send(s, answer));
        SendSteps(cfg, Run(cfg, w, before), s, plan, a);
        FollowsExtends(cfg, w, s, plan, a, before, Send(s, answer));
        EndsHere(cfg, w, s, plan, before, Send(s, answer));
        if answer.RateLimited? && retries < maxRetries {
          retries := retries + 1;
          continue;
        }
        if !answer.Accepted? {
          return Err(BroadcastFailed), events;
        }
        if answer.executionId == "" {
          return Err(ExecutionIdMissing), events;
        }
        return Ok(answer.executionId), events;
      }
    }

    /** The verdict of an execution that is not confirmed is written to its row. */
    method MarkVerdict(ghost cfg: Config, ghost w: World, s: nat, plan: Plan, row: string, ghost a: Answers, verdict: Classification)
      returns (r: Result<string, Failure>, ghost events: seq<Event>)
      requires Inv(cfg, w) && Shows(w) && s in w.submitters && w.submitters[s].row == Some(row)
      requires w.submitters[s].pc.Reconciling? && !verdict.VerifiedSuccess?
      requires VerdictOf(cfg.hash, w.submitters[s].pc.executionId, a) == Ok(verdict)
      modifies store
      ensures Concluded(cfg, w, s, plan, a, events, r)
    {
      hide AfterReserve, GatewayStore.RecordSuccess, GatewayStore.Update, Inv, Run, Follows, VerdictOf, EvidenceFor,
           AfterConfirm, Confirms, Ends;
      InvValid(cfg, w);
      TiedRow(cfg, w, s);
      events := [Reject(s, verdict), Mark(s)];
      RunTwo(cfg, w, events[0], events[1]);
      FollowsTwo(cfg, w, s, plan, a, events[0], events[1]);
      var marked := store.MarkStatus(row, Classified(verdict));
      r := Err(if marked.Err? then StoreFailed(marked.error)
               else if verdict.Unconfirmed? then ReceiptUnconfirmed else ReceiptRejected);
      MarkFails(w.tables, row, verdict);
      EndsTwo(cfg, w, s, plan, events[0], events[1], r.error);
    }

    /** A confirmed execution is recorded once: nothing is written when the reservation was already successful. */
    method RecordConfirmed(ghost cfg: Config, ghost w: World, s: nat, plan: Plan, row: string, executionId: string,
                           recorded: bool, a: Answers, mechRow: string)
      returns (r: Result<string, Failure>, ghost events: seq<Event>)
      requires Inv(cfg, w) && Shows(w) && s in w.submitters && w.submitters[s].plan == plan && Configured(cfg)
      requires VerdictOf(cfg.hash, executionId, a) == Ok(VerifiedSuccess)
      requires w.submitters[s].pc == Reconciling(executionId, recorded) && w.submitters[s].row == Some(row)
      requires mechRow == cfg.mechRow(plan.intentId, plan.purpose.mech)
      modifies store
      ensures Concluded(cfg, w, s, plan, a, events, r)
    {
      hide AfterReserve, GatewayStore.RecordSuccess, GatewayStore.MarkStatus, GatewayStore.AttachExecution, Inv, Run, Follows,
           Consistent, NewRow, Step, Next, VerdictOf, EvidenceFor, IdRead, R.ReadReceipt, Ends;
      ghost var earlier := w.tables;
      TiedRow(cfg, w, s);
      InvValid(cfg, w);
      ConfirmStep(cfg, w, s, plan, a, executionId, recorded);
      ghost var confirm, record := Confirm(s, EvidenceFor(executionId, a)), Record(s, a.receiptId, a.requestRow);
      var receipt := R.ReadReceipt(a.node.receipt).fields;
      var id := ReadId(cfg, plan, a, receipt.logs);
      if id.Err? || recorded {
        RunOne(cfg, w, confirm);
        FollowsOne(cfg, w, s, plan, a, confirm);
        if id.Err? {
          EndsOne(cfg, w, s, plan, confirm, RequestIdMissing);
        }
        return if id.Err? then Err(RequestIdMissing) else Ok(executionId), [confirm];
      }
      RecordStep(cfg, Step(cfg, w, confirm), s, a.receiptId, a.requestRow);
      RecordNext(cfg, Step(cfg, w, confirm), s, plan, a);
      RunTwo(cfg, w, confirm, record);
      FollowsTwo(cfg, w, s, plan, a, confirm, record);
      var request := if plan.purpose.callId.OLAS_REQUEST?
        then Some((a.requestRow, OlasRow(mechRow, 8453, id.value, row, receipt.transactionHash))) else None;
      var success := Success(row, executionId, a.receiptId, receipt.transactionHash, request);
      var saved := store.RecordSuccess(success);
      if saved.Ok? {
        CarriesOn(earlier, success);
      } else {
        EndsTwo(cfg, w, s, plan, confirm, record, StoreFailed(saved.error));
      }
      return if saved.Err? then Err(StoreFailed(saved.error)) else Ok(executionId), [confirm, record];
    }

    /** The request id of a request's receipt; other calls have none. */
    method ReadId(ghost cfg: Config, plan: Plan, ghost a: Answers, logs: seq<R.Log>) returns (id: M.Read<string>)
      requires Configured(cfg) && R.ReadReceipt(a.node.receipt).Found? && R.ReadReceipt(a.node.receipt).fields.logs == logs
      ensures id == IdRead(cfg, plan, a)
    {
      hide M.ExtractRequestId;
      if plan.purpose.callId.OLAS_REQUEST? {
        return M.ExtractRequestId(logs, Manifest.MARKETPLACE_ADDRESS, requestTopic, plan.purpose.mech, plan.sender);
      }
      return Ok("");
    }

    /** From a known execution id on: reconcile, then record the success or mark the verdict. */
    method Conclude(ghost cfg: Config, ghost w: World, s: nat, plan: Plan, row: string, executionId: string,
                    recorded: bool, a: Answers, mechRow: string)
      returns (r: Result<string, Failure>, ghost events: seq<Event>)
      requires Inv(cfg, w) && Shows(w) && s in w.submitters && w.submitters[s].plan == plan && Configured(cfg)
      requires w.submitters[s].pc == Reconciling(executionId, recorded) && w.submitters[s].row == Some(row)
      requires mechRow == cfg.mechRow(plan.intentId, plan.purpose.mech)
      modifies store
      ensures Concluded(cfg, w, s, plan, a, events, r)
    {
      hide Inv, Run, Follows, VerdictOf, EvidenceFor, AfterReserve, Ends;
      match VerdictOf(hash, executionId, a)
      case Err(_) =>
        events := [Crash(s)];
        RunOne(cfg, w, Crash(s));
        FollowsOne(cfg, w, s, plan, a, Crash(s));
        EndsOne(cfg, w, s, plan, Crash(s), ReconciliationFailed);
        r := Err(ReconciliationFailed);
      case Ok(VerifiedSuccess) => r, events := RecordConfirmed(cfg, w, s, plan, row, executionId, recorded, a, mechRow);
      case Ok(verdict) => r, events := MarkVerdict(cfg, w, s, plan, row, a, verdict);
    }

    /** The service shows the world after `events`: the steps of submitter `s`, all of them and no others, up to its
        end, which is a receipt exactly when the submitter finished. */
    ghost predicate Concluded(cfg: Config, w: World, s: nat, plan: Plan, a: Answers, events: seq<Event>,
                              r: Result<string, Failure>)
      reads this, store
    {
      var w' := Run(cfg, w, events);
      && Shows(w') && s in w'.submitters
      && w'.submitters == w.submitters[s := w'.submitters[s]]
      && Follows(cfg, w, s, plan, a, events)
      && (w'.submitters[s].pc.Finished? || w'.submitters[s].pc.Stopped?)
      && (r.Ok? <==> w'.submitters[s].pc.Finished?)
      && (r.Ok? ==> Carries(w'.tables, w'.submitters[s].row, r.value))
      && (r.Err? ==> Ends(cfg, w, s, plan, events, r.error))
    }

    /** A fresh broadcast: pause check, broadcast, attachment of the returned execution id. */
    method BroadcastAndAttach(ghost cfg: Config, ghost w: World, s: nat, plan: Plan, row: string, a: Answers)
      returns (r: Result<string, Failure>, ghost events: seq<Event>)
      requires KeyBinds(cfg) && Inv(cfg, w) && Shows(w) && Configured(cfg) && s in w.submitters
      requires w.submitters[s].pc.Reserved? && w.submitters[s].plan == plan && w.submitters[s].row == Some(row)
      modifies `wire, store
      ensures var w' := Run(cfg, w, events);
        && Shows(w') && Inv(cfg, w') && s in w'.submitters
        && w'.submitters == w.submitters[s := w'.submitters[s]]
        && w'.submitters[s].plan == plan && w'.submitters[s].row == Some(row)
        && w'.submitters[s].pc == if r.Ok? then Reconciling(r.value, false) else Stopped
      ensures Follows(cfg, w, s, plan, a, events)
      ensures r.Err? ==> Ends(cfg, w, s, plan, events, r.error)
    {
      hide Inv, Run, AttachExecution, Follows, Step, Next, KeyBinds, Ends;
      events := [PauseCheck(s, a.paused)];
      PauseSteps(cfg, w, s, plan, a);
      RunOne(cfg, w, events[0]);
      FollowsOne(cfg, w, s, plan, a, events[0]);
      RunKeeps(cfg, w, events);
      if a.paused {
        EndsOne(cfg, w, s, plan, events[0], OrganizationPaused);
        return Err(OrganizationPaused), events;
      }
      ghost var w1 := Run(cfg, w, events);
      CallingSends(cfg, w1, s);
      ghost var sent;
      r, sent := Broadcast(cfg, w1, s, plan, a);
      RunSplit(cfg, w, events, sent);
      FollowsOn(cfg, w, s, plan, a, events, sent);
      if r.Err? {
        EndsOn(cfg, w, s, plan, events, sent, r.error);
      }
      events := events + sent;
      RunKeeps(cfg, w, events);
      if r.Err? {
        return;
      }
      InvValid(cfg, Run(cfg, w, events));
      AttachStep(cfg, Run(cfg, w, events), s);
      AttachNext(cfg, Run(cfg, w, events), s, plan, a);
      var attached := store.AttachExecution(row, r.value);
      RunExtends(cfg, w, events, Attach(s));
      FollowsExtends(cfg, w, s, plan, a, events, Attach(s));
      EndsHere(cfg, w, s, plan, events, Attach(s));
      events := events + [Attach(s)];
      RunKeeps(cfg, w, events);
      if attached.Err? {
        r := Err(StoreFailed(attached.error));
      }
    }

    /** Reservation and the checks on the reserved row. `Ok((row, None))` is a fresh reservation,
        `Ok((row, Some(execution)))` one whose broadcast is known. */
    method ReserveAndCheck(ghost cfg: Config, ghost w: World, s: nat, plan: Plan, rowId: string)
      returns (r: Result<(string, Option<(string, bool)>), Failure>)
      requires Inv(cfg, w) && Shows(w) && s in w.submitters
      requires w.submitters[s].plan == plan && w.submitters[s].pc.Approved?
      modifies store
      ensures Shows(Step(cfg, w, ReserveRow(s, rowId)))
      ensures var w' := Step(cfg, w, ReserveRow(s, rowId));
        && s in w'.submitters && w'.submitters == w.submitters[s := w'.submitters[s]]
        && Reached(w'.submitters[s], plan, r)
      ensures r == Err(SimulationDrift) <==> Drifted(w.tables, plan)
      ensures r == Err(ExecutionAmbiguous) <==> Unanswered(w.tables, plan)
      ensures r.Err? ==> Reason(w, ReserveRow(s, rowId), s, plan, r.error)
    {
      hide Inv, GatewayStore.Reserve, RecordSuccess, MarkStatus, AttachExecution, Drifted, Unanswered;
      InvValid(cfg, w);
      RowOfKey(w.tables, rowId, plan);
      var reserved := store.Reserve(rowId, NewRow(plan));
      if reserved.Err? {
        return Err(StoreFailed(reserved.error));
      }
      var row := reserved.value.row;
      if reserved.value.created {
        return Ok((row, None));
      }
      var e := store.executions[row];
      if e.simulationHash != plan.prepared.payloadHash {
        return Err(SimulationDrift);
      }
      if e.executionId.None? {
        return Err(ExecutionAmbiguous);
      }
      return Ok((row, Some((e.executionId.value, e.economicSuccess))));
    }

    static predicate Reached(sub: Submitter, plan: Plan, r: Result<(string, Option<(string, bool)>), Failure>) {
      && sub.plan == plan
      && match r
         case Err(_) => sub.pc.Stopped?
         case Ok((row, known)) =>
           sub.row == Some(row) && sub.pc == if known.None? then Reserved else Reconciling(known.value.0, known.value.1)
    }

    /** The simulation call and, when it approves, the reservation. */
    method SimulateAndReserve(ghost cfg: Config, ghost w: World, s: nat, plan: Plan, a: Answers)
      returns (r: Result<(string, Option<(string, bool)>), Failure>, ghost events: seq<Event>)
      requires KeyBinds(cfg) && Inv(cfg, w) && Shows(w) && s !in w.submitters && cfg.legit(plan)
      modifies `wire, store
      ensures var w' := Run(cfg, w, events);
        && Shows(w') && Inv(cfg, w') && s in w'.submitters
        && w'.submitters == w.submitters[s := w'.submitters[s]]
        && Reached(w'.submitters[s], plan, r)
      ensures Follows(cfg, w, s, plan, a, events)
      ensures r.Err? ==> Ends(cfg, w, s, plan, events, r.error)
    {
      hide Inv, Run, Follows, Step, Next, KeyBinds, Ends;
      StartSteps(cfg, w, s, plan, a);
      events := [Start(s, plan), Gateway.Simulate(s, a.approved)];
      RunTwo(cfg, w, events[0], events[1]);
      FollowsTwo(cfg, w, s, plan, a, events[0], events[1]);
      Simulate(s, plan, a.approved);
      RunKeeps(cfg, w, events);
      if !a.approved {
        EndsTwo(cfg, w, s, plan, events[0], events[1], SimulationRejected);
        return Err(SimulationRejected), events;
      }
      r := ReserveAndCheck(cfg, Run(cfg, w, events), s, plan, a.rowId);
      ReserveNext(cfg, Run(cfg, w, events), s, plan, a);
      RunExtends(cfg, w, events, ReserveRow(s, a.rowId));
      FollowsExtends(cfg, w, s, plan, a, events, ReserveRow(s, a.rowId));
      EndsHere(cfg, w, s, plan, events, ReserveRow(s, a.rowId));
      events := events + [ReserveRow(s, a.rowId)];
      RunKeeps(cfg, w, events);
    }

    /** A whole submission is a run of the step machine for submitter `s`. */
    method Submit(ghost cfg: Config, ghost w: World, s: nat, plan: Plan, a: Answers, mechRow: string)
      returns (r: Result<string, Failure>, ghost events: seq<Event>)
      requires KeyBinds(cfg) && Inv(cfg, w) && Shows(w) && Configured(cfg)
      requires s !in w.submitters && cfg.legit(plan) && mechRow == cfg.mechRow(plan.intentId, plan.purpose.mech)
      modifies `wire, store
      ensures Concluded(cfg, w, s, plan, a, events, r)
    {
      hide Inv, Run, Follows, KeyBinds, Carries, Ends;
      var reserved;
      reserved, events := SimulateAndReserve(cfg, w, s, plan, a);
      if reserved.Err? {
        return Err(reserved.error), events;
      }
      var (row, known) := reserved.value;
      var executionId, recorded;
      if known.Some? {
        executionId, recorded := known.value.0, known.value.1;
      } else {
        ghost var w1 := Run(cfg, w, events);
        ghost var sent;
        r, sent := BroadcastAndAttach(cfg, w1, s, plan, row, a);
        RunSplit(cfg, w, events, sent);
        FollowsOn(cfg, w, s, plan, a, events, sent);
        if r.Err? {
          EndsOn(cfg, w, s, plan, events, sent, r.error);
        }
        events := events + sent;
        if r.Err? {
          return;
        }
        executionId, recorded := r.value, false;
      }
      ghost var w2 := Run(cfg, w, events);
      ghost var last;
      r, last := Conclude(cfg, w2, s, plan, row, executionId, recorded, a, mechRow);
      RunSplit(cfg, w, events, last);
      FollowsOn(cfg, w, s, plan, a, events, last);
      if r.Err? {
        EndsOn(cfg, w, s, plan, events, last, r.error);
      }
      events := events + last;
    }
  }

  lemma CallingSends(cfg: Config, w: World, s: nat)
    requires Inv(cfg, w) && s in w.submitters && w.submitters[s].pc.Calling?
    ensures w.submitters[s].sends == 0
  {
    SubmitterIsTied(cfg, w, s);
    assert Counted(cfg, w.wire, w.submitters[s]);
  }

  lemma RunOne(cfg: Config, w: World, e: Event)
    ensures Run(cfg, w, [e]) == Step(cfg, w, e)
  {
    hide Step;
    assert [e][1..] == [];
    assert Run(cfg, w, [e]) == Run(cfg, Step(cfg, w, e), []);
  }

  lemma RunTwo(cfg: Config, w: World, d: Event, e: Event)
    ensures Run(cfg, w, [d, e]) == Step(cfg, Step(cfg, w, d), e)
  {
    hide Step;
    assert [d, e][1..] == [e];
    RunOne(cfg, Step(cfg, w, d), e);
  }

  lemma InvValid(cfg: Config, w: World)
    requires Inv(cfg, w)
    ensures Consistent(w.tables)
  {
  }

  /** A reconciling submitter's row is in the store and carries its execution id. */
  lemma TiedRow(cfg: Config, w: World, s: nat)
    requires Inv(cfg, w) && s in w.submitters && w.submitters[s].pc.Reconciling?
    ensures var sub := w.submitters[s];
      && sub.row.Some? && sub.row.value in w.tables.executions
      && w.tables.executions[sub.row.value].executionId == Some(sub.pc.executionId)
  {
    SubmitterIsTied(cfg, w, s);
  }
}
