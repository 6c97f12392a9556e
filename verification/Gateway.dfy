/** The execution gateway as interleaved submitters (apps/api/src/olas-gateway.ts, `submit`): every
    store transaction and every outside call is one step, and a submitter may stop between any two. */
module Gateway {
  import opened Results
  import opened GatewayStore
  import Hashing
  import Manifest
  import J = CanonicalJson
  import R = Receipts
  import M = MarketplaceEvents

  /** What `prepareContractCall` derives from a call and its policy. */
  datatype Prepared = Prepared(payloadHash: string, idempotencyKey: string, body: string)

  /** A submission that passed the checks made before the first outside call. */
  datatype Plan = Plan(intentId: string, purpose: Purpose, sender: string, prepared: Prepared)

  /** `legit` are the plans that checking and preparing a call can produce; `mechRow` names the row that
      froze a Mech into an intent; `requestTopic` is the hashed signature of the marketplace's request event. */
  datatype Config = Config(legit: Plan -> bool, mechRow: (string, string) -> string, maxRetries: nat,
                           hash: Hashing.Hash, requestTopic: string)

  /** What a reconciliation asked, what the service and the node sent, and the time it was decided at. */
  datatype Evidence = Evidence(question: R.Question, response: seq<J.Property>, node: R.RawNode, now: int)

  /** Equal keys mean the same intent and purpose. */
  ghost predicate KeyBinds(cfg: Config) {
    forall p, q | cfg.legit(p) && cfg.legit(q) && p.prepared.idempotencyKey == q.prepared.idempotencyKey ::
      p.intentId == q.intentId && p.purpose == q.purpose
  }

  datatype Pc =
    | Ready
    | Approved
    | Reserved
    | Calling
    | Sending
    | Answered(executionId: string)
    | Reconciling(executionId: string, recorded: bool)
    | Verified(executionId: string, transactionHash: string, requestId: string)
    | Rejected(verdict: Classification)
    | Finished
    | Stopped

  /** `row` is the reservation the submitter works with, `created` whether it inserted that row. */
  datatype Submitter = Submitter(plan: Plan, pc: Pc, row: Option<string>, created: bool, sends: nat)

  /** What leaves the process: simulations with their answer, broadcast calls, and HTTP requests of a broadcast. */
  datatype Wire =
    | Simulation(who: nat, payloadHash: string, approved: bool)
    | BroadcastCall(who: nat, prepared: Prepared)
    | Request(who: nat, prepared: Prepared)

  type Submitters = map<nat, Submitter>

  datatype World = World(tables: Tables, submitters: Submitters, wire: seq<Wire>)

  datatype Answer = RateLimited | Failed | Accepted(executionId: string)

  datatype Event =
    | Start(s: nat, plan: Plan)
    | Simulate(s: nat, approved: bool)
    | ReserveRow(s: nat, id: string)
    | PauseCheck(s: nat, paused: bool)
    | Invoke(s: nat)
    | Send(s: nat, answer: Answer)
    | Attach(s: nat)
    | Confirm(s: nat, evidence: Evidence)
    | Reject(s: nat, verdict: Classification)
    | Record(s: nat, receiptId: string, requestRow: string)
    | Mark(s: nat)
    | Crash(s: nat)

  function Put(w: World, s: nat, sub: Submitter): World {
    w.(submitters := w.submitters[s := sub])
  }

  function Emit(w: World, s: nat, sub: Submitter, e: Wire): World {
    w.(submitters := w.submitters[s := sub], wire := w.wire + [e])
  }

  function Commit(w: World, s: nat, sub: Submitter, t: Tables): World {
    w.(submitters := w.submitters[s := sub], tables := t)
  }

  /** An aborted transaction leaves the tables alone and ends the submission. */
  function Settle(w: World, s: nat, r: Stored<Tables>, next: Pc): World
    requires s in w.submitters
  {
    match r
    case Err(_) => Put(w, s, w.submitters[s].(pc := Stopped))
    case Ok(t) => Commit(w, s, w.submitters[s].(pc := next), t)
  }

  // Confirmation

  /** The evidence is about this execution, without a Safe, and decides for a verified success. */
  predicate Confirms(cfg: Config, executionId: string, e: Evidence) {
    && e.question.executionId == executionId && e.question.safeAddress.None?
    && R.Reconcile(cfg.hash, e.question, e.response, e.node, e.now) == Ok(VerifiedSuccess)
    && R.ReadReceipt(e.node.receipt).Found?
  }

  /** A verified success has the node's receipt. */
  lemma SuccessHasReceipt(hash: Hashing.Hash, e: Evidence)
    requires R.Reconcile(hash, e.question, e.response, e.node, e.now) == Ok(VerifiedSuccess)
    ensures R.ReadReceipt(e.node.receipt).Found?
  {
    hide R.NormalizeKeeperHub, R.ReadReceipt, R.NormalizeQuantity, R.HashReceipt, R.SafeOutcomeOf;
  }

  /** For a request, the id that its marketplace event carries. */
  function RequestIdOf(cfg: Config, p: Plan, f: R.Fields): M.Read<string> {
    if p.purpose.callId.OLAS_REQUEST? then
      M.ExtractRequestId(f.logs, Manifest.MARKETPLACE_ADDRESS, cfg.requestTopic, p.purpose.mech, p.sender)
    else Ok("")
  }

  /** The request id is read before the success is recorded; a receipt without it ends the submission. */
  function AfterConfirm(cfg: Config, sub: Submitter, e: Evidence): Submitter
    requires sub.pc.Reconciling? && R.ReadReceipt(e.node.receipt).Found?
  {
    var receipt := R.ReadReceipt(e.node.receipt).fields;
    match RequestIdOf(cfg, sub.plan, receipt)
    case Err(_) => sub.(pc := Stopped)
    case Ok(requestId) =>
      if sub.pc.recorded then sub.(pc := Finished)
      else sub.(pc := Verified(sub.pc.executionId, receipt.transactionHash, requestId))
  }

  /** The row that a fresh reservation inserts. */
  function NewRow(p: Plan): Execution {
    Execution(p.intentId, p.purpose, p.prepared.idempotencyKey, p.prepared.payloadHash, None, Pending, false)
  }

  /** Reservation and the checks on the row it returns: simulation drift, ambiguous earlier broadcast. */
  ghost function AfterReserve(w: World, s: nat, sub: Submitter, id: string): World {
    match Reserve(w.tables, id, NewRow(sub.plan))
    case Err(_) => Put(w, s, sub.(pc := Stopped))
    case Ok((t, r)) =>
      if r.created then
        Commit(w, s, sub.(pc := Reserved, row := Some(r.row), created := true), t)
      else
        var e := t.executions[r.row];
        if e.simulationHash != sub.plan.prepared.payloadHash || e.executionId.None? then
          Put(w, s, sub.(pc := Stopped))
        else
          Put(w, s, sub.(pc := Reconciling(e.executionId.value, e.economicSuccess), row := Some(r.row)))
  }

  /** The success transaction of a submitter. */
  function SuccessOf(cfg: Config, sub: Submitter, receiptId: string, requestRow: string): Success
    requires sub.pc.Verified? && sub.row.Some?
  {
    var p := sub.plan;
    Success(sub.row.value, sub.pc.executionId, receiptId, sub.pc.transactionHash,
            if p.purpose.callId.OLAS_REQUEST? then
              Some((requestRow, OlasRow(cfg.mechRow(p.intentId, p.purpose.mech), 8453, sub.pc.requestId, sub.row.value,
                                        sub.pc.transactionHash)))
            else None)
  }

  /** One step; an event that is not enabled changes nothing. */
  ghost function Step(cfg: Config, w: World, e: Event): World {
    if e.Start? then
      if e.s in w.submitters || !cfg.legit(e.plan) then w
      else Put(w, e.s, Submitter(e.plan, Ready, None, false, 0))
    else if e.s !in w.submitters then w
    else
      var sub := w.submitters[e.s];
      match e
      case Simulate(s, approved) =>
        if !sub.pc.Ready? then w
        else Emit(w, s, sub.(pc := if approved then Approved else Stopped),
                  Simulation(s, sub.plan.prepared.payloadHash, approved))
      case ReserveRow(s, id) => if !sub.pc.Approved? then w else AfterReserve(w, s, sub, id)
      case PauseCheck(s, paused) =>
        if !sub.pc.Reserved? then w else Put(w, s, sub.(pc := if paused then Stopped else Calling))
      case Invoke(s) =>
        if !sub.pc.Calling? then w else Emit(w, s, sub.(pc := Sending), BroadcastCall(s, sub.plan.prepared))
      case Send(s, answer) =>
        if !sub.pc.Sending? then w
        else Emit(w, s, AfterSend(cfg, sub, answer), Request(s, sub.plan.prepared))
      case Attach(s) =>
        if !sub.pc.Answered? || sub.row.None? then w
        else Settle(w, s, AttachExecution(w.tables, sub.row.value, sub.pc.executionId),
                    Reconciling(sub.pc.executionId, false))
      case Confirm(s, evidence) =>
        if !sub.pc.Reconciling? || !Confirms(cfg, sub.pc.executionId, evidence) then w
        else Put(w, s, AfterConfirm(cfg, sub, evidence))
      case Reject(s, verdict) =>
        if !sub.pc.Reconciling? then w else Put(w, s, sub.(pc := Rejected(verdict)))
      case Record(s, receiptId, requestRow) =>
        if !sub.pc.Verified? || sub.row.None? then w
        else Settle(w, s, RecordSuccess(w.tables, SuccessOf(cfg, sub, receiptId, requestRow)), Finished)
      case Mark(s) =>
        if !sub.pc.Rejected? || sub.row.None? then w
        else Settle(w, s, MarkStatus(w.tables, sub.row.value, Classified(sub.pc.verdict)), Stopped)
      case Crash(s) => Put(w, s, sub.(pc := Stopped))
      case Start(_, _) => w
  }

  /** The client's retry rule: a rate-limited request is sent again at most `maxRetries` times. */
  function AfterSend(cfg: Config, sub: Submitter, answer: Answer): Submitter {
    var sent := sub.(sends := sub.sends + 1);
    match answer
    case RateLimited => if sub.sends < cfg.maxRetries then sent else sent.(pc := Stopped)
    case Failed => sent.(pc := Stopped)
    case Accepted(id) => sent.(pc := if id == "" then Stopped else Answered(id))
  }

  ghost function Run(cfg: Config, w: World, events: seq<Event>): World
    decreases |events|
  {
    if events == [] then w else Run(cfg, Step(cfg, w, events[0]), events[1..])
  }

  const INITIAL := World(Tables(map[], map[], map[]), map[], [])

  // The wire log

  function Requests(wire: seq<Wire>, key: string): nat {
    if wire == [] then 0 else
      var e := wire[|wire| - 1];
      Requests(wire[..|wire| - 1], key) + (if e.Request? && e.prepared.idempotencyKey == key then 1 else 0)
  }

  function Calls(wire: seq<Wire>, key: string): nat {
    if wire == [] then 0 else
      var e := wire[|wire| - 1];
      Calls(wire[..|wire| - 1], key) + (if e.BroadcastCall? && e.prepared.idempotencyKey == key then 1 else 0)
  }

  lemma CountsOfEmit(wire: seq<Wire>, e: Wire, key: string)
    ensures Requests(wire + [e], key) == Requests(wire, key) +
                                         (if e.Request? && e.prepared.idempotencyKey == key then 1 else 0)
    ensures Calls(wire + [e], key) == Calls(wire, key) +
                                      (if e.BroadcastCall? && e.prepared.idempotencyKey == key then 1 else 0)
  {
    assert (wire + [e])[..|wire|] == wire;
  }

  // Invariants

  /** A submitter's program counter against the row it works with. */
  predicate Tied(cfg: Config, t: Tables, sub: Submitter) {
    && (sub.row.Some? ==> RowOfPlan(t, sub.row.value, sub.plan))
    && (if sub.created then sub.row.Some? else sub.sends == 0)
    && (sub.pc.Ready? || sub.pc.Approved? ==> sub.row.None?)
    && (sub.pc.Reserved? || sub.pc.Calling? || sub.pc.Sending? || sub.pc.Answered? ==>
          sub.created && t.executions[sub.row.value].executionId.None?)
    && (sub.pc.Reconciling? || sub.pc.Verified? ==>
          sub.row.Some? && t.executions[sub.row.value].executionId == Some(sub.pc.executionId))
    && (sub.pc.Rejected? ==> sub.row.Some? && t.executions[sub.row.value].executionId.Some?)
    && (sub.pc.Reconciling? && sub.pc.recorded ==> t.executions[sub.row.value].economicSuccess)
  }

  predicate RowOfPlan(t: Tables, row: string, p: Plan) {
    && row in t.executions
    && t.executions[row].idempotencyKey == p.prepared.idempotencyKey
    && t.executions[row].simulationHash == p.prepared.payloadHash
    && t.executions[row].intentId == p.intentId
    && t.executions[row].purpose == p.purpose
  }

  /** A row was inserted for some legitimate plan. */
  ghost predicate Rooted(cfg: Config, e: Execution) {
    exists p: Plan :: cfg.legit(p) && p.prepared.idempotencyKey == e.idempotencyKey && p.intentId == e.intentId
                      && p.purpose == e.purpose
  }

  predicate Broadcasts(sub: Submitter) {
    sub.pc.Ready? || sub.pc.Approved? || sub.pc.Reserved? || sub.pc.Calling?
  }

  /** Calls and requests of a submitter so far: none before the broadcast, one call and bounded requests after. */
  predicate Counted(cfg: Config, wire: seq<Wire>, sub: Submitter) {
    var key := sub.plan.prepared.idempotencyKey;
    && Requests(wire, key) == sub.sends <= cfg.maxRetries + 1
    && Calls(wire, key) <= 1
    && (sub.sends > 0 ==> Calls(wire, key) == 1)
    && (Broadcasts(sub) ==> sub.sends == 0 && Calls(wire, key) == 0)
    && (sub.pc.Sending? ==> sub.sends <= cfg.maxRetries && Calls(wire, key) == 1)
  }

  ghost predicate TablesOk(cfg: Config, t: Tables) {
    && Consistent(t)
    && (forall a | a in t.executions :: Rooted(cfg, t.executions[a]))
    && (forall a | a in t.executions && t.executions[a].economicSuccess :: SuccessOk(cfg, t, a))
  }

  /** What a recorded success comes with. */
  predicate SuccessOk(cfg: Config, t: Tables, row: string)
    requires row in t.executions
  {
    var e := t.executions[row];
    && e.executionId.Some?
    && HasVerifiedReceipt(t, row)
    && (e.purpose.callId.OLAS_REQUEST? ==> HasRequestRow(t, cfg.mechRow(e.intentId, e.purpose.mech)))
  }

  predicate HasRequestRow(t: Tables, intentMechId: string) {
    exists a | a in t.requests :: t.requests[a].intentMechId == intentMechId
  }

  predicate AllTied(cfg: Config, t: Tables, subs: Submitters) {
    forall s | s in subs :: cfg.legit(subs[s].plan) && Tied(cfg, t, subs[s])
  }

  function KeyOf(sub: Submitter): string {
    sub.plan.prepared.idempotencyKey
  }

  /** At most one submitter inserted the row of a key. */
  predicate OneCreator(subs: Submitters) {
    forall r, s | r in subs && s in subs && r != s && subs[r].created && subs[s].created ::
      KeyOf(subs[r]) != KeyOf(subs[s])
  }

  predicate HasCreator(subs: Submitters, key: string) {
    exists s | s in subs :: subs[s].created && KeyOf(subs[s]) == key
  }

  ghost predicate AllCounted(cfg: Config, wire: seq<Wire>, subs: Submitters) {
    && (forall s | s in subs && subs[s].created :: Counted(cfg, wire, subs[s]))
    && (forall key :: !HasCreator(subs, key) ==> Requests(wire, key) == 0 && Calls(wire, key) == 0)
  }

  predicate Simulated(wire: seq<Wire>, n: nat, who: nat, payloadHash: string)
    requires n <= |wire|
  {
    exists i | 0 <= i < n :: wire[i] == Simulation(who, payloadHash, true)
  }

  /** A call or request was made by the creator of its key's row, on its plan, after an approved simulation. */
  predicate Justified(wire: seq<Wire>, n: nat, subs: Submitters)
    requires n < |wire|
  {
    var e := wire[n];
    !e.Simulation? ==>
      && e.who in subs && subs[e.who].created && e.prepared == subs[e.who].plan.prepared
      && Simulated(wire, n, e.who, e.prepared.payloadHash)
  }

  predicate AllJustified(wire: seq<Wire>, subs: Submitters) {
    && (forall n | 0 <= n < |wire| :: Justified(wire, n, subs))
    && (forall s | s in subs :: subs[s].pc.Approved? || subs[s].created ==>
                                  Simulated(wire, |wire|, s, subs[s].plan.prepared.payloadHash))
  }

  ghost predicate Inv(cfg: Config, w: World) {
    && TablesOk(cfg, w.tables)
    && AllTied(cfg, w.tables, w.submitters)
    && OneCreator(w.submitters)
    && AllCounted(cfg, w.wire, w.submitters)
    && AllJustified(w.wire, w.submitters)
  }

  // Three kinds of step keep the invariants

  /** A submitter that keeps its plan, its role and its counter. */
  predicate SameWork(x: Submitter, y: Submitter) {
    y.plan == x.plan && y.created == x.created && y.sends == x.sends
  }

  lemma CreatorsKept(subs: Submitters, s: nat, sub: Submitter)
    requires s in subs && subs[s].plan == sub.plan && subs[s].created == sub.created
    ensures OneCreator(subs) ==> OneCreator(subs[s := sub])
    ensures forall key :: HasCreator(subs[s := sub], key) <==> HasCreator(subs, key)
  {
    var subs' := subs[s := sub];
    forall key ensures HasCreator(subs', key) <==> HasCreator(subs, key) {
      if r :| r in subs && subs[r].created && KeyOf(subs[r]) == key {
        assert subs'[r].created && KeyOf(subs'[r]) == key;
      }
    }
  }

  lemma JustifiedKept(wire: seq<Wire>, subs: Submitters, s: nat, sub: Submitter)
    requires AllJustified(wire, subs) && s in subs && subs[s].plan == sub.plan
    requires subs[s].created == sub.created && (sub.pc.Approved? ==> subs[s].pc.Approved?)
    ensures AllJustified(wire, subs[s := sub])
  {
    hide Simulated;
    var subs' := subs[s := sub];
    forall n | 0 <= n < |wire| ensures Justified(wire, n, subs') {
      assert Justified(wire, n, subs);
    }
  }

  /** What the invariants say of one submitter. */
  lemma SubmitterFacts(cfg: Config, w: World, s: nat)
    requires Inv(cfg, w) && s in w.submitters
    ensures TablesOk(cfg, w.tables) && Tied(cfg, w.tables, w.submitters[s])
    ensures w.submitters[s].created ==> Counted(cfg, w.wire, w.submitters[s])
  {
    hide TablesOk, Tied, Counted, AllJustified, OneCreator;
  }

  /** Once the broadcast is over, the counts hold whatever the submitter does next. */
  lemma CountedLater(cfg: Config, wire: seq<Wire>, sub: Submitter, pc: Pc)
    requires Counted(cfg, wire, sub) && !Broadcasts(sub.(pc := pc)) && !pc.Sending?
    ensures Counted(cfg, wire, sub.(pc := pc))
  {
    hide Requests, Calls;
  }

  lemma PutKeeps(cfg: Config, w: World, s: nat, sub: Submitter)
    requires Inv(cfg, w) && s in w.submitters && SameWork(w.submitters[s], sub)
    requires Tied(cfg, w.tables, sub) && (sub.created ==> Counted(cfg, w.wire, sub))
    requires sub.pc.Approved? ==> w.submitters[s].pc.Approved?
    ensures Inv(cfg, Put(w, s, sub))
  {
    hide TablesOk, Tied, Counted, AllJustified, OneCreator, HasCreator;
    CreatorsKept(w.submitters, s, sub);
    JustifiedKept(w.wire, w.submitters, s, sub);
  }

  /** Stopping is always possible. */
  lemma StopKeeps(cfg: Config, w: World, s: nat, pc: Pc)
    requires Inv(cfg, w) && s in w.submitters && (pc == Stopped || pc == Finished)
    ensures Inv(cfg, Put(w, s, w.submitters[s].(pc := pc)))
  {
    hide TablesOk, AllJustified, OneCreator;
    PutKeeps(cfg, w, s, w.submitters[s].(pc := pc));
  }

  lemma StartKeeps(cfg: Config, w: World, s: nat, plan: Plan)
    requires Inv(cfg, w) && s !in w.submitters && cfg.legit(plan)
    ensures Inv(cfg, Put(w, s, Submitter(plan, Ready, None, false, 0)))
  {
    hide TablesOk, Counted, Simulated;
    var subs, subs' := w.submitters, w.submitters[s := Submitter(plan, Ready, None, false, 0)];
    forall key ensures HasCreator(subs', key) <==> HasCreator(subs, key) {
      if r :| r in subs && subs[r].created && KeyOf(subs[r]) == key {
        assert subs'[r].created && KeyOf(subs'[r]) == key;
      }
    }
    forall n | 0 <= n < |w.wire| ensures Justified(w.wire, n, subs') {
      assert Justified(w.wire, n, subs);
    }
  }

  // Steps on the wire

  lemma EmitJustified(wire: seq<Wire>, subs: Submitters, s: nat, sub: Submitter, e: Wire)
    requires AllJustified(wire, subs) && s in subs && subs[s].plan == sub.plan && subs[s].created == sub.created
    requires sub.pc.Approved? ==> e == Simulation(s, sub.plan.prepared.payloadHash, true)
    requires e.Simulation? || (e.who == s && e.prepared == sub.plan.prepared && sub.created)
    ensures AllJustified(wire + [e], subs[s := sub])
  {
    var wire', subs' := wire + [e], subs[s := sub];
    forall n | 0 <= n < |wire'| ensures Justified(wire', n, subs') {
      if n < |wire| {
        assert Justified(wire, n, subs);
        if !wire[n].Simulation? {
          SimulatedExtends(wire, n, n, e, wire[n].who, wire[n].prepared.payloadHash);
        }
      } else if !e.Simulation? {
        SimulatedExtends(wire, |wire|, |wire|, e, s, e.prepared.payloadHash);
      }
    }
    forall r | r in subs' && (subs'[r].pc.Approved? || subs'[r].created)
      ensures Simulated(wire', |wire'|, r, subs'[r].plan.prepared.payloadHash)
    {
      if r == s && sub.pc.Approved? {
        assert wire'[|wire|] == Simulation(s, sub.plan.prepared.payloadHash, true);
      } else {
        SimulatedExtends(wire, |wire|, |wire'|, e, r, subs[r].plan.prepared.payloadHash);
      }
    }
  }

  lemma SimulatedExtends(wire: seq<Wire>, n: nat, m: nat, e: Wire, who: nat, payloadHash: string)
    requires n <= |wire| && n <= m <= |wire| + 1
    requires Simulated(wire, n, who, payloadHash)
    ensures Simulated(wire + [e], m, who, payloadHash)
  {
    var i :| 0 <= i < n && wire[i] == Simulation(who, payloadHash, true);
    assert (wire + [e])[i] == wire[i];
  }

  lemma EmitCounted(cfg: Config, w: World, s: nat, sub: Submitter, e: Wire)
    requires AllCounted(cfg, w.wire, w.submitters) && OneCreator(w.submitters)
    requires s in w.submitters && w.submitters[s].plan == sub.plan && w.submitters[s].created == sub.created
    requires e.Simulation? || (sub.created && e.prepared == sub.plan.prepared)
    requires sub.created ==> Counted(cfg, w.wire + [e], sub)
    ensures AllCounted(cfg, w.wire + [e], w.submitters[s := sub])
  {
    hide Requests, Calls, HasCreator;
    var subs' := w.submitters[s := sub];
    CreatorsKept(w.submitters, s, sub);
    forall r | r in subs' && subs'[r].created ensures Counted(cfg, w.wire + [e], subs'[r]) {
      CountsOfEmit(w.wire, e, KeyOf(subs'[r]));
    }
    forall key | !HasCreator(subs', key) ensures Requests(w.wire + [e], key) == 0 && Calls(w.wire + [e], key) == 0 {
      CountsOfEmit(w.wire, e, key);
      NoCreatorMeans(subs', key, s);
    }
  }

  lemma NoCreatorMeans(subs: Submitters, key: string, s: nat)
    requires s in subs && !HasCreator(subs, key)
    ensures subs[s].created ==> KeyOf(subs[s]) != key
  {
  }

  lemma EmitKeeps(cfg: Config, w: World, s: nat, sub: Submitter, e: Wire)
    requires Inv(cfg, w) && s in w.submitters
    requires w.submitters[s].plan == sub.plan && w.submitters[s].created == sub.created && w.submitters[s].row == sub.row
    requires Tied(cfg, w.tables, sub) && (sub.created ==> Counted(cfg, w.wire + [e], sub))
    requires sub.pc.Approved? ==> e == Simulation(s, sub.plan.prepared.payloadHash, true)
    requires e.Simulation? || (e.who == s && e.prepared == sub.plan.prepared && sub.created)
    ensures Inv(cfg, Emit(w, s, sub, e))
  {
    hide TablesOk, Tied, Counted, AllJustified, OneCreator, HasCreator, AllCounted;
    EmitCounted(cfg, w, s, sub, e);
    EmitJustified(w.wire, w.submitters, s, sub, e);
    CreatorsKept(w.submitters, s, sub);
  }

  // Steps on the store

  /** Only the row of `s` (or a new row) differs. */
  predicate Touches(t: Tables, t': Tables, row: string) {
    Grows(t, t') && forall a | a in t.executions && a != row :: t'.executions[a] == t.executions[a]
  }

  lemma OthersTied(cfg: Config, t: Tables, t': Tables, row: string, sub: Submitter)
    requires Touches(t, t', row) && Tied(cfg, t, sub)
    requires sub.row == Some(row) ==> !sub.created || t.executions[row].executionId.Some?
    ensures Tied(cfg, t', sub)
  {
  }

  /** The row a submitter created carries its key, so no other creator works with it. */
  lemma CreatorsApart(cfg: Config, t: Tables, subs: Submitters, s: nat, r: nat)
    requires AllTied(cfg, t, subs) && OneCreator(subs) && s in subs && r in subs && r != s
    requires subs[s].created && subs[r].created
    ensures subs[r].row != subs[s].row
  {
    assert Tied(cfg, t, subs[s]) && Tied(cfg, t, subs[r]);
  }

  lemma CommitKeeps(cfg: Config, w: World, s: nat, sub: Submitter, t: Tables)
    requires Inv(cfg, w) && s in w.submitters && SameWork(w.submitters[s], sub) && !sub.pc.Approved?
    requires sub.row.Some? && sub.row == w.submitters[s].row
    requires TablesOk(cfg, t) && Touches(w.tables, t, sub.row.value) && Tied(cfg, t, sub)
    requires sub.created || w.tables.executions[sub.row.value].executionId.Some?
    requires sub.created ==> Counted(cfg, w.wire, sub)
    ensures Inv(cfg, Commit(w, s, sub, t))
  {
    hide TablesOk, AllTied, AllCounted, AllJustified, OneCreator, Tied, Counted, Touches;
    CommitTied(cfg, w, s, sub, t);
    CommitWire(cfg, w, s, sub);
  }

  lemma CommitTied(cfg: Config, w: World, s: nat, sub: Submitter, t: Tables)
    requires Inv(cfg, w) && s in w.submitters && SameWork(w.submitters[s], sub) && sub.row.Some? && sub.row == w.submitters[s].row
    requires Touches(w.tables, t, sub.row.value) && Tied(cfg, t, sub)
    requires sub.created || w.tables.executions[sub.row.value].executionId.Some?
    ensures AllTied(cfg, t, w.submitters[s := sub])
  {
    hide Inv, Tied, Touches;
    var subs' := w.submitters[s := sub];
    forall r | r in subs' ensures cfg.legit(subs'[r].plan) && Tied(cfg, t, subs'[r]) {
      PlanIsLegit(cfg, w, if r == s then s else r);
      if r != s {
        TiedAcross(cfg, w, s, r, t);
      }
    }
  }

  lemma PlanIsLegit(cfg: Config, w: World, s: nat)
    requires Inv(cfg, w) && s in w.submitters
    ensures cfg.legit(w.submitters[s].plan)
  {
    hide TablesOk, Tied, AllCounted, AllJustified, OneCreator;
  }

  lemma CommitWire(cfg: Config, w: World, s: nat, sub: Submitter)
    requires Inv(cfg, w) && s in w.submitters && SameWork(w.submitters[s], sub) && !sub.pc.Approved?
    requires sub.created ==> Counted(cfg, w.wire, sub)
    ensures var subs' := w.submitters[s := sub];
      AllCounted(cfg, w.wire, subs') && OneCreator(subs') && AllJustified(w.wire, subs')
  {
    hide TablesOk, AllTied, Counted, AllJustified, OneCreator, HasCreator;
    CreatorsKept(w.submitters, s, sub);
    JustifiedKept(w.wire, w.submitters, s, sub);
  }

  lemma TiedAcross(cfg: Config, w: World, s: nat, r: nat, t: Tables)
    requires Inv(cfg, w) && s in w.submitters && r in w.submitters && r != s && w.submitters[s].row.Some?
    requires Touches(w.tables, t, w.submitters[s].row.value)
    requires w.submitters[s].created || w.tables.executions[w.submitters[s].row.value].executionId.Some?
    ensures Tied(cfg, t, w.submitters[r])
  {
    hide TablesOk, AllCounted, AllJustified, Touches;
    if w.submitters[s].created && w.submitters[r].created {
      CreatorsApart(cfg, w.tables, w.submitters, s, r);
    }
    OthersTied(cfg, w.tables, t, w.submitters[s].row.value, w.submitters[r]);
  }

  // Every step keeps the invariants

  lemma SimulateKeeps(cfg: Config, w: World, s: nat, approved: bool)
    requires Inv(cfg, w) && s in w.submitters && w.submitters[s].pc.Ready?
    ensures Inv(cfg, Step(cfg, w, Simulate(s, approved)))
  {
    hide TablesOk, AllJustified, OneCreator, AllCounted;
    var sub := w.submitters[s];
    assert Tied(cfg, w.tables, sub);
    EmitKeeps(cfg, w, s, sub.(pc := if approved then Approved else Stopped),
              Simulation(s, sub.plan.prepared.payloadHash, approved));
  }

  lemma InsertedRow(cfg: Config, t: Tables, id: string, plan: Plan)
    requires TablesOk(cfg, t) && id !in t.executions && !HasExecutionKey(t.executions, plan.prepared.idempotencyKey)
    requires cfg.legit(plan)
    ensures var t' := t.(executions := t.executions[id := NewRow(plan)]); TablesOk(cfg, t') && Touches(t, t', id)
  {
    var t' := t.(executions := t.executions[id := NewRow(plan)]);
    assert Consistent(t') && Touches(t, t', id) by {
      hide Rooted, SuccessOk;
      ReserveKeeps(t, id, NewRow(plan));
    }
    hide Consistent, HasVerifiedReceipt, HasRequestRow, ExecutionsOk;
    assert Rooted(cfg, NewRow(plan));
    forall a | a in t'.executions && t'.executions[a].economicSuccess ensures SuccessOk(cfg, t', a) {
      assert SuccessOk(cfg, t, a);
      SameRecords(cfg, t, t', a);
    }
  }

  lemma SameRecords(cfg: Config, t: Tables, t': Tables, a: string)
    requires a in t.executions && a in t'.executions && t'.executions[a] == t.executions[a]
    requires t'.receipts == t.receipts && t'.requests == t.requests && SuccessOk(cfg, t, a)
    ensures SuccessOk(cfg, t', a)
  {
  }

  /** A new row has a key that no creator uses. */
  lemma FreshKey(cfg: Config, t: Tables, subs: Submitters, key: string)
    requires AllTied(cfg, t, subs) && !HasExecutionKey(t.executions, key)
    ensures !HasCreator(subs, key)
  {
    if s :| s in subs && subs[s].created && KeyOf(subs[s]) == key {
      assert Tied(cfg, t, subs[s]);
      assert HasExecutionKey(t.executions, key);
    }
  }

  lemma InsertTied(cfg: Config, w: World, s: nat, id: string)
    requires Inv(cfg, w) && s in w.submitters && w.submitters[s].pc.Approved?
    requires id !in w.tables.executions
    ensures var sub := w.submitters[s];
      var t := w.tables.(executions := w.tables.executions[id := NewRow(sub.plan)]);
      Touches(w.tables, t, id) ==>
        AllTied(cfg, t, w.submitters[s := sub.(pc := Reserved, row := Some(id), created := true)])
  {
    hide TablesOk, AllCounted, AllJustified, Touches;
    var sub := w.submitters[s];
    var t := w.tables.(executions := w.tables.executions[id := NewRow(sub.plan)]);
    var subs' := w.submitters[s := sub.(pc := Reserved, row := Some(id), created := true)];
    assert Tied(cfg, w.tables, sub);
    if Touches(w.tables, t, id) {
      forall r | r in subs' ensures cfg.legit(subs'[r].plan) && Tied(cfg, t, subs'[r]) {
        if r != s {
          OthersTied(cfg, w.tables, t, id, subs'[r]);
        }
      }
    }
  }

  lemma InsertKeeps(cfg: Config, w: World, s: nat, id: string)
    requires Inv(cfg, w) && s in w.submitters && w.submitters[s].pc.Approved?
    requires id !in w.tables.executions
    requires !HasExecutionKey(w.tables.executions, w.submitters[s].plan.prepared.idempotencyKey)
    ensures var sub := w.submitters[s];
      var t := w.tables.(executions := w.tables.executions[id := NewRow(sub.plan)]);
      Inv(cfg, Commit(w, s, sub.(pc := Reserved, row := Some(id), created := true), t)) && Grows(w.tables, t)
  {
    var sub := w.submitters[s];
    var sub' := sub.(pc := Reserved, row := Some(id), created := true);
    var t := w.tables.(executions := w.tables.executions[id := NewRow(sub.plan)]);
    var subs' := w.submitters[s := sub'];
    hide Inv, TablesOk, AllTied, AllCounted, AllJustified, OneCreator, HasExecutionKey, NewRow;
    InvParts(cfg, w);
    InsertedRow(cfg, w.tables, id, sub.plan);
    FreshKey(cfg, w.tables, w.submitters, KeyOf(sub));
    InsertTied(cfg, w, s, id);
    InsertWire(cfg, w, s, sub');
    InvOf(cfg, Commit(w, s, sub', t));
  }

  lemma InvParts(cfg: Config, w: World)
    requires Inv(cfg, w)
    ensures TablesOk(cfg, w.tables) && AllTied(cfg, w.tables, w.submitters) && OneCreator(w.submitters)
    ensures AllCounted(cfg, w.wire, w.submitters) && AllJustified(w.wire, w.submitters)
    ensures forall s | s in w.submitters :: cfg.legit(w.submitters[s].plan)
  {
    hide TablesOk, OneCreator, AllCounted, AllJustified;
  }

  lemma InvOf(cfg: Config, w: World)
    requires TablesOk(cfg, w.tables) && AllTied(cfg, w.tables, w.submitters) && OneCreator(w.submitters)
    requires AllCounted(cfg, w.wire, w.submitters) && AllJustified(w.wire, w.submitters)
    ensures Inv(cfg, w)
  {
    hide TablesOk, AllTied, OneCreator, AllCounted, AllJustified;
  }

  /** A new creator of a key that had none. */
  lemma InsertWire(cfg: Config, w: World, s: nat, sub: Submitter)
    requires Inv(cfg, w) && s in w.submitters && w.submitters[s].pc.Approved? && !HasCreator(w.submitters, KeyOf(w.submitters[s]))
    requires sub.plan == w.submitters[s].plan && sub.pc.Reserved? && sub.created && sub.sends == w.submitters[s].sends
    ensures var subs' := w.submitters[s := sub];
      OneCreator(subs') && AllCounted(cfg, w.wire, subs') && AllJustified(w.wire, subs')
  {
    var subs' := w.submitters[s := sub];
    assert Tied(cfg, w.tables, w.submitters[s]);
    assert OneCreator(subs') && AllCounted(cfg, w.wire, subs') by {
      hide TablesOk, AllJustified, Requests, Calls;
      NewCreator(cfg, w, s, sub);
    }
    assert AllJustified(w.wire, subs') by {
      hide TablesOk, AllCounted, Simulated;
      forall n | 0 <= n < |w.wire| ensures Justified(w.wire, n, subs') {
        assert Justified(w.wire, n, w.submitters);
      }
    }
  }

  lemma NewCreator(cfg: Config, w: World, s: nat, sub: Submitter)
    requires OneCreator(w.submitters) && AllCounted(cfg, w.wire, w.submitters) && s in w.submitters
    requires sub.created && sub.pc.Reserved? && sub.sends == 0 && !HasCreator(w.submitters, KeyOf(sub))
    requires !w.submitters[s].created
    ensures OneCreator(w.submitters[s := sub]) && AllCounted(cfg, w.wire, w.submitters[s := sub])
  {
    hide Requests, Calls;
    var subs, subs' := w.submitters, w.submitters[s := sub];
    forall key ensures HasCreator(subs, key) ==> HasCreator(subs', key) {
      if HasCreator(subs, key) {
        var r :| r in subs && subs[r].created && KeyOf(subs[r]) == key;
        assert subs'[r].created && KeyOf(subs'[r]) == key;
      }
    }
    assert Counted(cfg, w.wire, sub);
  }

  lemma FoundRow(cfg: Config, w: World, s: nat, row: string)
    requires KeyBinds(cfg) && Inv(cfg, w) && s in w.submitters && row in w.tables.executions
    requires w.tables.executions[row].idempotencyKey == KeyOf(w.submitters[s])
    requires w.tables.executions[row].simulationHash == w.submitters[s].plan.prepared.payloadHash
    ensures RowOfPlan(w.tables, row, w.submitters[s].plan)
  {
    hide Consistent, AllCounted, AllJustified, OneCreator, SuccessOk;
    assert Rooted(cfg, w.tables.executions[row]);
  }

  lemma ReserveStepKeeps(cfg: Config, w: World, s: nat, id: string)
    requires KeyBinds(cfg) && Inv(cfg, w) && s in w.submitters && w.submitters[s].pc.Approved?
    ensures var w' := AfterReserve(w, s, w.submitters[s], id); Inv(cfg, w') && Grows(w.tables, w'.tables)
  {
    hide TablesOk, AllCounted, AllJustified, OneCreator, HasExecutionKey;
    var sub := w.submitters[s];
    assert Tied(cfg, w.tables, sub);
    if id !in w.tables.executions && !HasExecutionKey(w.tables.executions, KeyOf(sub)) {
      InsertKeeps(cfg, w, s, id);
    } else {
      StopKeeps(cfg, w, s, Stopped);
      var found := FindByKey(w.tables.executions, KeyOf(sub));
      if found.Some? {
        var e := w.tables.executions[found.value];
        if e.simulationHash == sub.plan.prepared.payloadHash && e.executionId.Some? {
          FoundRow(cfg, w, s, found.value);
          PutKeeps(cfg, w, s, sub.(pc := Reconciling(e.executionId.value, e.economicSuccess), row := found));
        }
      }
    }
  }

  lemma PauseCheckKeeps(cfg: Config, w: World, s: nat, paused: bool)
    requires Inv(cfg, w) && s in w.submitters && w.submitters[s].pc.Reserved?
    ensures Inv(cfg, Step(cfg, w, PauseCheck(s, paused)))
  {
    hide Inv, TablesOk, Requests, Calls;
    var sub := w.submitters[s];
    SubmitterFacts(cfg, w, s);
    PutKeeps(cfg, w, s, sub.(pc := if paused then Stopped else Calling));
  }

  lemma InvokeKeeps(cfg: Config, w: World, s: nat)
    requires Inv(cfg, w) && s in w.submitters && w.submitters[s].pc.Calling?
    ensures Inv(cfg, Step(cfg, w, Invoke(s)))
  {
    hide Inv, TablesOk, Requests, Calls;
    var sub := w.submitters[s];
    var e := BroadcastCall(s, sub.plan.prepared);
    SubmitterFacts(cfg, w, s);
    CountsOfEmit(w.wire, e, KeyOf(sub));
    EmitKeeps(cfg, w, s, sub.(pc := Sending), e);
  }

  lemma SentCounted(cfg: Config, wire: seq<Wire>, s: nat, sub: Submitter, answer: Answer)
    requires Counted(cfg, wire, sub) && sub.pc.Sending?
    ensures Counted(cfg, wire + [Request(s, sub.plan.prepared)], AfterSend(cfg, sub, answer))
  {
    hide Requests, Calls;
    CountsOfEmit(wire, Request(s, sub.plan.prepared), KeyOf(sub));
  }

  lemma SendKeeps(cfg: Config, w: World, s: nat, answer: Answer)
    requires Inv(cfg, w) && s in w.submitters && w.submitters[s].pc.Sending?
    ensures Inv(cfg, Step(cfg, w, Send(s, answer)))
  {
    hide TablesOk, AllJustified, OneCreator, Counted;
    var sub := w.submitters[s];
    assert Tied(cfg, w.tables, sub);
    SentCounted(cfg, w.wire, s, sub, answer);
    EmitKeeps(cfg, w, s, AfterSend(cfg, sub, answer), Request(s, sub.plan.prepared));
  }

  lemma ReconcileKeeps(cfg: Config, w: World, s: nat, pc: Pc)
    requires Inv(cfg, w) && s in w.submitters && w.submitters[s].pc.Reconciling?
    requires pc.Rejected? || (pc.Verified? && pc.executionId == w.submitters[s].pc.executionId)
    ensures Inv(cfg, Put(w, s, w.submitters[s].(pc := pc)))
  {
    hide TablesOk, AllJustified, OneCreator, Requests, Calls;
    var sub := w.submitters[s];
    assert Tied(cfg, w.tables, sub);
    PutKeeps(cfg, w, s, sub.(pc := pc));
  }

  lemma ConfirmKeeps(cfg: Config, w: World, s: nat, e: Evidence)
    requires Inv(cfg, w) && s in w.submitters && w.submitters[s].pc.Reconciling?
    requires Confirms(cfg, w.submitters[s].pc.executionId, e)
    ensures Inv(cfg, Put(w, s, AfterConfirm(cfg, w.submitters[s], e)))
  {
    hide Inv, R.Reconcile, R.ReadReceipt, RequestIdOf;
    var pc := w.submitters[s].pc;
    var receipt := R.ReadReceipt(e.node.receipt).fields;
    match RequestIdOf(cfg, w.submitters[s].plan, receipt)
    case Err(_) => StopKeeps(cfg, w, s, Stopped);
    case Ok(requestId) =>
      if pc.recorded {
        StopKeeps(cfg, w, s, Finished);
      } else {
        ReconcileKeeps(cfg, w, s, Verified(pc.executionId, receipt.transactionHash, requestId));
      }
  }

  /** Records of a success survive any growth of the store. */
  lemma SuccessGrows(cfg: Config, t: Tables, t': Tables, a: string)
    requires Grows(t, t') && a in t.executions && t.executions[a].economicSuccess && SuccessOk(cfg, t, a)
    ensures SuccessOk(cfg, t', a)
  {
    var e := t.executions[a];
    var r :| r in t.receipts && t.receipts[r].execution == a && t.receipts[r].verified;
    assert t'.receipts[r] == t.receipts[r];
    if e.purpose.callId.OLAS_REQUEST? {
      var q :| q in t.requests && t.requests[q].intentMechId == cfg.mechRow(e.intentId, e.purpose.mech);
      assert t'.requests[q] == t.requests[q];
    }
  }

  lemma TablesKept(cfg: Config, t: Tables, t': Tables, row: string)
    requires TablesOk(cfg, t) && Consistent(t') && Touches(t, t', row) && row in t.executions
    requires t'.executions.Keys == t.executions.Keys
    requires t'.executions[row].economicSuccess ==> t.executions[row].economicSuccess || SuccessOk(cfg, t', row)
    ensures TablesOk(cfg, t')
  {
    hide Consistent, SuccessOk, RowKept;
    forall a | a in t'.executions ensures Rooted(cfg, t'.executions[a]) {
      assert Rooted(cfg, t.executions[a]);
      RootedKept(cfg, t, t', a);
    }
    forall a | a in t'.executions && t'.executions[a].economicSuccess ensures SuccessOk(cfg, t', a) {
      if t.executions[a].economicSuccess {
        SuccessGrows(cfg, t, t', a);
      }
    }
  }

  lemma RootedKept(cfg: Config, t: Tables, t': Tables, a: string)
    requires Grows(t, t') && a in t.executions && Rooted(cfg, t.executions[a])
    ensures Rooted(cfg, t'.executions[a])
  {
  }

  lemma UpdateTouches(cfg: Config, t: Tables, row: string, e: Execution)
    requires TablesOk(cfg, t) && row in t.executions && RowKept(t.executions[row], e) && Update(t, row, e).Ok?
    requires e.economicSuccess == t.executions[row].economicSuccess
    ensures var t' := Update(t, row, e).value; TablesOk(cfg, t') && Touches(t, t', row)
  {
    hide Rooted, SuccessOk, Consistent;
    UpdateKeeps(t, row, e);
    TablesKept(cfg, t, Update(t, row, e).value, row);
  }

  /** An update of a submitter's row, committed with the submitter's next program counter. */
  lemma UpdateCommits(cfg: Config, w: World, s: nat, e: Execution, pc: Pc)
    requires Inv(cfg, w) && s in w.submitters && w.submitters[s].row.Some? && w.submitters[s].row.value in w.tables.executions
    requires var sub := w.submitters[s];
      var before := w.tables.executions[sub.row.value];
      && RowKept(before, e) && e.economicSuccess == before.economicSuccess && (sub.created || before.executionId.Some?)
      && Update(w.tables, sub.row.value, e).Ok?
      && Tied(cfg, Update(w.tables, sub.row.value, e).value, sub.(pc := pc))
    requires pc.Reconciling? || pc.Stopped?
    ensures var t := Update(w.tables, w.submitters[s].row.value, e).value;
      Inv(cfg, Commit(w, s, w.submitters[s].(pc := pc), t)) && Grows(w.tables, t)
  {
    hide Inv, TablesOk, Tied, Counted, Update, Grows, RowKept;
    var sub := w.submitters[s];
    SubmitterFacts(cfg, w, s);
    UpdateTouches(cfg, w.tables, sub.row.value, e);
    if sub.created {
      CountedLater(cfg, w.wire, sub, pc);
    }
    CommitKeeps(cfg, w, s, sub.(pc := pc), Update(w.tables, sub.row.value, e).value);
  }

  lemma AttachStep(cfg: Config, w: World, s: nat)
    requires s in w.submitters && w.submitters[s].pc.Answered? && w.submitters[s].row.Some?
    ensures var sub := w.submitters[s];
      Step(cfg, w, Attach(s)) == Settle(w, s, AttachExecution(w.tables, sub.row.value, sub.pc.executionId),
                                        Reconciling(sub.pc.executionId, false))
  {
    hide AttachExecution, Settle;
  }

  lemma MarkStep(cfg: Config, w: World, s: nat)
    requires s in w.submitters && w.submitters[s].pc.Rejected? && w.submitters[s].row.Some?
    ensures var sub := w.submitters[s];
      Step(cfg, w, Mark(s)) == Settle(w, s, MarkStatus(w.tables, sub.row.value, Classified(sub.pc.verdict)), Stopped)
  {
    hide MarkStatus, Settle;
  }

  lemma AttachTied(cfg: Config, t: Tables, sub: Submitter)
    requires Tied(cfg, t, sub) && sub.pc.Answered?
    ensures sub.row.Some? && sub.row.value in t.executions && sub.created && t.executions[sub.row.value].executionId.None?
    ensures var id := sub.pc.executionId;
      var e := t.executions[sub.row.value].(executionId := Some(id), status := Broadcast);
      Tied(cfg, t.(executions := t.executions[sub.row.value := e]), sub.(pc := Reconciling(id, false)))
  {
  }

  lemma MarkTied(cfg: Config, t: Tables, sub: Submitter)
    requires Tied(cfg, t, sub) && sub.pc.Rejected?
    ensures sub.row.Some? && sub.row.value in t.executions && t.executions[sub.row.value].executionId.Some?
    ensures var e := t.executions[sub.row.value].(status := Classified(sub.pc.verdict));
      Tied(cfg, t.(executions := t.executions[sub.row.value := e]), sub.(pc := Stopped))
  {
  }

  lemma AttachKeeps(cfg: Config, w: World, s: nat)
    requires Inv(cfg, w) && s in w.submitters && w.submitters[s].pc.Answered?
    ensures var w' := Step(cfg, w, Attach(s)); Inv(cfg, w') && Grows(w.tables, w'.tables)
  {
    hide Inv, Step, TablesOk, Tied, Counted, ExecutionsOk;
    var sub := w.submitters[s];
    SubmitterFacts(cfg, w, s);
    AttachTied(cfg, w.tables, sub);
    AttachStep(cfg, w, s);
    var row, id := sub.row.value, sub.pc.executionId;
    var e := w.tables.executions[row].(executionId := Some(id), status := Broadcast);
    if Update(w.tables, row, e).Ok? {
      UpdateCommits(cfg, w, s, e, Reconciling(id, false));
    } else {
      StopKeeps(cfg, w, s, Stopped);
    }
  }

  lemma MarkKeeps(cfg: Config, w: World, s: nat)
    requires Inv(cfg, w) && s in w.submitters && w.submitters[s].pc.Rejected?
    ensures var w' := Step(cfg, w, Mark(s)); Inv(cfg, w') && Grows(w.tables, w'.tables)
  {
    hide Inv, Step, TablesOk, Tied, Counted, ExecutionsOk;
    var sub := w.submitters[s];
    SubmitterFacts(cfg, w, s);
    MarkTied(cfg, w.tables, sub);
    MarkStep(cfg, w, s);
    var e := w.tables.executions[sub.row.value].(status := Classified(sub.pc.verdict));
    if Update(w.tables, sub.row.value, e).Ok? {
      UpdateCommits(cfg, w, s, e, Stopped);
    } else {
      StopKeeps(cfg, w, s, Stopped);
    }
  }

  lemma RecordedTables(cfg: Config, t: Tables, sub: Submitter, receiptId: string, requestRow: string)
    requires TablesOk(cfg, t) && Tied(cfg, t, sub) && sub.pc.Verified?
    requires RecordSuccess(t, SuccessOf(cfg, sub, receiptId, requestRow)).Ok?
    ensures var t' := RecordSuccess(t, SuccessOf(cfg, sub, receiptId, requestRow)).value;
      TablesOk(cfg, t') && Touches(t, t', sub.row.value)
  {
    hide Rooted, RecordSuccess, Consistent, HasVerifiedReceipt;
    var x := SuccessOf(cfg, sub, receiptId, requestRow);
    RecordSuccessKeeps(t, x);
    var t' := RecordSuccess(t, x).value;
    if x.request.Some? {
      RequestHasRow(t', x.request.value.1);
    }
    assert SuccessOk(cfg, t', x.row);
    TablesKept(cfg, t, t', x.row);
  }

  lemma RequestHasRow(t: Tables, r: OlasRow)
    requires HasRequest(t.requests, r.intentMechId, r.requestId)
    ensures HasRequestRow(t, r.intentMechId)
  {
  }

  lemma RecordStep(cfg: Config, w: World, s: nat, receiptId: string, requestRow: string)
    requires s in w.submitters && w.submitters[s].pc.Verified? && w.submitters[s].row.Some?
    ensures Step(cfg, w, Record(s, receiptId, requestRow)) ==
              Settle(w, s, RecordSuccess(w.tables, SuccessOf(cfg, w.submitters[s], receiptId, requestRow)), Finished)
  {
    hide RecordSuccess, Settle;
  }

  lemma RecordTied(cfg: Config, t: Tables, t': Tables, sub: Submitter)
    requires Tied(cfg, t, sub) && sub.pc.Verified? && sub.row.Some? && Touches(t, t', sub.row.value)
    ensures sub.row.value in t.executions && t.executions[sub.row.value].executionId.Some?
    ensures Tied(cfg, t', sub.(pc := Finished))
  {
  }

  lemma RecordKeeps(cfg: Config, w: World, s: nat, receiptId: string, requestRow: string)
    requires Inv(cfg, w) && s in w.submitters && w.submitters[s].pc.Verified?
    ensures var w' := Step(cfg, w, Record(s, receiptId, requestRow)); Inv(cfg, w') && Grows(w.tables, w'.tables)
  {
    hide Inv, Step, TablesOk, Counted, RecordSuccess;
    var sub := w.submitters[s];
    SubmitterFacts(cfg, w, s);
    RecordStep(cfg, w, s, receiptId, requestRow);
    var r := RecordSuccess(w.tables, SuccessOf(cfg, sub, receiptId, requestRow));
    if r.Ok? {
      RecordedTables(cfg, w.tables, sub, receiptId, requestRow);
      RecordTied(cfg, w.tables, r.value, sub);
      if sub.created {
        CountedLater(cfg, w.wire, sub, Finished);
      }
      CommitKeeps(cfg, w, s, sub.(pc := Finished), r.value);
    } else {
      StopKeeps(cfg, w, s, Stopped);
    }
  }

  /** Every step keeps the invariants and only adds to the store. */
  lemma StepKeeps(cfg: Config, w: World, e: Event)
    requires KeyBinds(cfg) && Inv(cfg, w)
    ensures Inv(cfg, Step(cfg, w, e)) && Grows(w.tables, Step(cfg, w, e).tables)
  {
    hide Inv, AfterReserve, Settle, AfterConfirm, Confirms;
    if e.Start? {
      if e.s !in w.submitters && cfg.legit(e.plan) {
        StartKeeps(cfg, w, e.s, e.plan);
      }
    } else if e.s in w.submitters {
      var pc := w.submitters[e.s].pc;
      match e
      case Simulate(s, approved) => if pc.Ready? { SimulateKeeps(cfg, w, s, approved); }
      case ReserveRow(s, id) => if pc.Approved? { ReserveStepKeeps(cfg, w, s, id); }
      case PauseCheck(s, paused) => if pc.Reserved? { PauseCheckKeeps(cfg, w, s, paused); }
      case Invoke(s) => if pc.Calling? { InvokeKeeps(cfg, w, s); }
      case Send(s, answer) => if pc.Sending? { SendKeeps(cfg, w, s, answer); }
      case Attach(s) => if pc.Answered? { AttachKeeps(cfg, w, s); }
      case Confirm(s, evidence) =>
        if pc.Reconciling? && Confirms(cfg, pc.executionId, evidence) { ConfirmKeeps(cfg, w, s, evidence); }
      case Reject(s, verdict) => if pc.Reconciling? { ReconcileKeeps(cfg, w, s, Rejected(verdict)); }
      case Record(s, receiptId, requestRow) => if pc.Verified? { RecordKeeps(cfg, w, s, receiptId, requestRow); }
      case Mark(s) => if pc.Rejected? { MarkKeeps(cfg, w, s); }
      case Crash(s) => StopKeeps(cfg, w, s, Stopped);
    }
  }

  lemma {:induction false} RunKeeps(cfg: Config, w: World, events: seq<Event>)
    requires KeyBinds(cfg) && Inv(cfg, w)
    ensures Inv(cfg, Run(cfg, w, events)) && Grows(w.tables, Run(cfg, w, events).tables)
    decreases |events|
  {
    hide Inv, Step, KeyBinds;
    if events != [] {
      var w' := Step(cfg, w, events[0]);
      StepKeeps(cfg, w, events[0]);
      RunKeeps(cfg, w', events[1..]);
      GrowsTransitive(w.tables, w'.tables, Run(cfg, w, events).tables);
    }
  }

  lemma Reachable(cfg: Config, events: seq<Event>)
    requires KeyBinds(cfg)
    ensures Inv(cfg, Run(cfg, INITIAL, events))
  {
    hide Step, Run;
    RunKeeps(cfg, INITIAL, events);
  }

  // Results over every run

  /** Over every interleaving, with replays and crashes anywhere: at most one broadcast call per key, and
      its requests stay within the retry limit. */
  lemma AtMostOneBroadcast(cfg: Config, events: seq<Event>, key: string)
    requires KeyBinds(cfg)
    ensures var wire := Run(cfg, INITIAL, events).wire;
      && Calls(wire, key) <= 1
      && Requests(wire, key) <= cfg.maxRetries + 1
      && (Requests(wire, key) > 0 ==> Calls(wire, key) == 1)
  {
    hide Run, TablesOk, AllTied, AllJustified;
    Reachable(cfg, events);
    var w := Run(cfg, INITIAL, events);
    if HasCreator(w.submitters, key) {
      var s :| s in w.submitters && w.submitters[s].created && KeyOf(w.submitters[s]) == key;
      assert Counted(cfg, w.wire, w.submitters[s]);
    }
  }

  /** Every call and request carries a payload whose simulation was approved earlier, and the reservation
      of its key stores that simulation's hash. */
  lemma BroadcastsAreApproved(cfg: Config, events: seq<Event>, n: nat)
    requires KeyBinds(cfg) && n < |Run(cfg, INITIAL, events).wire|
    requires !Run(cfg, INITIAL, events).wire[n].Simulation?
    ensures var w := Run(cfg, INITIAL, events);
      var p := w.wire[n].prepared;
      && (exists i | 0 <= i < n :: w.wire[i] == Simulation(w.wire[n].who, p.payloadHash, true))
      && (exists row | row in w.tables.executions ::
            w.tables.executions[row].idempotencyKey == p.idempotencyKey
            && w.tables.executions[row].simulationHash == p.payloadHash)
  {
    hide Run, TablesOk, AllCounted, OneCreator;
    Reachable(cfg, events);
    var w := Run(cfg, INITIAL, events);
    assert Justified(w.wire, n, w.submitters);
    assert Tied(cfg, w.tables, w.submitters[w.wire[n].who]);
  }

  /** Whatever is sent under one key is one payload from one submitter. */
  lemma SameKeySameRequest(cfg: Config, events: seq<Event>, m: nat, n: nat)
    requires KeyBinds(cfg) && m < |Run(cfg, INITIAL, events).wire| && n < |Run(cfg, INITIAL, events).wire|
    requires var wire := Run(cfg, INITIAL, events).wire;
      !wire[m].Simulation? && !wire[n].Simulation? && wire[m].prepared.idempotencyKey == wire[n].prepared.idempotencyKey
    ensures var wire := Run(cfg, INITIAL, events).wire;
      wire[m].prepared == wire[n].prepared && wire[m].who == wire[n].who
  {
    hide Run, TablesOk, AllCounted, AllTied;
    Reachable(cfg, events);
    var w := Run(cfg, INITIAL, events);
    assert Justified(w.wire, m, w.submitters) && Justified(w.wire, n, w.submitters);
  }

  /** A recorded success is completed, has its execution id and exactly one receipt, which is verified; it is the
      only success of its intent and purpose; and a request purpose has exactly one request row of its Mech. */
  lemma SuccessRows(cfg: Config, events: seq<Event>, row: string)
    requires KeyBinds(cfg) && row in Run(cfg, INITIAL, events).tables.executions
    requires Run(cfg, INITIAL, events).tables.executions[row].economicSuccess
    ensures var t := Run(cfg, INITIAL, events).tables;
      var e := t.executions[row];
      && e.status == Completed && e.executionId.Some?
      && (exists a | a in t.receipts :: t.receipts[a].execution == row && t.receipts[a].verified)
      && (forall a, b | a in t.receipts && b in t.receipts && t.receipts[a].execution == t.receipts[b].execution == row ::
            a == b)
      && (forall other | other in t.executions && t.executions[other].economicSuccess ::
            t.executions[other].intentId == e.intentId && t.executions[other].purpose == e.purpose ==> other == row)
      && (e.purpose.callId.OLAS_REQUEST? ==>
            var mech := cfg.mechRow(e.intentId, e.purpose.mech);
            && (exists a | a in t.requests :: t.requests[a].intentMechId == mech)
            && (forall a, b | a in t.requests && b in t.requests
                  && t.requests[a].intentMechId == t.requests[b].intentMechId == mech :: a == b))
  {
    hide Run, AllTied, AllJustified, AllCounted, OneCreator, Rooted;
    Reachable(cfg, events);
    var t := Run(cfg, INITIAL, events).tables;
    assert SuccessOk(cfg, t, row);
    var e := t.executions[row];
    forall other | other in t.executions && t.executions[other].economicSuccess
      && t.executions[other].intentId == e.intentId && t.executions[other].purpose == e.purpose
      ensures other == row
    {
      assert other != row ==> Apart(t.executions[other], e);
    }
  }

  lemma {:induction false} RunSplit(cfg: Config, w: World, events: seq<Event>, more: seq<Event>)
    ensures Run(cfg, w, events + more) == Run(cfg, Run(cfg, w, events), more)
    decreases |events|
  {
    hide Step;
    if events == [] {
      assert events + more == more;
    } else {
      RunSplit(cfg, Step(cfg, w, events[0]), events[1..], more);
      assert (events + more)[1..] == events[1..] + more;
    }
  }

  lemma RunExtends(cfg: Config, w: World, events: seq<Event>, e: Event)
    ensures Run(cfg, w, events + [e]) == Step(cfg, Run(cfg, w, events), e)
  {
    hide Step;
    RunSplit(cfg, w, events, [e]);
    assert [e][1..] == [];
    assert Run(cfg, Run(cfg, w, events), [e]) == Run(cfg, Step(cfg, Run(cfg, w, events), e), []);
  }

  /** However a run goes on, rows keep their identity, an attached execution id never changes and no success
      is taken back. */
  lemma StoreOnlyGrows(cfg: Config, events: seq<Event>, more: seq<Event>)
    requires KeyBinds(cfg)
    ensures Grows(Run(cfg, INITIAL, events).tables, Run(cfg, INITIAL, events + more).tables)
  {
    hide Run, Inv, Grows;
    Reachable(cfg, events);
    RunSplit(cfg, INITIAL, events, more);
    RunKeeps(cfg, Run(cfg, INITIAL, events), more);
  }

  // A submitter that stops between its reservation and its attachment leaves the key unusable

  /** The creator of a row stopped before an execution id was attached: a broadcast may or may not have happened. */
  predicate Ambiguous(w: World, s: nat) {
    && s in w.submitters && w.submitters[s].created && w.submitters[s].pc.Stopped?
    && w.submitters[s].row.Some? && w.submitters[s].row.value in w.tables.executions
    && w.tables.executions[w.submitters[s].row.value].executionId.None?
  }

  /** Nothing about the ambiguous key changed: its row, its calls and its requests. */
  ghost predicate Untouched(w: World, w': World, s: nat)
    requires Ambiguous(w, s)
  {
    var row, key := w.submitters[s].row.value, KeyOf(w.submitters[s]);
    && Ambiguous(w', s) && w'.submitters[s] == w.submitters[s]
    && w'.tables.executions[row] == w.tables.executions[row]
    && Requests(w'.wire, key) == Requests(w.wire, key) && Calls(w'.wire, key) == Calls(w.wire, key)
  }

  lemma OtherRow(cfg: Config, w: World, s: nat, r: nat)
    requires Inv(cfg, w) && Ambiguous(w, s) && r in w.submitters && r != s
    requires w.submitters[r].created || w.submitters[r].pc.Verified? || w.submitters[r].pc.Rejected?
    ensures w.submitters[r].row.Some? && w.submitters[r].row != w.submitters[s].row
    ensures w.submitters[r].created ==> KeyOf(w.submitters[r]) != KeyOf(w.submitters[s])
  {
    hide TablesOk, AllCounted, AllJustified;
    assert Tied(cfg, w.tables, w.submitters[r]);
    if w.submitters[r].created {
      CreatorsApart(cfg, w.tables, w.submitters, s, r);
    }
  }

  lemma EmitUntouched(cfg: Config, w: World, s: nat, r: nat, sub: Submitter, e: Wire)
    requires Inv(cfg, w) && Ambiguous(w, s) && r in w.submitters && r != s && w.submitters[r].created
    requires e.Simulation? || e.prepared.idempotencyKey == KeyOf(w.submitters[r])
    ensures Untouched(w, Emit(w, r, sub, e), s)
  {
    hide Inv, Requests, Calls;
    OtherRow(cfg, w, s, r);
    CountsOfEmit(w.wire, e, KeyOf(w.submitters[s]));
  }

  lemma SettleUntouched(cfg: Config, w: World, s: nat, r: nat, result: Stored<Tables>, next: Pc)
    requires Inv(cfg, w) && Ambiguous(w, s) && r in w.submitters && r != s
    requires w.submitters[r].created || w.submitters[r].pc.Verified? || w.submitters[r].pc.Rejected?
    requires result.Ok? && w.submitters[r].row.Some? ==>
               forall a | a in w.tables.executions && a != w.submitters[r].row.value ::
                 a in result.value.executions && result.value.executions[a] == w.tables.executions[a]
    ensures Untouched(w, Settle(w, r, result, next), s)
  {
    hide Inv, Requests, Calls;
    OtherRow(cfg, w, s, r);
  }

  lemma RecordTouchesRow(cfg: Config, w: World, r: nat, receiptId: string, requestRow: string)
    requires Inv(cfg, w) && r in w.submitters && w.submitters[r].pc.Verified?
    ensures w.submitters[r].row.Some?
    ensures var result := RecordSuccess(w.tables, SuccessOf(cfg, w.submitters[r], receiptId, requestRow));
      result.Ok? ==> forall a | a in w.tables.executions && a != w.submitters[r].row.value ::
        a in result.value.executions && result.value.executions[a] == w.tables.executions[a]
  {
    hide TablesOk, AllCounted, AllJustified, OneCreator, RecordSuccess;
    assert Tied(cfg, w.tables, w.submitters[r]);
    if RecordSuccess(w.tables, SuccessOf(cfg, w.submitters[r], receiptId, requestRow)).Ok? {
      RecordedTables(cfg, w.tables, w.submitters[r], receiptId, requestRow);
    }
  }

  lemma SubmitterIsTied(cfg: Config, w: World, r: nat)
    requires Inv(cfg, w) && r in w.submitters
    ensures Tied(cfg, w.tables, w.submitters[r])
  {
  }

  lemma OthersUntouched(cfg: Config, w: World, s: nat, e: Event)
    requires Inv(cfg, w) && Ambiguous(w, s) && e.s in w.submitters && e.s != s
    requires !e.Start? && !e.Simulate?
    ensures Untouched(w, Step(cfg, w, e), s)
  {
    hide Inv, Requests, Calls, RecordSuccess, ExecutionsOk, HasExecutionKey, AfterConfirm, Confirms;
    var r := e.s;
    var sub := w.submitters[r];
    SubmitterIsTied(cfg, w, r);
    match e
    case Invoke(_) => if sub.pc.Calling? {
      EmitUntouched(cfg, w, s, r, sub.(pc := Sending), BroadcastCall(r, sub.plan.prepared)); }
    case Send(_, answer) => if sub.pc.Sending? {
      EmitUntouched(cfg, w, s, r, AfterSend(cfg, sub, answer), Request(r, sub.plan.prepared)); }
    case Attach(_) => if sub.pc.Answered? {
      SettleUntouched(cfg, w, s, r, AttachExecution(w.tables, sub.row.value, sub.pc.executionId),
                      Reconciling(sub.pc.executionId, false)); }
    case Mark(_) => if sub.pc.Rejected? {
      SettleUntouched(cfg, w, s, r, MarkStatus(w.tables, sub.row.value, Classified(sub.pc.verdict)), Stopped); }
    case Record(_, receiptId, requestRow) => if sub.pc.Verified? {
      RecordTouchesRow(cfg, w, r, receiptId, requestRow);
      SettleUntouched(cfg, w, s, r, RecordSuccess(w.tables, SuccessOf(cfg, sub, receiptId, requestRow)), Finished); }
    case _ =>
  }

  lemma SimulationUntouched(cfg: Config, w: World, s: nat, e: Event)
    requires Ambiguous(w, s) && e.Simulate? && e.s != s
    ensures Untouched(w, Step(cfg, w, e), s)
  {
    hide Requests, Calls;
    if e.s in w.submitters {
      CountsOfEmit(w.wire, Simulation(e.s, w.submitters[e.s].plan.prepared.payloadHash, e.approved),
                   KeyOf(w.submitters[s]));
    }
  }

  lemma StepUntouched(cfg: Config, w: World, s: nat, e: Event)
    requires Inv(cfg, w) && Ambiguous(w, s)
    ensures Untouched(w, Step(cfg, w, e), s)
  {
    hide Inv, Requests, Calls;
    if e.Simulate? && e.s != s {
      SimulationUntouched(cfg, w, s, e);
    } else if !e.Start? && e.s in w.submitters && e.s != s {
      OthersUntouched(cfg, w, s, e);
    } else {
      assert e.Start? || e.s !in w.submitters || e.s == s;
    }
  }

  /** Nobody sends again: once ambiguous, a key's row, calls and requests stay as they are in every continuation. */
  lemma {:induction false} AmbiguousForGood(cfg: Config, w: World, s: nat, more: seq<Event>)
    requires KeyBinds(cfg) && Inv(cfg, w) && Ambiguous(w, s)
    ensures Untouched(w, Run(cfg, w, more), s)
    decreases |more|
  {
    hide Inv, Step, KeyBinds, Requests, Calls;
    if more != [] {
      StepUntouched(cfg, w, s, more[0]);
      StepKeeps(cfg, w, more[0]);
      AmbiguousForGood(cfg, Step(cfg, w, more[0]), s, more[1..]);
    }
  }
}
