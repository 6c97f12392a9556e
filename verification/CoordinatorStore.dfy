/** Intents, audit events, the outbox and the event inbox, with the repository operations on them
    (packages/database/src/repositories.ts and packages/database/src/schema.ts). */
module CoordinatorStore {
  import opened Results
  import opened IntentStates
  import opened MessageKeys

  datatype Status = Pending | Dispatching | Published | Dead

  /** `origin` says why the row exists; the stored message key is its text. */
  datatype Message = Message(origin: Origin, topic: Topic, intentId: string, state: State, stateVersion: nat,
                             stateEnteredAt: int, traceId: string, status: Status, attempts: nat, availableAt: int, createdAt: int,
                             lockedAt: Option<int>, lockedBy: Option<string>)

  datatype Db = Db(intents: map<string, Intent>, audit: seq<Transition>, outbox: map<string, Message>,
                   inbox: set<(string, string)>)

  datatype StoreError = PersistenceConflict | ConstraintViolation

  type Stored<T> = Result<T, StoreError>

  // Intents

  /** The unique index on terminal transitions. */
  predicate TerminalRecorded(audit: seq<Transition>, intentId: string, version: nat) {
    exists k | 0 <= k < |audit| ::
      audit[k].intentId == intentId && audit[k].toVersion == version && IsTerminal(audit[k].to)
  }

  /** Compare-and-swap on state and version, with the audit event in the same transaction. */
  function ApplyTransition(db: Db, t: Transition): Stored<Db> {
    if t.intentId !in db.intents then Err(PersistenceConflict)
    else
      var i := db.intents[t.intentId];
      if i.state != t.from || i.stateVersion != t.fromVersion then Err(PersistenceConflict)
      else if IsTerminal(t.to) && TerminalRecorded(db.audit, t.intentId, t.toVersion) then Err(ConstraintViolation)
      else
        var next := i.(state := t.to, stateVersion := t.toVersion, updatedAt := t.occurredAt);
        Ok(db.(intents := db.intents[t.intentId := next], audit := db.audit + [t]))
  }

  // Outbox

  predicate HasMessageKey(outbox: map<string, Message>, key: string) {
    exists a | a in outbox :: KeyText(outbox[a].origin) == key
  }

  /** `insert … on conflict (message_key) do nothing`; the flag says whether a row was created. */
  function Enqueue(db: Db, id: string, m: Message): Stored<(Db, bool)> {
    if HasMessageKey(db.outbox, KeyText(m.origin)) then Ok((db, false))
    else if id in db.outbox then Err(ConstraintViolation)
    else Ok((db.(outbox := db.outbox[id := m]), true))
  }

  /** When a new message is due, and the database's time at its insertion. */
  datatype Times = Times(availableAt: int, createdAt: int)

  function Fresh(o: Origin, topic: Topic, intentId: string, state: State, version: nat, enteredAt: int,
                 traceId: string, at: Times): Message {
    Message(o, topic, intentId, state, version, enteredAt, traceId, Pending, 0, at.availableAt, at.createdAt, None, None)
  }

  /** The message that `advanceIntent` puts beside a transition. */
  function AdvanceMessage(t: Transition, next: Topic, at: Times): Message {
    Fresh(Advanced(t.intentId, next, t.toVersion), next, t.intentId, t.to, t.toVersion, t.occurredAt, t.traceId, at)
  }

  function ApplyTransitionWithOutbox(db: Db, t: Transition, outboxId: string, next: Topic, at: Times): Stored<Db> {
    var moved :- ApplyTransition(db, t);
    var enqueued :- Enqueue(moved, outboxId, AdvanceMessage(t, next, at));
    Ok(enqueued.0)
  }

  lemma AppliedPresent(db: Db, t: Transition, outboxId: string, next: Topic, at: Times)
    requires ApplyTransitionWithOutbox(db, t, outboxId, next, at).Ok?
    ensures t.intentId in ApplyTransitionWithOutbox(db, t, outboxId, next, at).value.intents
  {
  }

  /** The row a reconciler asks for, for the intent it holds locked. */
  function ReconcileMessage(i: Intent, traceId: string, now: int): Message {
    Fresh(Reconciled(i.id, i.stateVersion), Reconcile, i.id, i.state, i.stateVersion, i.updatedAt, traceId, Times(now, now))
  }

  predicate Claimable(m: Message, now: int, leaseExpiresBefore: int) {
    || (m.status.Pending? && m.availableAt <= now)
    || (m.status.Dispatching? && m.lockedAt.Some? && m.lockedAt.value < leaseExpiresBefore)
  }

  /** The order of a claim: due first, and of those due at the same time the older first. */
  predicate NoLater(m: Message, n: Message) {
    m.availableAt < n.availableAt || (m.availableAt == n.availableAt && m.createdAt <= n.createdAt)
  }

  function Claimed(m: Message, worker: string, now: int): Message {
    m.(status := Dispatching, attempts := m.attempts + 1, lockedAt := Some(now), lockedBy := Some(worker))
  }

  function Claim(db: Db, id: string, worker: string, now: int, leaseExpiresBefore: int): Stored<Db> {
    if id in db.outbox && Claimable(db.outbox[id], now, leaseExpiresBefore) then
      Ok(db.(outbox := db.outbox[id := Claimed(db.outbox[id], worker, now)]))
    else Err(PersistenceConflict)
  }

  function MarkPublished(db: Db, id: string): Stored<Db> {
    if id in db.outbox && db.outbox[id].status.Dispatching? then
      Ok(db.(outbox := db.outbox[id := db.outbox[id].(status := Published, lockedAt := None, lockedBy := None)]))
    else Err(PersistenceConflict)
  }

  /** A retry of a message that is not leased updates nothing and does not fail. */
  function MarkRetry(db: Db, id: string, availableAt: int, maxAttempts: nat): Db {
    if id in db.outbox && db.outbox[id].status.Dispatching? then
      var m := db.outbox[id];
      db.(outbox := db.outbox[id := m.(status := if m.attempts >= maxAttempts then Dead else Pending,
                                       availableAt := availableAt, lockedAt := None, lockedBy := None)])
    else db
  }

  predicate LeaseExpired(m: Message, leaseExpiresBefore: int) {
    m.status.Dispatching? && m.lockedAt.Some? && m.lockedAt.value < leaseExpiresBefore
  }

  function Released(m: Message): Message {
    m.(status := Pending, lockedAt := None, lockedBy := None)
  }

  function Requeue(db: Db, id: string, leaseExpiresBefore: int): Db {
    if id in db.outbox && LeaseExpired(db.outbox[id], leaseExpiresBefore) then
      db.(outbox := db.outbox[id := Released(db.outbox[id])])
    else db
  }

  function RequeueExpired(db: Db, leaseExpiresBefore: int): Db {
    db.(outbox := map a | a in db.outbox ::
          if LeaseExpired(db.outbox[a], leaseExpiresBefore) then Released(db.outbox[a]) else db.outbox[a])
  }

  // Inbox

  datatype Job = Job(outboxId: string, topic: Topic, intentId: string, state: State, stateVersion: nat,
                     stateEnteredAt: int, traceId: string)

  /** `ingestEvent`: a replayed event changes nothing; a new one is recorded, and its message enqueued unless the
      message's key is taken. */
  function Ingest(db: Db, source: string, eventKey: string, job: Option<Job>, now: int): Stored<(Db, bool)> {
    if (source, eventKey) in db.inbox then Ok((db, false))
    else
      var accepted := db.(inbox := db.inbox + {(source, eventKey)});
      match job
      case None => Ok((accepted, true))
      case Some(j) =>
        var enqueued :- Enqueue(accepted, j.outboxId, Fresh(External(source, eventKey), j.topic, j.intentId, j.state,
                                                            j.stateVersion, j.stateEnteredAt, j.traceId, Times(now, now)));
        Ok((enqueued.0, true))
  }

  /** `outboxRecordToJob` */
  function JobOf(id: string, m: Message): Job {
    Job(id, m.topic, m.intentId, m.state, m.stateVersion, m.stateEnteredAt, m.traceId)
  }

  // Laws of the outbox

  ghost predicate KeysUnique(outbox: map<string, Message>) {
    forall a, b | a in outbox && b in outbox && a != b :: KeyText(outbox[a].origin) != KeyText(outbox[b].origin)
  }

  /** The intent's version has its reconcile row. */
  predicate Reconciles(outbox: map<string, Message>, i: Intent) {
    exists a | a in outbox :: outbox[a].origin == Reconciled(i.id, i.stateVersion)
  }

  lemma KeyTaken(outbox: map<string, Message>, i: Intent)
    ensures HasMessageKey(outbox, KeyText(Reconciled(i.id, i.stateVersion))) <==> Reconciles(outbox, i)
  {
    hide KeyText;
    var o := Reconciled(i.id, i.stateVersion);
    if HasMessageKey(outbox, KeyText(o)) {
      var a :| a in outbox && KeyText(outbox[a].origin) == KeyText(o);
      SameKeySameOrigin(outbox[a].origin, o);
    }
  }

  /** Reconciliation of a version creates a row exactly when none was created for that version before,
      whatever else the outbox holds. */
  lemma ReconcileCreatesOnce(db: Db, id: string, i: Intent, traceId: string, now: int)
    requires id !in db.outbox
    ensures Enqueue(db, id, ReconcileMessage(i, traceId, now)).Ok?
    ensures Enqueue(db, id, ReconcileMessage(i, traceId, now)).value.1 <==> !Reconciles(db.outbox, i)
  {
    hide KeyText, Reconciles;
    KeyTaken(db.outbox, i);
  }

  lemma SameKeySameOrigin(p: Origin, o: Origin)
    requires !o.External? && KeyText(p) == KeyText(o)
    ensures p == o
  {
    if p.External? {
      EventKeysApart(p, o);
    } else {
      KeyInjective(p, o);
    }
  }

  // Laws of the inbox

  predicate HasOrigin(outbox: map<string, Message>, o: Origin) {
    exists a | a in outbox :: outbox[a].origin == o
  }

  /** The message that ingesting creates: one that was not there before. */
  predicate GainsOrigin(outbox: map<string, Message>, outbox': map<string, Message>, o: Origin) {
    exists a | a in outbox' && a !in outbox :: outbox'[a].origin == o
  }

  /** A new event is always recorded. It gains its message exactly when the message's key is free; when the key is
      taken, the event is accepted and the outbox stays as it is. */
  lemma IngestGainsIff(db: Db, source: string, key: string, j: Job, now: int)
    requires (source, key) !in db.inbox && Ingest(db, source, key, Some(j), now).Ok?
    ensures var (db', accepted) := Ingest(db, source, key, Some(j), now).value;
      && accepted && db'.inbox == db.inbox + {(source, key)}
      && (GainsOrigin(db.outbox, db'.outbox, External(source, key)) <==>
          !HasMessageKey(db.outbox, KeyText(External(source, key))))
      && (HasMessageKey(db.outbox, KeyText(External(source, key))) <==> db'.outbox == db.outbox)
  {
    hide KeyText;
    var db' := Ingest(db, source, key, Some(j), now).value.0;
    if !HasMessageKey(db.outbox, KeyText(External(source, key))) {
      assert db'.outbox[j.outboxId].origin == External(source, key);
      assert j.outboxId in db'.outbox;
    }
  }
}
