/** The durable coordinator as one transition system (apps/worker/src/coordinator.ts): writers with stale reads,
    publishers that crash between claim, publish and mark, lease expiry, reconcilers and redelivered jobs. */
module Coordinator {
  import opened Results
  import opened IntentStates
  import opened MessageKeys
  import opened CoordinatorStore

  datatype Config = Config(hash: Intent -> string, maxAttempts: nat)

  datatype Stage = Holding | Added | Over

  /** A claimed message in the hands of a publisher. */
  datatype Task = Task(message: string, stage: Stage)

  /** Besides the database and the queue (jobs ever added, by job id) the world remembers every intent row that was
      ever stored, the rows intents started from, every claim, and every advance that was committed. */
  datatype World = World(db: Db, jobs: map<string, Job>, tasks: seq<Task>,
                         seen: set<Intent>, starts: map<string, Intent>, claims: seq<string>, advances: set<Origin>)

  datatype Event =
    | Create(intent: Intent)
    | AdvanceIntent(read: Intent, command: Command, outboxId: string, next: Topic, at: Times)
    | IngestEvent(source: string, eventKey: string, job: Option<Job>, now: int)
    | ClaimMessage(id: string, worker: string, now: int, leaseExpiresBefore: int)
    | AddJob(task: nat)
    | Publish(task: nat)
    | Retry(task: nat, availableAt: int)
    | CrashTask(task: nat)
    | RequeueLease(id: string, leaseExpiresBefore: int)
    | ReconcileIntent(intentId: string, version: nat, outboxId: string, traceId: string, now: int)
    | Process(jobId: string, work: seq<Write>)

  /** What a handler of the locked processor may write: advances of intents as they are stored, and ingested events. */
  datatype Write =
    | Move(intentId: string, command: Command, outboxId: string, next: Topic, at: Times)
    | Receive(source: string, eventKey: string, job: Option<Job>, now: int)

  /** `advanceIntent` with a transition computed from a row read earlier. */
  function AdvanceFrom(cfg: Config, w: World, read: Intent, c: Command, outboxId: string, next: Topic, at: Times): World {
    match TransitionIntent(cfg.hash, read, c)
    case Err(_) => w
    case Ok((_, t)) => Committed(w, t, outboxId, next, ApplyTransitionWithOutbox(w.db, t, outboxId, next, at))
  }

  function Committed(w: World, t: Transition, outboxId: string, next: Topic, r: Stored<Db>): World {
    match r
    case Err(_) => w
    case Ok(db) =>
      if t.intentId !in db.intents then w
      else w.(db := db, seen := w.seen + {db.intents[t.intentId]},
              advances := w.advances + {Advanced(t.intentId, next, t.toVersion)})
  }

  /** Publishing again under a job id that the queue has seen adds nothing. */
  function AddTo(jobs: map<string, Job>, id: string, m: Message): map<string, Job> {
    if OutboxJobId(id) in jobs then jobs else jobs[OutboxJobId(id) := JobOf(id, m)]
  }

  function StepTask(cfg: Config, w: World, e: Event): World
    requires (e.AddJob? || e.Publish? || e.Retry? || e.CrashTask?) && e.task < |w.tasks|
  {
    var t := w.tasks[e.task];
    match e
    case AddJob(k) =>
      if !t.stage.Holding? || t.message !in w.db.outbox then w
      else w.(jobs := AddTo(w.jobs, t.message, w.db.outbox[t.message]), tasks := w.tasks[k := t.(stage := Added)])
    case Publish(k) =>
      if !t.stage.Added? then w
      else
        (match MarkPublished(w.db, t.message)
         case Err(_) => w
         case Ok(db) => w.(db := db, tasks := w.tasks[k := t.(stage := Over)]))
    case Retry(k, at) =>
      if t.stage.Over? then w
      else w.(db := MarkRetry(w.db, t.message, at, cfg.maxAttempts), tasks := w.tasks[k := t.(stage := Over)])
    case CrashTask(k) => w.(tasks := w.tasks[k := t.(stage := Over)])
    case _ => w
  }

  /** The locked processor: the handler runs only when the intent still is where the job says. */
  predicate Current(w: World, j: Job) {
    j.intentId in w.db.intents && w.db.intents[j.intentId].state == j.state
    && w.db.intents[j.intentId].stateVersion == j.stateVersion
  }

  function WriteOne(cfg: Config, w: World, x: Write): Option<World> {
    match x
    case Move(id, c, outboxId, next, at) =>
      if id !in w.db.intents then None
      else
        (match TransitionIntent(cfg.hash, w.db.intents[id], c)
         case Err(_) => None
         case Ok((_, t)) =>
           if ApplyTransitionWithOutbox(w.db, t, outboxId, next, at).Err? then None
           else Some(AdvanceFrom(cfg, w, w.db.intents[id], c, outboxId, next, at)))
    case Receive(source, key, job, now) =>
      match Ingest(w.db, source, key, job, now)
      case Err(_) => None
      case Ok((db, _)) => Some(w.(db := db))
  }

  /** The writes of one handler, in one transaction: the first that fails undoes them all. */
  function WriteAll(cfg: Config, w: World, work: seq<Write>): Option<World>
    decreases |work|
  {
    if work == [] then Some(w)
    else
      match WriteOne(cfg, w, work[0])
      case None => None
      case Some(next) => WriteAll(cfg, next, work[1..])
  }

  function StepStore(cfg: Config, w: World, e: Event): World
    requires !e.AddJob? && !e.Publish? && !e.Retry? && !e.CrashTask?
  {
    match e
    case Create(i) =>
      if i.id in w.db.intents || i.state != Draft || i.stateVersion != 0 then w
      else w.(db := w.db.(intents := w.db.intents[i.id := i]), seen := w.seen + {i}, starts := w.starts[i.id := i])
    case AdvanceIntent(read, c, id, next, at) =>
      if read !in w.seen then w else AdvanceFrom(cfg, w, read, c, id, next, at)
    case IngestEvent(source, key, job, now) =>
      (match Ingest(w.db, source, key, job, now)
       case Err(_) => w
       case Ok((db, _)) => w.(db := db))
    case ClaimMessage(id, worker, now, before) =>
      (match Claim(w.db, id, worker, now, before)
       case Err(_) => w
       case Ok(db) => w.(db := db, claims := w.claims + [id], tasks := w.tasks + [Task(id, Holding)]))
    case RequeueLease(id, before) => w.(db := Requeue(w.db, id, before))
    case ReconcileIntent(id, version, outboxId, traceId, now) =>
      if id !in w.db.intents || w.db.intents[id].stateVersion != version then w
      else
        (match Enqueue(w.db, outboxId, ReconcileMessage(w.db.intents[id], traceId, now))
         case Err(_) => w
         case Ok((db, _)) => w.(db := db))
    case Process(job, work) =>
      if job !in w.jobs || !Current(w, w.jobs[job]) then w else WriteAll(cfg, w, work).GetOr(w)
    case _ => w
  }

  function Step(cfg: Config, w: World, e: Event): World {
    if e.AddJob? || e.Publish? || e.Retry? || e.CrashTask? then
      if e.task < |w.tasks| then StepTask(cfg, w, e) else w
    else StepStore(cfg, w, e)
  }

  function Run(cfg: Config, w: World, events: seq<Event>): World
    decreases |events|
  {
    if events == [] then w else Run(cfg, Step(cfg, w, events[0]), events[1..])
  }

  lemma {:induction false} RunSplit(cfg: Config, w: World, events: seq<Event>, more: seq<Event>)
    ensures Run(cfg, w, events + more) == Run(cfg, Run(cfg, w, events), more)
    decreases |events|
  {
    hide Step;
    if events == [] {
      assert events + more == more;
    } else {
      RunSplit(cfg, Step(cfg, w, events[0]), events[1..], more);
      assert (events + more)[1..] == events[1..] + more;
    }
  }

  lemma RunExtends(cfg: Config, w: World, events: seq<Event>, e: Event)
    ensures Run(cfg, w, events + [e]) == Step(cfg, Run(cfg, w, events), e)
  {
    hide Step;
    RunSplit(cfg, w, events, [e]);
    assert [e][1..] == [];
    assert Run(cfg, Run(cfg, w, events), [e]) == Run(cfg, Step(cfg, Run(cfg, w, events), e), []);
  }

  lemma RunNothing(cfg: Config, w: World)
    ensures Run(cfg, w, []) == w
  {
  }

  const INITIAL := World(Db(map[], [], map[], {}), map[], [], {}, map[], [], {})

  // History

  /** The transitions of one intent, oldest first. */
  function History(audit: seq<Transition>, id: string): seq<Transition> {
    if audit == [] then [] else
      var last := audit[|audit| - 1];
      History(audit[..|audit| - 1], id) + (if last.intentId == id then [last] else [])
  }

  lemma HistoryOfAppend(audit: seq<Transition>, t: Transition, id: string)
    ensures History(audit + [t], id) == History(audit, id) + (if t.intentId == id then [t] else [])
  {
    assert (audit + [t])[..|audit|] == audit;
  }

  /** The row after the first `k` transitions of a history. */
  function After(start: Intent, h: seq<Transition>, k: nat): Intent
    requires k <= |h|
  {
    if k == 0 then start else start.(state := h[k - 1].to, stateVersion := k, updatedAt := h[k - 1].occurredAt)
  }

  /** Transition `k` leads legally from the row before it to the row after it, in time order and hash-linked. */
  predicate Linked(cfg: Config, start: Intent, h: seq<Transition>, k: nat)
    requires k < |h|
  {
    var i, j := After(start, h, k), After(start, h, k + 1);
    && h[k].intentId == start.id
    && h[k].from == i.state && CanTransition(h[k].from, h[k].to)
    && h[k].fromVersion == k && h[k].toVersion == k + 1
    && i.updatedAt <= h[k].occurredAt
    && h[k].beforeHash == cfg.hash(i) && h[k].afterHash == cfg.hash(j)
  }

  predicate GoodHistory(cfg: Config, start: Intent, h: seq<Transition>, i: Intent) {
    && start.id == i.id && start.state == Draft && start.stateVersion == 0
    && i.stateVersion == |h| && i == After(start, h, |h|)
    && forall k | 0 <= k < |h| :: Linked(cfg, start, h, k)
  }

  /** A row read at some time is the row after the version it carries. */
  predicate WasStored(start: Intent, h: seq<Transition>, i: Intent) {
    i.stateVersion <= |h| && i == After(start, h, i.stateVersion)
  }

  /** Every intent has a good history, and there is no history without an intent. */
  predicate HistoryAt(cfg: Config, w: World, id: string) {
    if id in w.db.intents then
      && id in w.starts && w.db.intents[id].id == id
      && GoodHistory(cfg, w.starts[id], History(w.db.audit, id), w.db.intents[id])
    else History(w.db.audit, id) == []
  }

  predicate SeenAt(w: World, i: Intent) {
    i.id in w.db.intents && i.id in w.starts && WasStored(w.starts[i.id], History(w.db.audit, i.id), i)
  }

  ghost predicate HistoryOk(cfg: Config, w: World) {
    && (forall id :: HistoryAt(cfg, w, id))
    && (forall i | i in w.seen :: SeenAt(w, i))
    && (forall id | id in w.db.intents :: w.db.intents[id] in w.seen)
  }

  // Outbox

  function Claims(claims: seq<string>, id: string): nat {
    if claims == [] then 0 else Claims(claims[..|claims| - 1], id) + (if claims[|claims| - 1] == id then 1 else 0)
  }

  lemma ClaimsOfAppend(claims: seq<string>, c: string, id: string)
    ensures Claims(claims + [c], id) == Claims(claims, id) + (if c == id then 1 else 0)
  {
    assert (claims + [c])[..|claims|] == claims;
  }

  ghost predicate MessageOk(cfg: Config, w: World, id: string)
    requires id in w.db.outbox
  {
    var m := w.db.outbox[id];
    && m.attempts == Claims(w.claims, id)
    && (m.status.Dispatching? <==> m.lockedAt.Some?) && (m.status.Dispatching? <==> m.lockedBy.Some?)
    && (m.status.Published? ==> OutboxJobId(id) in w.jobs)
    && (m.status.Dead? ==> m.attempts >= cfg.maxAttempts)
    && (m.origin.Advanced? ==> m.origin in w.advances)
  }

  ghost predicate OutboxOk(cfg: Config, w: World) {
    && KeysUnique(w.db.outbox)
    && (forall id | id in w.db.outbox :: MessageOk(cfg, w, id))
    && (forall id :: id !in w.db.outbox ==> Claims(w.claims, id) == 0)
    && (forall o | o in w.advances :: exists id | id in w.db.outbox :: w.db.outbox[id].origin == o)
  }

  predicate AdvancedTo(advances: set<Origin>, id: string, version: nat) {
    exists o | o in advances :: o.Advanced? && o.intentId == id && o.version == version
  }

  predicate AdvanceInRange(intents: map<string, Intent>, o: Origin) {
    o.Advanced? && o.intentId in intents && 1 <= o.version <= intents[o.intentId].stateVersion
  }

  /** Each version that an intent reached has its advance, and no version has two. */
  ghost predicate AdvancesOk(w: World) {
    && (forall o | o in w.advances :: AdvanceInRange(w.db.intents, o))
    && (forall o, p | o in w.advances && p in w.advances && o.intentId == p.intentId && o.version == p.version :: o == p)
    && (forall id, v: nat | id in w.db.intents && 1 <= v <= w.db.intents[id].stateVersion :: AdvancedTo(w.advances, id, v))
  }

  lemma CommitAdvances(w: World, w': World, next: Intent, t: Transition, topic: Topic)
    requires AdvancesOk(w) && Commits(w, w', next.id, next, t)
    requires next.id in w.db.intents && next.stateVersion == t.toVersion == w.db.intents[next.id].stateVersion + 1
    requires w'.advances == w.advances + {Advanced(next.id, topic, t.toVersion)}
    ensures AdvancesOk(w')
  {
    var o := Advanced(next.id, topic, t.toVersion);
    forall id, v: nat | id in w'.db.intents && 1 <= v <= w'.db.intents[id].stateVersion
      ensures AdvancedTo(w'.advances, id, v)
    {
      if id == next.id && v == t.toVersion {
        assert o in w'.advances;
      } else {
        assert AdvancedTo(w.advances, id, v);
      }
    }
  }

  lemma CreateAdvances(w: World, w': World, i: Intent)
    requires AdvancesOk(w) && i.id !in w.db.intents && i.stateVersion == 0
    requires w'.db.intents == w.db.intents[i.id := i] && w'.advances == w.advances
    ensures AdvancesOk(w')
  {
    hide AdvancedTo;
  }

  lemma SameAdvances(w: World, w': World)
    requires AdvancesOk(w) && w'.db.intents == w.db.intents && w'.advances == w.advances
    ensures AdvancesOk(w')
  {
  }

  predicate JobOk(outbox: map<string, Message>, jobId: string, j: Job) {
    j.outboxId in outbox && OutboxJobId(j.outboxId) == jobId && j == JobOf(j.outboxId, outbox[j.outboxId])
  }

  ghost predicate QueueOk(w: World) {
    && (forall j | j in w.jobs :: JobOk(w.db.outbox, j, w.jobs[j]))
    && (forall k | 0 <= k < |w.tasks| ::
          && w.tasks[k].message in w.db.outbox
          && (w.tasks[k].stage.Added? ==> OutboxJobId(w.tasks[k].message) in w.jobs))
  }

  ghost predicate Inv(cfg: Config, w: World) {
    HistoryOk(cfg, w) && OutboxOk(cfg, w) && AdvancesOk(w) && QueueOk(w)
  }

  // Commits keep the history

  lemma AfterExtends(start: Intent, h: seq<Transition>, t: Transition, k: nat)
    requires k <= |h|
    ensures After(start, h + [t], k) == After(start, h, k)
  {
  }

  lemma HistoryExtends(cfg: Config, start: Intent, h: seq<Transition>, i: Intent, c: Command)
    requires GoodHistory(cfg, start, h, i) && TransitionIntent(cfg.hash, i, c).Ok?
    ensures var (next, t) := TransitionIntent(cfg.hash, i, c).value; GoodHistory(cfg, start, h + [t], next)
  {
    var (next, t) := TransitionIntent(cfg.hash, i, c).value;
    forall k | 0 <= k < |h| + 1 ensures Linked(cfg, start, h + [t], k) {
      AfterExtends(start, h, t, k);
      if k < |h| {
        AfterExtends(start, h, t, k + 1);
        assert Linked(cfg, start, h, k);
      }
    }
  }

  /** A row read earlier is the current row when the version has not moved. */
  lemma SameVersion(cfg: Config, w: World, read: Intent)
    requires HistoryOk(cfg, w) && read in w.seen
    ensures read.id in w.db.intents
    ensures w.db.intents[read.id].stateVersion == read.stateVersion ==> w.db.intents[read.id] == read
  {
    hide Linked, History;
    assert SeenAt(w, read) && HistoryAt(cfg, w, read.id);
  }

  /** A transition computed from an old row passes the compare-and-swap only if the row is still current. */
  lemma StaleReadLoses(cfg: Config, w: World, read: Intent, c: Command)
    requires HistoryOk(cfg, w) && read in w.seen && TransitionIntent(cfg.hash, read, c).Ok?
    requires ApplyTransition(w.db, TransitionIntent(cfg.hash, read, c).value.1).Ok?
    ensures read.id in w.db.intents && read == w.db.intents[read.id]
  {
    hide HistoryOk, TerminalRecorded, Allowed;
    SameVersion(cfg, w, read);
  }

  /** One commit on the history tables. */
  ghost predicate Commits(w: World, w': World, id: string, next: Intent, t: Transition) {
    && t.intentId == id && next.id == id
    && w'.db.intents == w.db.intents[id := next] && w'.db.audit == w.db.audit + [t]
    && w'.seen == w.seen + {next} && w'.starts == w.starts
  }

  lemma CommitAt(cfg: Config, w: World, read: Intent, c: Command, w': World, id: string)
    requires HistoryAt(cfg, w, id) && TransitionIntent(cfg.hash, read, c).Ok?
    requires read.id in w.db.intents && w.db.intents[read.id] == read
    requires Commits(w, w', read.id, TransitionIntent(cfg.hash, read, c).value.0, TransitionIntent(cfg.hash, read, c).value.1)
    ensures HistoryAt(cfg, w', id)
  {
    hide TransitionIntent, GoodHistory, History;
    var (next, t) := TransitionIntent(cfg.hash, read, c).value;
    HistoryOfAppend(w.db.audit, t, id);
    if id == read.id {
      HistoryExtends(cfg, w.starts[id], History(w.db.audit, id), read, c);
    } else {
      assert History(w.db.audit, id) + [] == History(w.db.audit, id);
    }
  }

  lemma CommitSeen(cfg: Config, w: World, w': World, id: string, next: Intent, t: Transition, i: Intent)
    requires Commits(w, w', id, next, t) && HistoryAt(cfg, w', id)
    requires SeenAt(w, i) || i == next
    ensures SeenAt(w', i)
  {
    hide GoodHistory, History, WasStored;
    if SeenAt(w, i) {
      HistoryOfAppend(w.db.audit, t, i.id);
      StoredExtends(w.starts[i.id], History(w.db.audit, i.id), i, t);
    } else {
      GoodIsStored(cfg, w'.starts[id], History(w'.db.audit, id), i);
    }
  }

  lemma CommitHistory(cfg: Config, w: World, read: Intent, c: Command, w': World)
    requires HistoryOk(cfg, w) && read in w.seen && TransitionIntent(cfg.hash, read, c).Ok?
    requires ApplyTransition(w.db, TransitionIntent(cfg.hash, read, c).value.1).Ok?
    requires Commits(w, w', read.id, TransitionIntent(cfg.hash, read, c).value.0, TransitionIntent(cfg.hash, read, c).value.1)
    ensures HistoryOk(cfg, w')
  {
    hide TransitionIntent, HistoryAt, SeenAt;
    var (next, t) := TransitionIntent(cfg.hash, read, c).value;
    StaleReadLoses(cfg, w, read, c);
    forall id ensures HistoryAt(cfg, w', id) {
      CommitAt(cfg, w, read, c, w', id);
    }
    forall i | i in w'.seen ensures SeenAt(w', i) {
      CommitSeen(cfg, w, w', read.id, next, t, i);
    }
  }

  lemma CommitRow(cfg: Config, w: World, read: Intent, c: Command)
    requires TransitionIntent(cfg.hash, read, c).Ok? && read.id in w.db.intents && w.db.intents[read.id] == read
    requires ApplyTransition(w.db, TransitionIntent(cfg.hash, read, c).value.1).Ok?
    ensures var (next, t) := TransitionIntent(cfg.hash, read, c).value;
      && t.intentId == read.id && next.id == read.id
      && ApplyTransition(w.db, t).value == w.db.(intents := w.db.intents[read.id := next], audit := w.db.audit + [t])
  {
  }

  lemma StoredExtends(start: Intent, h: seq<Transition>, i: Intent, t: Transition)
    requires WasStored(start, h, i)
    ensures WasStored(start, h + [t], i) && h + [] == h
  {
    AfterExtends(start, h, t, i.stateVersion);
  }

  lemma GoodIsStored(cfg: Config, start: Intent, h: seq<Transition>, i: Intent)
    requires GoodHistory(cfg, start, h, i)
    ensures WasStored(start, h, i)
  {
  }

  lemma EmptyHistory(cfg: Config, i: Intent)
    requires i.state == Draft && i.stateVersion == 0
    ensures GoodHistory(cfg, i, [], i) && WasStored(i, [], i)
  {
  }

  lemma CreateAt(cfg: Config, w: World, i: Intent, id: string)
    requires HistoryAt(cfg, w, id) && i.id !in w.db.intents && i.state == Draft && i.stateVersion == 0
    ensures HistoryAt(cfg, Step(cfg, w, Create(i)), id)
  {
    hide GoodHistory, History;
    EmptyHistory(cfg, i);
  }

  lemma CreateSeen(cfg: Config, w: World, i: Intent, j: Intent)
    requires HistoryAt(cfg, w, i.id) && i.id !in w.db.intents && i.state == Draft && i.stateVersion == 0
    requires SeenAt(w, j) || j == i
    ensures SeenAt(Step(cfg, w, Create(i)), j)
  {
    hide GoodHistory, History, WasStored;
    EmptyHistory(cfg, i);
  }

  lemma CreateHistory(cfg: Config, w: World, i: Intent)
    requires HistoryOk(cfg, w) && i.id !in w.db.intents && i.state == Draft && i.stateVersion == 0
    ensures HistoryOk(cfg, Step(cfg, w, Create(i)))
  {
    hide HistoryAt, SeenAt;
    var w' := Step(cfg, w, Create(i));
    forall id ensures HistoryAt(cfg, w', id) {
      CreateAt(cfg, w, i, id);
    }
    forall j | j in w'.seen ensures SeenAt(w', j) {
      CreateSeen(cfg, w, i, j);
    }
  }

  lemma SameHistory(cfg: Config, w: World, w': World)
    requires HistoryOk(cfg, w)
    requires w'.db.intents == w.db.intents && w'.db.audit == w.db.audit && w'.seen == w.seen && w'.starts == w.starts
    ensures HistoryOk(cfg, w')
  {
    hide GoodHistory, History, WasStored;
    forall id ensures HistoryAt(cfg, w', id) {
      assert HistoryAt(cfg, w, id);
    }
    forall i | i in w'.seen ensures SeenAt(w', i) {
      assert SeenAt(w, i);
    }
  }

  // Outbox changes

  /** The message keeps what it says; only its delivery fields change. */
  predicate SameContent(m: Message, n: Message) {
    && n.origin == m.origin && n.topic == m.topic && n.intentId == m.intentId && n.state == m.state
    && n.stateVersion == m.stateVersion && n.stateEnteredAt == m.stateEnteredAt && n.traceId == m.traceId
    && n.createdAt == m.createdAt
  }

  /** A delivery step on message `id`: one message updated, claims extended by at most that message. */
  ghost predicate Delivers(w: World, w': World, id: string) {
    && id in w.db.outbox && w'.db.outbox.Keys == w.db.outbox.Keys
    && (forall a | a in w.db.outbox && a != id :: w'.db.outbox[a] == w.db.outbox[a])
    && SameContent(w.db.outbox[id], w'.db.outbox[id])
    && (w'.claims == w.claims || w'.claims == w.claims + [id])
    && w'.jobs == w.jobs && w'.advances == w.advances && w'.db.intents == w.db.intents
  }

  lemma DeliveryOutbox(cfg: Config, w: World, w': World, id: string)
    requires OutboxOk(cfg, w) && Delivers(w, w', id) && MessageOk(cfg, w', id)
    ensures OutboxOk(cfg, w')
  {
    hide KeyText;
    forall a ensures a != id ==> Claims(w'.claims, a) == Claims(w.claims, a) {
      ClaimsOfAppend(w.claims, id, a);
    }
    assert OriginsKept(w.db.outbox, w'.db.outbox);
    KeysKept(w.db.outbox, w'.db.outbox);
    forall o | o in w'.advances ensures exists a | a in w'.db.outbox :: w'.db.outbox[a].origin == o {
      var a :| a in w.db.outbox && w.db.outbox[a].origin == o;
      assert w'.db.outbox[a].origin == o;
    }
  }

  predicate OriginsKept(o: map<string, Message>, o': map<string, Message>) {
    o'.Keys == o.Keys && forall a | a in o :: o'[a].origin == o[a].origin
  }

  lemma KeysKept(o: map<string, Message>, o': map<string, Message>)
    requires KeysUnique(o) && OriginsKept(o, o')
    ensures KeysUnique(o')
  {
    hide KeyText;
    forall a, b | a in o' && b in o' && a != b ensures KeyText(o'[a].origin) != KeyText(o'[b].origin) {
      assert KeyText(o[a].origin) != KeyText(o[b].origin);
    }
  }

  lemma DeliveryQueue(w: World, w': World, id: string)
    requires QueueOk(w) && Delivers(w, w', id)
    requires TasksFollow(w.tasks, w'.tasks, id)
    ensures QueueOk(w')
  {
    hide OutboxJobId;
    forall j | j in w'.jobs ensures JobOk(w'.db.outbox, j, w'.jobs[j]) {
      assert JobOk(w.db.outbox, j, w.jobs[j]);
    }
  }

  lemma CreateKeeps(cfg: Config, w: World, i: Intent)
    requires Inv(cfg, w)
    ensures Inv(cfg, Step(cfg, w, Create(i)))
  {
    hide HistoryOk, AdvancesOk, KeysUnique, MessageOk, JobOk;
    var w' := Step(cfg, w, Create(i));
    if w' != w {
      CreateAdvances(w, w', i);
      CreateHistory(cfg, w, i);
      SameOutbox(cfg, w, w');
    }
  }

  lemma SameOutbox(cfg: Config, w: World, w': World)
    requires OutboxOk(cfg, w)
    requires w'.db.outbox == w.db.outbox && w'.claims == w.claims && w'.jobs == w.jobs && w'.advances == w.advances
    ensures OutboxOk(cfg, w')
  {
    hide KeysUnique;
    forall id | id in w'.db.outbox ensures MessageOk(cfg, w', id) {
      assert MessageOk(cfg, w, id);
    }
  }

  /** Which tasks a delivery step on `id` may leave. */
  predicate TasksFollow(ts: seq<Task>, ts': seq<Task>, id: string) {
    forall k | 0 <= k < |ts'| ::
      || ts'[k] == Task(id, Holding)
      || (k < |ts| && ts'[k].message == ts[k].message && (ts'[k].stage.Added? ==> ts[k].stage.Added?))
  }

  lemma DeliveryKeeps(cfg: Config, w: World, w': World, id: string)
    requires Inv(cfg, w) && Delivers(w, w', id) && MessageOk(cfg, w', id) && TasksFollow(w.tasks, w'.tasks, id)
    requires w'.db.audit == w.db.audit && w'.seen == w.seen && w'.starts == w.starts
    ensures Inv(cfg, w')
  {
    hide HistoryOk, OutboxOk, AdvancesOk, QueueOk, MessageOk, Delivers;
    DeliveryFrame(w, w', id);
    SameAdvances(w, w');
    SameHistory(cfg, w, w');
    DeliveryOutbox(cfg, w, w', id);
    DeliveryQueue(w, w', id);
  }

  lemma DeliveryFrame(w: World, w': World, id: string)
    requires Delivers(w, w', id)
    ensures w'.db.intents == w.db.intents && w'.advances == w.advances
  {
  }

  lemma MessageIsOk(cfg: Config, w: World, id: string)
    requires Inv(cfg, w) && id in w.db.outbox
    ensures MessageOk(cfg, w, id)
  {
  }

  lemma TaskIsOk(cfg: Config, w: World, k: nat)
    requires Inv(cfg, w) && k < |w.tasks|
    ensures w.tasks[k].message in w.db.outbox
    ensures w.tasks[k].stage.Added? ==> OutboxJobId(w.tasks[k].message) in w.jobs
  {
  }

  lemma ClaimKeeps(cfg: Config, w: World, id: string, worker: string, now: int, before: int)
    requires Inv(cfg, w)
    ensures Inv(cfg, Step(cfg, w, ClaimMessage(id, worker, now, before)))
  {
    hide Inv, Claims, OutboxJobId;
    var w' := Step(cfg, w, ClaimMessage(id, worker, now, before));
    if w' != w {
      ClaimsOfAppend(w.claims, id, id);
      MessageIsOk(cfg, w, id);
      DeliveryKeeps(cfg, w, w', id);
    }
  }

  lemma PublishKeeps(cfg: Config, w: World, k: nat)
    requires Inv(cfg, w) && k < |w.tasks|
    ensures Inv(cfg, Step(cfg, w, Publish(k)))
  {
    hide Inv, Claims, OutboxJobId;
    var w', id := Step(cfg, w, Publish(k)), w.tasks[k].message;
    if w' != w {
      TaskIsOk(cfg, w, k);
      MessageIsOk(cfg, w, id);
      DeliveryKeeps(cfg, w, w', id);
    }
  }

  lemma RetryKeeps(cfg: Config, w: World, k: nat, at: int)
    requires Inv(cfg, w) && k < |w.tasks|
    ensures Inv(cfg, Step(cfg, w, Retry(k, at)))
  {
    hide Inv, Claims, OutboxJobId;
    var w', id := Step(cfg, w, Retry(k, at)), w.tasks[k].message;
    if w' != w {
      TaskIsOk(cfg, w, k);
      MessageIsOk(cfg, w, id);
      DeliveryKeeps(cfg, w, w', id);
    }
  }

  lemma RequeueKeeps(cfg: Config, w: World, id: string, before: int)
    requires Inv(cfg, w)
    ensures Inv(cfg, Step(cfg, w, RequeueLease(id, before)))
  {
    hide Inv, Claims, OutboxJobId;
    var w' := Step(cfg, w, RequeueLease(id, before));
    if w' != w {
      MessageIsOk(cfg, w, id);
      DeliveryKeeps(cfg, w, w', id);
    }
  }

  lemma CrashTaskKeeps(cfg: Config, w: World, k: nat)
    requires Inv(cfg, w) && k < |w.tasks|
    ensures Inv(cfg, Step(cfg, w, CrashTask(k)))
  {
    hide HistoryOk, OutboxOk, AdvancesOk, JobOk;
    SameAdvances(w, Step(cfg, w, CrashTask(k)));
    SameHistory(cfg, w, Step(cfg, w, CrashTask(k)));
    SameOutbox(cfg, w, Step(cfg, w, CrashTask(k)));
  }

  lemma AddJobKeeps(cfg: Config, w: World, k: nat)
    requires Inv(cfg, w) && k < |w.tasks|
    ensures Inv(cfg, Step(cfg, w, AddJob(k)))
  {
    hide HistoryOk, AdvancesOk, OutboxOk, QueueOk, OutboxJobId;
    var w' := Step(cfg, w, AddJob(k));
    SameAdvances(w, w');
    SameHistory(cfg, w, w');
    AddJobOutbox(cfg, w, w');
    if w' != w {
      AddJobQueue(w, w', k);
    }
  }

  /** More jobs in the queue's record. */
  lemma AddJobOutbox(cfg: Config, w: World, w': World)
    requires OutboxOk(cfg, w) && w'.db.outbox == w.db.outbox && w'.claims == w.claims && w'.advances == w.advances
    requires forall j | j in w.jobs :: j in w'.jobs
    ensures OutboxOk(cfg, w')
  {
    hide KeysUnique, OutboxJobId, Claims;
    forall a | a in w'.db.outbox ensures MessageOk(cfg, w', a) {
      assert MessageOk(cfg, w, a);
    }
  }

  lemma AddJobQueue(w: World, w': World, k: nat)
    requires QueueOk(w) && k < |w.tasks| && w.tasks[k].message in w.db.outbox && w'.db.outbox == w.db.outbox
    requires var id := w.tasks[k].message;
      w'.jobs == AddTo(w.jobs, id, w.db.outbox[id]) && w'.tasks == w.tasks[k := Task(id, Added)]
    ensures QueueOk(w')
  {
    hide OutboxJobId;
    forall j | j in w'.jobs ensures JobOk(w'.db.outbox, j, w'.jobs[j]) {
      assert j in w.jobs ==> JobOk(w.db.outbox, j, w.jobs[j]);
    }
  }

  // Enqueueing

  /** A new pending message, or nothing when its key is taken. */
  lemma EnqueueKeeps(cfg: Config, w: World, id: string, m: Message, w': World)
    requires OutboxOk(cfg, w) && QueueOk(w) && Enqueue(w.db, id, m).Ok?
    requires m.status.Pending? && m.attempts == 0 && m.lockedAt.None? && m.lockedBy.None?
    requires w'.db.outbox == Enqueue(w.db, id, m).value.0.outbox
    requires w'.claims == w.claims && w'.jobs == w.jobs && w'.tasks == w.tasks
    requires w'.advances == w.advances + (if m.origin.Advanced? then {m.origin} else {})
    ensures OutboxOk(cfg, w') && QueueOk(w')
  {
    hide OutboxOk, QueueOk, Enqueue;
    EnqueueOutbox(cfg, w, id, m, w');
    EnqueueQueue(w, id, m, w');
  }

  lemma EnqueueOutbox(cfg: Config, w: World, id: string, m: Message, w': World)
    requires OutboxOk(cfg, w) && Enqueue(w.db, id, m).Ok?
    requires m.status.Pending? && m.attempts == 0 && m.lockedAt.None? && m.lockedBy.None?
    requires w'.db.outbox == Enqueue(w.db, id, m).value.0.outbox && w'.claims == w.claims && w'.jobs == w.jobs
    requires w'.advances == w.advances + (if m.origin.Advanced? then {m.origin} else {})
    ensures OutboxOk(cfg, w')
  {
    hide KeyText, OutboxJobId, Claims;
    forall a | a in w'.db.outbox ensures MessageOk(cfg, w', a) {
      if a in w.db.outbox {
        assert MessageOk(cfg, w, a);
      }
    }
    forall o | o in w'.advances ensures exists a | a in w'.db.outbox :: w'.db.outbox[a].origin == o {
      OriginPresent(w, id, m, o);
    }
  }

  lemma EnqueueQueue(w: World, id: string, m: Message, w': World)
    requires QueueOk(w) && Enqueue(w.db, id, m).Ok?
    requires w'.db.outbox == Enqueue(w.db, id, m).value.0.outbox && w'.jobs == w.jobs && w'.tasks == w.tasks
    ensures QueueOk(w')
  {
    hide KeyText, OutboxJobId;
    forall j | j in w'.jobs ensures JobOk(w'.db.outbox, j, w'.jobs[j]) {
      assert JobOk(w.db.outbox, j, w.jobs[j]);
    }
  }

  lemma OriginPresent(w: World, id: string, m: Message, o: Origin)
    requires Enqueue(w.db, id, m).Ok?
    requires (exists a | a in w.db.outbox :: w.db.outbox[a].origin == o) || (o == m.origin && o.Advanced?)
    ensures var outbox := Enqueue(w.db, id, m).value.0.outbox; exists a | a in outbox :: outbox[a].origin == o
  {
    hide KeyText;
    var outbox := Enqueue(w.db, id, m).value.0.outbox;
    if a :| a in w.db.outbox && w.db.outbox[a].origin == o {
      assert outbox[a].origin == o;
    } else if HasMessageKey(w.db.outbox, KeyText(m.origin)) {
      var a :| a in w.db.outbox && KeyText(w.db.outbox[a].origin) == KeyText(m.origin);
      SameKeySameOrigin(w.db.outbox[a].origin, m.origin);
    } else {
      assert outbox[id].origin == o;
    }
  }

  lemma IngestFrame(cfg: Config, w: World, source: string, key: string, job: Option<Job>, now: int)
    ensures var w' := Step(cfg, w, IngestEvent(source, key, job, now));
      w' == w.(db := w.db.(inbox := w'.db.inbox, outbox := w'.db.outbox))
  {
    hide KeyText;
  }

  lemma IngestKeeps(cfg: Config, w: World, source: string, key: string, job: Option<Job>, now: int)
    requires Inv(cfg, w)
    ensures Inv(cfg, Step(cfg, w, IngestEvent(source, key, job, now)))
  {
    hide HistoryOk, OutboxOk, AdvancesOk, QueueOk, Enqueue;
    var w' := Step(cfg, w, IngestEvent(source, key, job, now));
    IngestFrame(cfg, w, source, key, job, now);
    SameHistory(cfg, w, w');
    SameAdvances(w, w');
    if w' != w && job.Some? {
      var accepted := w.(db := w.db.(inbox := w.db.inbox + {(source, key)}));
      SameOutbox(cfg, w, accepted);
      SameQueue(w, accepted);
      var j := job.value;
      EnqueueKeeps(cfg, accepted, j.outboxId, Fresh(External(source, key), j.topic, j.intentId, j.state,
                                                    j.stateVersion, j.stateEnteredAt, j.traceId, Times(now, now)), w');
    } else {
      SameOutbox(cfg, w, w');
      SameQueue(w, w');
    }
  }

  lemma SameQueue(w: World, w': World)
    requires QueueOk(w) && w'.db.outbox == w.db.outbox && w'.jobs == w.jobs && w'.tasks == w.tasks
    ensures QueueOk(w')
  {
  }

  lemma ReconcileKeeps(cfg: Config, w: World, id: string, version: nat, outboxId: string, traceId: string, now: int)
    requires Inv(cfg, w)
    ensures Inv(cfg, Step(cfg, w, ReconcileIntent(id, version, outboxId, traceId, now)))
  {
    hide HistoryOk, OutboxOk, AdvancesOk, QueueOk;
    var w' := Step(cfg, w, ReconcileIntent(id, version, outboxId, traceId, now));
    if w' != w {
      SameAdvances(w, w');
      SameHistory(cfg, w, w');
      EnqueueKeeps(cfg, w, outboxId, ReconcileMessage(w.db.intents[id], traceId, now), w');
    }
  }

  lemma CommitOutbox(cfg: Config, w: World, t: Transition, outboxId: string, next: Topic, at: Times, w': World)
    requires OutboxOk(cfg, w) && QueueOk(w) && ApplyTransitionWithOutbox(w.db, t, outboxId, next, at).Ok?
    requires w'.db == ApplyTransitionWithOutbox(w.db, t, outboxId, next, at).value
    requires w'.claims == w.claims && w'.jobs == w.jobs && w'.tasks == w.tasks
    requires w'.advances == w.advances + {Advanced(t.intentId, next, t.toVersion)}
    ensures OutboxOk(cfg, w') && QueueOk(w')
  {
    hide OutboxOk, QueueOk, KeyText;
    var moved := w.(db := ApplyTransition(w.db, t).value);
    SameOutbox(cfg, w, moved);
    SameQueue(w, moved);
    EnqueueKeeps(cfg, moved, outboxId, AdvanceMessage(t, next, at), w');
  }

  /** The world after a committed advance, part by part. */
  lemma AdvanceShape(cfg: Config, w: World, read: Intent, c: Command, outboxId: string, next: Topic, at: Times)
    requires TransitionIntent(cfg.hash, read, c).Ok? && read.id in w.db.intents && w.db.intents[read.id] == read
    requires ApplyTransitionWithOutbox(w.db, TransitionIntent(cfg.hash, read, c).value.1, outboxId, next, at).Ok?
    ensures var (row, t) := TransitionIntent(cfg.hash, read, c).value;
      var w' := AdvanceFrom(cfg, w, read, c, outboxId, next, at);
      && Commits(w, w', read.id, row, t) && t.toVersion == row.stateVersion == read.stateVersion + 1
      && w'.db == ApplyTransitionWithOutbox(w.db, t, outboxId, next, at).value
      && w'.claims == w.claims && w'.jobs == w.jobs && w'.tasks == w.tasks
      && w'.advances == w.advances + {Advanced(t.intentId, next, t.toVersion)}
  {
    hide TransitionIntent, ApplyTransition, KeyText;
    CommitRow(cfg, w, read, c);
    CommitVersions(cfg, read, c);
  }

  lemma AdvanceKeeps(cfg: Config, w: World, read: Intent, c: Command, outboxId: string, next: Topic, at: Times)
    requires Inv(cfg, w) && read in w.seen
    ensures Inv(cfg, AdvanceFrom(cfg, w, read, c, outboxId, next, at))
  {
    hide HistoryOk, OutboxOk, AdvancesOk, QueueOk, TransitionIntent, ApplyTransition, Enqueue;
    if TransitionIntent(cfg.hash, read, c).Ok? {
      var (row, t) := TransitionIntent(cfg.hash, read, c).value;
      if ApplyTransitionWithOutbox(w.db, t, outboxId, next, at).Ok? {
        StaleReadLoses(cfg, w, read, c);
        AdvanceShape(cfg, w, read, c, outboxId, next, at);
        var w' := AdvanceFrom(cfg, w, read, c, outboxId, next, at);
        CommitAdvances(w, w', row, t, next);
        CommitHistory(cfg, w, read, c, w');
        CommitOutbox(cfg, w, t, outboxId, next, at, w');
      }
    }
  }

  lemma CommitVersions(cfg: Config, read: Intent, c: Command)
    requires TransitionIntent(cfg.hash, read, c).Ok?
    ensures var (next, t) := TransitionIntent(cfg.hash, read, c).value;
      next.stateVersion == t.toVersion == read.stateVersion + 1
  {
  }

  lemma CurrentSeen(cfg: Config, w: World, id: string)
    requires Inv(cfg, w) && id in w.db.intents
    ensures w.db.intents[id] in w.seen
  {
  }

  /** A write that succeeds is a step of its own. */
  function AsStep(w: World, x: Write): Event
    requires x.Move? ==> x.intentId in w.db.intents
  {
    match x
    case Move(id, c, outboxId, next, at) => AdvanceIntent(w.db.intents[id], c, outboxId, next, at)
    case Receive(source, key, job, now) => IngestEvent(source, key, job, now)
  }

  lemma WriteIsStep(cfg: Config, w: World, x: Write)
    requires Inv(cfg, w) && WriteOne(cfg, w, x).Some?
    ensures x.Move? ==> x.intentId in w.db.intents && w.db.intents[x.intentId] in w.seen
    ensures WriteOne(cfg, w, x).value == Step(cfg, w, AsStep(w, x))
  {
    hide Inv, AdvanceFrom, Ingest, TransitionIntent, ApplyTransitionWithOutbox;
    if x.Move? {
      CurrentSeen(cfg, w, x.intentId);
    }
  }

  lemma WriteKeeps(cfg: Config, w: World, x: Write)
    requires Inv(cfg, w) && WriteOne(cfg, w, x).Some?
    ensures Inv(cfg, WriteOne(cfg, w, x).value)
  {
    hide Inv, AdvanceFrom, Ingest, TransitionIntent, WriteOne;
    WriteIsStep(cfg, w, x);
    match x
    case Move(id, c, outboxId, next, at) => AdvanceKeeps(cfg, w, w.db.intents[id], c, outboxId, next, at);
    case Receive(source, key, job, now) => IngestKeeps(cfg, w, source, key, job, now);
  }

  lemma {:induction false} WorkKeeps(cfg: Config, w: World, work: seq<Write>)
    requires Inv(cfg, w) && WriteAll(cfg, w, work).Some?
    ensures Inv(cfg, WriteAll(cfg, w, work).value)
    decreases |work|
  {
    hide Inv, WriteOne;
    if work != [] {
      WriteKeeps(cfg, w, work[0]);
      WorkKeeps(cfg, WriteOne(cfg, w, work[0]).value, work[1..]);
    }
  }

  /** Every step keeps the invariants. */
  lemma StepKeeps(cfg: Config, w: World, e: Event)
    requires Inv(cfg, w)
    ensures Inv(cfg, Step(cfg, w, e))
  {
    hide Inv, AdvanceFrom, Ingest, Enqueue, Claim, TransitionIntent, WriteAll;
    match e
    case Create(i) => CreateKeeps(cfg, w, i);
    case AdvanceIntent(read, c, id, next, at) => if read in w.seen { AdvanceKeeps(cfg, w, read, c, id, next, at); }
    case IngestEvent(source, key, job, now) => IngestKeeps(cfg, w, source, key, job, now);
    case ClaimMessage(id, worker, now, before) => ClaimKeeps(cfg, w, id, worker, now, before);
    case AddJob(k) => if k < |w.tasks| { AddJobKeeps(cfg, w, k); }
    case Publish(k) => if k < |w.tasks| { PublishKeeps(cfg, w, k); }
    case Retry(k, at) => if k < |w.tasks| { RetryKeeps(cfg, w, k, at); }
    case CrashTask(k) => if k < |w.tasks| { CrashTaskKeeps(cfg, w, k); }
    case RequeueLease(id, before) => RequeueKeeps(cfg, w, id, before);
    case ReconcileIntent(id, version, outboxId, traceId, now) => ReconcileKeeps(cfg, w, id, version, outboxId, traceId, now);
    case Process(job, work) => if WriteAll(cfg, w, work).Some? { WorkKeeps(cfg, w, work); }
  }

  lemma {:induction false} RunKeeps(cfg: Config, w: World, events: seq<Event>)
    requires Inv(cfg, w)
    ensures Inv(cfg, Run(cfg, w, events))
    decreases |events|
  {
    hide Inv, Step;
    if events != [] {
      StepKeeps(cfg, w, events[0]);
      RunKeeps(cfg, Step(cfg, w, events[0]), events[1..]);
    }
  }

  lemma Reachable(cfg: Config, events: seq<Event>)
    ensures Inv(cfg, Run(cfg, INITIAL, events))
  {
    hide Step, Run;
    RunKeeps(cfg, INITIAL, events);
  }

  // What no step takes back

  predicate IntentForward(i: Intent, j: Intent) {
    && j.id == i.id && i.stateVersion <= j.stateVersion
    && (i.stateVersion == j.stateVersion || IsTerminal(i.state) ==> j == i)
  }

  /** Delivery fields move; published and dead messages stay exactly as they are. */
  predicate MessageForward(m: Message, n: Message) {
    && SameContent(m, n) && m.attempts <= n.attempts
    && (m.status.Published? || m.status.Dead? ==> n == m)
  }

  ghost predicate Forward(w: World, w': World) {
    && (forall id | id in w.db.intents :: id in w'.db.intents && IntentForward(w.db.intents[id], w'.db.intents[id]))
    && w.db.audit <= w'.db.audit
    && (forall id | id in w.db.outbox :: id in w'.db.outbox && MessageForward(w.db.outbox[id], w'.db.outbox[id]))
    && (forall j | j in w.jobs :: j in w'.jobs && w'.jobs[j] == w.jobs[j])
    && w.advances <= w'.advances
  }

  lemma IntentForwardTransitive(i: Intent, j: Intent, k: Intent)
    requires IntentForward(i, j) && IntentForward(j, k)
    ensures IntentForward(i, k)
  {
  }

  lemma ForwardTransitive(u: World, v: World, w: World)
    requires Forward(u, v) && Forward(v, w)
    ensures Forward(u, w)
  {
    hide IntentForward;
    forall id | id in u.db.intents ensures id in w.db.intents && IntentForward(u.db.intents[id], w.db.intents[id]) {
      IntentForwardTransitive(u.db.intents[id], v.db.intents[id], w.db.intents[id]);
    }
  }

  lemma CommitForward(cfg: Config, i: Intent, c: Command)
    requires TransitionIntent(cfg.hash, i, c).Ok?
    ensures IntentForward(i, TransitionIntent(cfg.hash, i, c).value.0)
  {
    TerminalIff(i.state);
  }

  lemma OutboxForward(db: Db, t: Transition, outboxId: string, next: Topic, at: Times)
    requires ApplyTransitionWithOutbox(db, t, outboxId, next, at).Ok?
    ensures var outbox := ApplyTransitionWithOutbox(db, t, outboxId, next, at).value.outbox;
      forall id | id in db.outbox :: id in outbox && outbox[id] == db.outbox[id]
  {
    hide KeyText;
  }

  lemma AdvanceForward(cfg: Config, w: World, read: Intent, c: Command, outboxId: string, next: Topic, at: Times)
    requires Inv(cfg, w) && read in w.seen
    ensures Forward(w, AdvanceFrom(cfg, w, read, c, outboxId, next, at))
  {
    hide HistoryOk, OutboxOk, QueueOk, TransitionIntent, ApplyTransition, Enqueue, IsTerminal;
    if TransitionIntent(cfg.hash, read, c).Ok? {
      var (row, t) := TransitionIntent(cfg.hash, read, c).value;
      if ApplyTransitionWithOutbox(w.db, t, outboxId, next, at).Ok? {
        StaleReadLoses(cfg, w, read, c);
        AdvanceShape(cfg, w, read, c, outboxId, next, at);
        CommitForward(cfg, read, c);
        OutboxForward(w.db, t, outboxId, next, at);
      }
    }
  }

  lemma TaskForward(cfg: Config, w: World, e: Event)
    requires (e.AddJob? || e.Publish? || e.Retry? || e.CrashTask?) && e.task < |w.tasks|
    ensures Forward(w, StepTask(cfg, w, e))
  {
    hide Forward, MarkPublished, MarkRetry, OutboxJobId;
    ForwardReflexive(w);
    var t := w.tasks[e.task];
    match e
    case AddJob(_) => if t.message in w.db.outbox { JobsForward(w, StepTask(cfg, w, e)); }
    case Publish(_) => if StepTask(cfg, w, e) != w { PublishForward(w, t.message, StepTask(cfg, w, e)); }
    case Retry(_, at) => if StepTask(cfg, w, e) != w { RetryForward(w, t.message, at, cfg.maxAttempts, StepTask(cfg, w, e)); }
    case CrashTask(_) => JobsForward(w, StepTask(cfg, w, e));
    case _ =>
  }

  lemma JobsForward(w: World, w': World)
    requires w'.db == w.db && w'.advances == w.advances && forall j | j in w.jobs :: j in w'.jobs && w'.jobs[j] == w.jobs[j]
    ensures Forward(w, w')
  {
    hide IsTerminal;
  }

  lemma PublishForward(w: World, id: string, w': World)
    requires MarkPublished(w.db, id) == Ok(w'.db) && w'.jobs == w.jobs && w'.advances == w.advances
    ensures Forward(w, w')
  {
    hide IsTerminal;
  }

  lemma RetryForward(w: World, id: string, at: int, maxAttempts: nat, w': World)
    requires w'.jobs == w.jobs && w'.advances == w.advances
    requires w'.db == MarkRetry(w.db, id, at, maxAttempts)
    ensures Forward(w, w')
  {
    hide IsTerminal;
  }

  lemma CreateForward(cfg: Config, w: World, i: Intent)
    ensures Forward(w, Step(cfg, w, Create(i)))
  {
    hide IsTerminal;
  }

  lemma EnqueueForward(w: World, w': World, id: string, m: Message)
    requires Enqueue(w.db, id, m).Ok? && w'.db.outbox == Enqueue(w.db, id, m).value.0.outbox
    requires w'.db.intents == w.db.intents && w'.db.audit == w.db.audit && w'.jobs == w.jobs && w'.advances == w.advances
    ensures Forward(w, w')
  {
    hide KeyText, IsTerminal;
  }

  lemma LeaseForward(cfg: Config, w: World, e: Event)
    requires e.ClaimMessage? || e.RequeueLease?
    ensures Forward(w, Step(cfg, w, e))
  {
    hide KeyText, IsTerminal;
  }

  lemma IngestForward(cfg: Config, w: World, source: string, key: string, job: Option<Job>, now: int)
    ensures Forward(w, Step(cfg, w, IngestEvent(source, key, job, now)))
  {
    hide Forward, KeyText;
    ForwardReflexive(w);
    var w' := Step(cfg, w, IngestEvent(source, key, job, now));
    if w' != w {
      var accepted := w.(db := w.db.(inbox := w.db.inbox + {(source, key)}));
      InboxForward(w, accepted);
      if job.Some? {
        var j := job.value;
        EnqueueForward(accepted, w', j.outboxId, Fresh(External(source, key), j.topic, j.intentId, j.state,
                                                       j.stateVersion, j.stateEnteredAt, j.traceId, Times(now, now)));
        ForwardTransitive(w, accepted, w');
      }
    }
  }

  lemma InboxForward(w: World, w': World)
    requires w' == w.(db := w.db.(inbox := w'.db.inbox))
    ensures Forward(w, w')
  {
  }

  lemma ReconcileForward(cfg: Config, w: World, id: string, version: nat, outboxId: string, traceId: string, now: int)
    ensures Forward(w, Step(cfg, w, ReconcileIntent(id, version, outboxId, traceId, now)))
  {
    hide Forward, KeyText;
    ForwardReflexive(w);
    var w' := Step(cfg, w, ReconcileIntent(id, version, outboxId, traceId, now));
    if w' != w {
      EnqueueForward(w, w', outboxId, ReconcileMessage(w.db.intents[id], traceId, now));
    }
  }

  lemma {:induction false} WorkForward(cfg: Config, w: World, work: seq<Write>)
    requires Inv(cfg, w) && WriteAll(cfg, w, work).Some?
    ensures Forward(w, WriteAll(cfg, w, work).value)
    decreases |work|
  {
    hide Inv, WriteOne, Forward;
    if work == [] {
      ForwardReflexive(w);
    } else {
      var w1 := WriteOne(cfg, w, work[0]).value;
      WriteKeeps(cfg, w, work[0]);
      WriteForward(cfg, w, work[0]);
      WorkForward(cfg, w1, work[1..]);
      ForwardTransitive(w, w1, WriteAll(cfg, w, work).value);
    }
  }

  lemma WriteForward(cfg: Config, w: World, x: Write)
    requires Inv(cfg, w) && WriteOne(cfg, w, x).Some?
    ensures Forward(w, WriteOne(cfg, w, x).value)
  {
    hide Inv, AdvanceFrom, Ingest, TransitionIntent, WriteOne, Forward;
    WriteIsStep(cfg, w, x);
    match x
    case Move(id, c, outboxId, next, at) => AdvanceForward(cfg, w, w.db.intents[id], c, outboxId, next, at);
    case Receive(source, key, job, now) => IngestForward(cfg, w, source, key, job, now);
  }

  lemma StepForward(cfg: Config, w: World, e: Event)
    requires Inv(cfg, w)
    ensures Forward(w, Step(cfg, w, e))
  {
    hide Inv, AdvanceFrom, Forward, Ingest, Claim, Requeue, Enqueue, WriteAll;
    match e
    case AdvanceIntent(read, c, id, next, at) =>
      if read in w.seen { AdvanceForward(cfg, w, read, c, id, next, at); } else { ForwardReflexive(w); }
    case Process(job, work) =>
      if WriteAll(cfg, w, work).Some? { WorkForward(cfg, w, work); }
      ForwardReflexive(w);
    case AddJob(_) | Publish(_) | Retry(_, _) | CrashTask(_) =>
      if e.task < |w.tasks| { TaskForward(cfg, w, e); } else { ForwardReflexive(w); }
    case Create(i) => CreateForward(cfg, w, i);
    case IngestEvent(source, key, job, now) => IngestForward(cfg, w, source, key, job, now);
    case ReconcileIntent(id, version, outboxId, traceId, now) => ReconcileForward(cfg, w, id, version, outboxId, traceId, now);
    case ClaimMessage(_, _, _, _) | RequeueLease(_, _) => LeaseForward(cfg, w, e);
  }

  /** Over every continuation: versions only grow, terminal intents never change, the audit trail only gets
      longer, published and dead messages are final, attempts never fall, jobs stay in the queue's record. */
  lemma {:induction false} RunForward(cfg: Config, w: World, events: seq<Event>)
    requires Inv(cfg, w)
    ensures Forward(w, Run(cfg, w, events))
    decreases |events|
  {
    hide Inv, Step, Forward;
    if events == [] {
      ForwardReflexive(w);
    } else {
      StepKeeps(cfg, w, events[0]);
      StepForward(cfg, w, events[0]);
      RunForward(cfg, Step(cfg, w, events[0]), events[1..]);
      ForwardTransitive(w, Step(cfg, w, events[0]), Run(cfg, w, events));
    }
  }

  lemma ForwardReflexive(w: World)
    ensures Forward(w, w)
  {
  }

  // Results over every run

  /** The states an intent went through. */
  function Path(h: seq<Transition>): seq<State> {
    seq(|h| + 1, k requires 0 <= k <= |h| => if k == 0 then Draft else h[k - 1].to)
  }

  lemma HistoryIsPath(cfg: Config, start: Intent, h: seq<Transition>, i: Intent)
    requires GoodHistory(cfg, start, h, i)
    ensures LegalPath(Path(h)) && Path(h)[0] == Draft && Path(h)[|h|] == i.state
  {
    forall k | 0 <= k < |h| ensures CanTransition(Path(h)[k], Path(h)[k + 1]) {
      assert Linked(cfg, start, h, k);
    }
  }

  /** Numbered from 1 to the current version, each step legal. */
  predicate Numbered(h: seq<Transition>, i: Intent) {
    && |h| == i.stateVersion <= 11
    && forall k | 0 <= k < |h| :: h[k].fromVersion == k && h[k].toVersion == k + 1 && CanTransition(h[k].from, h[k].to)
  }

  /** Each event continues the one before it in state, hash and time, from DRAFT to the current row. */
  predicate Chained(cfg: Config, h: seq<Transition>, i: Intent) {
    && (forall k | 0 < k < |h| :: h[k].from == h[k - 1].to && h[k].beforeHash == h[k - 1].afterHash
                                  && h[k - 1].occurredAt <= h[k].occurredAt)
    && (if h == [] then i.state == Draft
        else h[0].from == Draft && h[|h| - 1].to == i.state && h[|h| - 1].afterHash == cfg.hash(i))
  }

  predicate WasEvaluated(h: seq<Transition>) {
    exists j, k | 0 <= j < k < |h| :: h[j].to == Evaluating && h[k].to == ExecutionReady
  }

  /** The procurement was left for UNCONFIRMED. */
  predicate LeftUnconfirmed(h: seq<Transition>) {
    exists k | 0 <= k < |h| :: h[k].from == ProcurementExecuting && h[k].to == Unconfirmed
  }

  /** One event per version from 1 to the current one, at most eleven, linked by state, version, time and hash from
      DRAFT to the current state. An intent that is executing was evaluated and then made ready; one that succeeded
      was exactly when its procurement was not left unconfirmed. */
  predicate Trail(cfg: Config, h: seq<Transition>, i: Intent) {
    && Numbered(h, i) && Chained(cfg, h, i)
    && (i.state == Executing ==> WasEvaluated(h))
    && (i.state == Succeeded ==> (WasEvaluated(h) <==> !LeftUnconfirmed(h)))
  }

  /** The audit trail of every intent in every reachable state. */
  lemma AuditTrail(cfg: Config, events: seq<Event>, id: string)
    requires id in Run(cfg, INITIAL, events).db.intents
    ensures var db := Run(cfg, INITIAL, events).db;
      Trail(cfg, History(db.audit, id), db.intents[id])
  {
    hide Run, Step, OutboxOk, AdvancesOk, QueueOk, History, GoodHistory, Trail;
    Reachable(cfg, events);
    var w := Run(cfg, INITIAL, events);
    assert HistoryAt(cfg, w, id);
    TrailOfHistory(cfg, w.starts[id], History(w.db.audit, id), w.db.intents[id]);
  }

  lemma TrailOfHistory(cfg: Config, start: Intent, h: seq<Transition>, i: Intent)
    requires GoodHistory(cfg, start, h, i)
    ensures Trail(cfg, h, i)
  {
    hide GoodHistory, Numbered, Chained, WasEvaluated, LeftUnconfirmed;
    TrailNumbered(cfg, start, h, i);
    TrailChained(cfg, start, h, i);
    if i.state == Executing {
      HistoryIsPath(cfg, start, h, i);
      TrailEvaluated(cfg, start, h, i, |h|);
    } else if i.state == Succeeded {
      TrailSucceeded(cfg, start, h, i);
    }
  }

  lemma TrailNumbered(cfg: Config, start: Intent, h: seq<Transition>, i: Intent)
    requires GoodHistory(cfg, start, h, i)
    ensures Numbered(h, i)
  {
    hide LegalPath, Allowed;
    HistoryIsPath(cfg, start, h, i);
    AtMostElevenTransitions(Path(h));
    forall k | 0 <= k < |h| ensures h[k].fromVersion == k && h[k].toVersion == k + 1 && CanTransition(h[k].from, h[k].to) {
      assert Linked(cfg, start, h, k);
    }
  }

  lemma TrailChained(cfg: Config, start: Intent, h: seq<Transition>, i: Intent)
    requires GoodHistory(cfg, start, h, i)
    ensures Chained(cfg, h, i)
  {
    hide Allowed;
    forall k | 0 < k < |h| ensures h[k].from == h[k - 1].to && h[k].beforeHash == h[k - 1].afterHash
                                   && h[k - 1].occurredAt <= h[k].occurredAt {
      assert Linked(cfg, start, h, k) && Linked(cfg, start, h, k - 1);
    }
    if h != [] {
      assert Linked(cfg, start, h, 0) && Linked(cfg, start, h, |h| - 1);
    }
  }

  lemma TrailEvaluated(cfg: Config, start: Intent, h: seq<Transition>, i: Intent, n: nat)
    requires GoodHistory(cfg, start, h, i) && n <= |h| && Path(h)[n] == Executing
    ensures WasEvaluated(h)
  {
    hide LegalPath, GoodHistory;
    HistoryIsPath(cfg, start, h, i);
    ExecutingWasEvaluated(Path(h), n);
    var j, k :| 0 <= j < k < n && Path(h)[j] == Evaluating && Path(h)[k] == ExecutionReady;
    assert h[j - 1].to == Evaluating && h[k - 1].to == ExecutionReady;
  }

  lemma TrailSucceeded(cfg: Config, start: Intent, h: seq<Transition>, i: Intent)
    requires GoodHistory(cfg, start, h, i) && i.state == Succeeded
    ensures WasEvaluated(h) <==> !LeftUnconfirmed(h)
  {
    hide LegalPath, GoodHistory, LeftUnconfirmed, ProcurementUnconfirmed;
    HistoryIsPath(cfg, start, h, i);
    SuccessEvaluatedIff(Path(h));
    LeftIsPath(cfg, start, h, i);
    if Executing in Path(h) {
      var n :| 0 <= n <= |h| && Path(h)[n] == Executing;
      TrailEvaluated(cfg, start, h, i, n);
    }
    EvaluatedOnPath(h);
  }

  lemma EvaluatedOnPath(h: seq<Transition>)
    ensures WasEvaluated(h) ==> Evaluating in Path(h)
  {
    if j, k :| 0 <= j < k < |h| && h[j].to == Evaluating && h[k].to == ExecutionReady {
      assert Path(h)[j + 1] == Evaluating;
    }
  }

  lemma LeftIsPath(cfg: Config, start: Intent, h: seq<Transition>, i: Intent)
    requires GoodHistory(cfg, start, h, i)
    ensures LeftUnconfirmed(h) <==> ProcurementUnconfirmed(Path(h))
  {
    hide CanTransition;
    forall k | 0 <= k < |h| ensures h[k].from == Path(h)[k] && h[k].to == Path(h)[k + 1] {
      assert Linked(cfg, start, h, k);
    }
    if k :| 0 <= k < |h| && h[k].from == ProcurementExecuting && h[k].to == Unconfirmed {
      assert Path(h)[k] == ProcurementExecuting && Path(h)[k + 1] == Unconfirmed;
    }
    if k :| 0 <= k < |Path(h)| - 1 && Path(h)[k] == ProcurementExecuting && Path(h)[k + 1] == Unconfirmed {
      assert h[k].from == ProcurementExecuting && h[k].to == Unconfirmed;
    }
  }

  /** An audit event sits in its intent's history behind the events before it. */
  lemma {:induction false} HistoryIndex(audit: seq<Transition>, n: nat)
    requires n < |audit|
    ensures var id := audit[n].intentId; var k := |History(audit[..n], id)|;
      k < |History(audit, id)| && History(audit, id)[k] == audit[n]
  {
    var id := audit[n].intentId;
    var init := audit[..|audit| - 1];
    if n == |audit| - 1 {
    } else {
      HistoryIndex(init, n);
      assert init[..n] == audit[..n] && init[n] == audit[n];
    }
  }

  lemma {:induction false} HistoryGrows(audit: seq<Transition>, m: nat, n: nat)
    requires m < n <= |audit|
    ensures var id := audit[m].intentId; |History(audit[..m], id)| < |History(audit[..n], id)|
  {
    var id := audit[m].intentId;
    assert audit[..n] == audit[..n - 1] + [audit[n - 1]];
    HistoryOfAppend(audit[..n - 1], audit[n - 1], id);
    if m < n - 1 {
      HistoryGrows(audit, m, n - 1);
    }
  }

  /** Exactly once per version: whatever is duplicated, redelivered or raced, no two commits leave the same version
      of an intent. */
  lemma OneCommitPerVersion(cfg: Config, events: seq<Event>, m: nat, n: nat)
    requires var audit := Run(cfg, INITIAL, events).db.audit;
      m < n < |audit| && audit[m].intentId == audit[n].intentId
    ensures var audit := Run(cfg, INITIAL, events).db.audit; audit[m].fromVersion < audit[n].fromVersion
  {
    hide Run, Step, OutboxOk, QueueOk, History;
    Reachable(cfg, events);
    var w := Run(cfg, INITIAL, events);
    var id := w.db.audit[m].intentId;
    HistoryIndex(w.db.audit, m);
    HistoryIndex(w.db.audit, n);
    HistoryGrows(w.db.audit, m, n);
    assert HistoryAt(cfg, w, id);
    var h := History(w.db.audit, id);
    assert id in w.db.intents;
    assert Linked(cfg, w.starts[id], h, |History(w.db.audit[..m], id)|);
    assert Linked(cfg, w.starts[id], h, |History(w.db.audit[..n], id)|);
  }

  predicate IsAdvanceOf(m: Message, id: string, version: nat) {
    m.origin.Advanced? && m.origin.intentId == id && m.origin.version == version
  }

  /** A message is published with its job in the queue, dead after the allowed attempts, pending and claimable from
      its time on, or leased and claimable again by anyone once the lease has expired. */
  ghost predicate NotLost(cfg: Config, w: World, id: string)
    requires id in w.db.outbox
  {
    var m := w.db.outbox[id];
    && (m.status.Published? ==> OutboxJobId(id) in w.jobs)
    && (m.status.Dead? ==> m.attempts >= cfg.maxAttempts)
    && (m.status.Pending? ==> forall now, before | m.availableAt <= now :: Claimable(m, now, before))
    && (m.status.Dispatching? ==>
          m.lockedAt.Some? && forall now, before | m.lockedAt.value < before :: Claimable(m, now, before))
  }

  /** No work is lost: every version that an intent has reached has exactly one advance message, whatever topic, and
      that message is not lost. */
  lemma NoLostWork(cfg: Config, events: seq<Event>, intentId: string, version: nat) returns (id: string)
    requires var db := Run(cfg, INITIAL, events).db;
      intentId in db.intents && 1 <= version <= db.intents[intentId].stateVersion
    ensures var w := Run(cfg, INITIAL, events);
      && id in w.db.outbox && IsAdvanceOf(w.db.outbox[id], intentId, version)
      && (forall a | a in w.db.outbox && IsAdvanceOf(w.db.outbox[a], intentId, version) :: a == id)
      && NotLost(cfg, w, id)
  {
    hide Run, Step, HistoryOk, QueueOk, KeyText, OutboxJobId;
    Reachable(cfg, events);
    var w := Run(cfg, INITIAL, events);
    assert AdvancedTo(w.advances, intentId, version);
    var o :| o in w.advances && o.Advanced? && o.intentId == intentId && o.version == version;
    id :| id in w.db.outbox && w.db.outbox[id].origin == o;
    assert MessageOk(cfg, w, id);
    forall a | a in w.db.outbox && IsAdvanceOf(w.db.outbox[a], intentId, version) ensures a == id {
      assert MessageOk(cfg, w, a);
    }
  }

  /** Nothing but reached versions has an advance message. */
  lemma AdvanceMessagesAreReached(cfg: Config, events: seq<Event>, id: string)
    requires var w := Run(cfg, INITIAL, events); id in w.db.outbox && w.db.outbox[id].origin.Advanced?
    ensures var w := Run(cfg, INITIAL, events); AdvanceInRange(w.db.intents, w.db.outbox[id].origin)
  {
    hide Run, Step, HistoryOk, QueueOk, KeyText, OutboxJobId;
    Reachable(cfg, events);
    assert MessageOk(cfg, Run(cfg, INITIAL, events), id);
  }

  /** The status machine of a message over all runs with stale publishers. */
  lemma OutboxStatus(cfg: Config, events: seq<Event>, id: string)
    requires id in Run(cfg, INITIAL, events).db.outbox
    ensures var w := Run(cfg, INITIAL, events);
      var m := w.db.outbox[id];
      && (m.status.Published? ==> OutboxJobId(id) in w.jobs)
      && (m.status.Dead? ==> m.attempts >= cfg.maxAttempts)
      && m.attempts == Claims(w.claims, id)
      && (m.status.Dispatching? <==> m.lockedAt.Some?)
  {
    hide Run, Step, HistoryOk, QueueOk, KeysUnique, OutboxJobId;
    Reachable(cfg, events);
    assert MessageOk(cfg, Run(cfg, INITIAL, events), id);
  }

  /** Any number of reconcilers: one message per intent and version. */
  lemma OneReconcilePerVersion(cfg: Config, events: seq<Event>, a: string, b: string)
    requires var outbox := Run(cfg, INITIAL, events).db.outbox;
      a in outbox && b in outbox && outbox[a].origin == outbox[b].origin
    ensures a == b
  {
    hide Run, Step, HistoryOk, QueueOk, KeyText;
    Reachable(cfg, events);
  }

  /** The current row moved on by one version and its advance message appeared, new and due when asked, both in one
      step. */
  predicate MovedWithMessage(w: World, w': World, read: Intent, outboxId: string, next: Topic, at: Times) {
    && read.id in w.db.intents && w.db.intents[read.id] == read
    && read.id in w'.db.intents && w'.db.intents[read.id].stateVersion == read.stateVersion + 1
    && outboxId !in w.db.outbox && outboxId in w'.db.outbox
    && w'.db.outbox[outboxId].origin == Advanced(read.id, next, read.stateVersion + 1)
    && var m := w'.db.outbox[outboxId];
    && m.topic == next && m.intentId == read.id && m.traceId == read.traceId
    && m.state == w'.db.intents[read.id].state && m.stateVersion == read.stateVersion + 1
    && m.stateEnteredAt == w'.db.intents[read.id].updatedAt
    && m.status.Pending? && m.attempts == 0 && m.availableAt == at.availableAt && m.createdAt == at.createdAt
  }

  /** The advance row is created by the transaction that stores the transition. */
  lemma AdvanceCreatesRow(cfg: Config, w: World, read: Intent, c: Command, outboxId: string, next: Topic, at: Times)
    requires Inv(cfg, w) && read in w.seen
    ensures var w' := AdvanceFrom(cfg, w, read, c, outboxId, next, at);
      w' == w || MovedWithMessage(w, w', read, outboxId, next, at)
  {
    hide HistoryOk, OutboxOk, QueueOk, ApplyTransition, TransitionIntent, KeyText;
    if AdvanceFrom(cfg, w, read, c, outboxId, next, at) != w {
      var (row, t) := TransitionIntent(cfg.hash, read, c).value;
      StaleReadLoses(cfg, w, read, c);
      CommitRow(cfg, w, read, c);
      CommitVersions(cfg, read, c);
      CommitSays(cfg, read, c);
      NoMessageFor(cfg, w, Advanced(read.id, next, read.stateVersion + 1));
    }
  }

  lemma CommitSays(cfg: Config, read: Intent, c: Command)
    requires TransitionIntent(cfg.hash, read, c).Ok?
    ensures var (next, t) := TransitionIntent(cfg.hash, read, c).value;
      && t.to == next.state == c.to && t.occurredAt == next.updatedAt == c.occurredAt && t.traceId == read.traceId
      && next == read.(state := c.to, stateVersion := read.stateVersion + 1, updatedAt := c.occurredAt)
  {
  }

  lemma NoMessageFor(cfg: Config, w: World, o: Origin)
    requires OutboxOk(cfg, w) && o.Advanced? && o !in w.advances
    ensures !HasMessageKey(w.db.outbox, KeyText(o))
  {
    hide KeyText;
    if HasMessageKey(w.db.outbox, KeyText(o)) {
      var a :| a in w.db.outbox && KeyText(w.db.outbox[a].origin) == KeyText(o);
      assert MessageOk(cfg, w, a);
      SameKeySameOrigin(w.db.outbox[a].origin, o);
    }
  }

  /** A job whose handler moved the intent is spent: however the run goes on and however often the job is delivered
      again, its handler never runs a second time. */
  lemma CommittedJobIsSpent(cfg: Config, w: World, e: Event, more: seq<Event>)
    requires Inv(cfg, w) && e.Process? && e.jobId in w.jobs
    requires var id := w.jobs[e.jobId].intentId;
      id in w.db.intents && id in Step(cfg, w, e).db.intents && Step(cfg, w, e).db.intents[id] != w.db.intents[id]
    ensures !Current(Run(cfg, Step(cfg, w, e), more), w.jobs[e.jobId])
  {
    hide Inv, Run, Step, WriteAll;
    var j := w.jobs[e.jobId];
    var w1 := Step(cfg, w, e);
    if !Current(w, j) {
      NotCurrentNothing(cfg, w, e);
    }
    StepKeeps(cfg, w, e);
    StepForward(cfg, w, e);
    RunForward(cfg, w1, more);
    assert IntentForward(w.db.intents[j.intentId], w1.db.intents[j.intentId]);
    NotCurrentLater(w1, Run(cfg, w1, more), j);
  }

  lemma NotCurrentNothing(cfg: Config, w: World, e: Event)
    requires e.Process? && e.jobId in w.jobs && !Current(w, w.jobs[e.jobId])
    ensures Step(cfg, w, e) == w
  {
  }

  lemma NotCurrentLater(w: World, later: World, j: Job)
    requires Forward(w, later) && j.intentId in w.db.intents && w.db.intents[j.intentId].stateVersion > j.stateVersion
    ensures !Current(later, j)
  {
    assert IntentForward(w.db.intents[j.intentId], later.db.intents[j.intentId]);
  }
}
