/** Two places where the coordinator promises less than it seems to, each with its exact condition: whose job a
    published message gets, and when an accepted event gets its message. */
module CoordinatorLaws {
  import opened Results
  import opened MessageKeys
  import opened IntentStates
  import opened CoordinatorStore
  import opened Coordinator

  // Jobs

  /** The job queued under a published message's job id is the message's own. */
  predicate HasOwnJob(w: World, id: string)
    requires id in w.db.outbox
  {
    OutboxJobId(id) in w.jobs && w.jobs[OutboxJobId(id)] == JobOf(id, w.db.outbox[id])
  }

  predicate IsPublished(w: World, id: string) {
    id in w.db.outbox && w.db.outbox[id].status.Published?
  }

  /** A published message's queued job is its own, unless another message of the outbox shares the job id. */
  lemma PublishedJobIsOwn(cfg: Config, events: seq<Event>, id: string)
    requires var w := Run(cfg, INITIAL, events);
      IsPublished(w, id) && forall a | a in w.db.outbox && a != id :: OutboxJobId(a) != OutboxJobId(id)
    ensures HasOwnJob(Run(cfg, INITIAL, events), id)
  {
    hide Run, Step, HistoryOk, KeysUnique, OutboxJobId;
    Reachable(cfg, events);
    var w := Run(cfg, INITIAL, events);
    assert MessageOk(cfg, w, id);
    assert JobOk(w.db.outbox, OutboxJobId(id), w.jobs[OutboxJobId(id)]);
  }

  function Waiting(id: string): Job {
    Job(id, Advance, "intent", Draft, 0, 0, "trace")
  }

  /** Two events whose messages are added to the queue one after the other; the second is then published. */
  function SharingRun(a: string, b: string): seq<Event> {
    [IngestEvent("source", "1", Some(Waiting(a)), 0), IngestEvent("source", "2", Some(Waiting(b)), 0),
     ClaimMessage(a, "worker", 0, 0), ClaimMessage(b, "worker", 0, 0), AddJob(0), AddJob(1), Publish(1)]
  }

  function Ingested(id: string, key: string): Message {
    Fresh(External("source", key), Advance, "intent", Draft, 0, 0, "trace", Times(0, 0))
  }

  /** The outbox of a run after its two events. */
  function Both(a: string, m: Message, b: string, n: Message): map<string, Message> {
    map[a := m, b := n]
  }

  lemma SharingIngests(cfg: Config, a: string, b: string)
    requires a != b
    ensures var w := Run(cfg, INITIAL, SharingRun(a, b)[..2]);
      && w.db.outbox == Both(a, Ingested(a, "1"), b, Ingested(b, "2")) && w.jobs == map[] && w.tasks == []
  {
    hide KeyText, OutboxJobId;
    var events := SharingRun(a, b);
    EventKeysDiffer("source", "1", "2");
    RunNothing(cfg, INITIAL);
    RunExtends(cfg, INITIAL, [], events[0]);
    assert [] + [events[0]] == events[..1];
    RunExtends(cfg, INITIAL, events[..1], events[1]);
    assert events[..1] + [events[1]] == events[..2];
    var w1 := Step(cfg, INITIAL, events[0]);
    assert w1.db.outbox == map[a := Ingested(a, "1")];
    assert !HasMessageKey(w1.db.outbox, KeyText(External("source", "2")));
  }

  lemma EventKeysDiffer(source: string, k: string, l: string)
    requires k != l
    ensures KeyText(External(source, k)) != KeyText(External(source, l))
  {
    if KeyText(External(source, k)) == KeyText(External(source, l)) {
      EventKeyInjective(source, k, l);
    }
  }

  lemma SharingClaims(cfg: Config, a: string, b: string, w: World)
    requires a != b && w.db.outbox == Both(a, Ingested(a, "1"), b, Ingested(b, "2")) && w.jobs == map[] && w.tasks == []
    ensures var w' := Step(cfg, Step(cfg, w, ClaimMessage(a, "worker", 0, 0)), ClaimMessage(b, "worker", 0, 0));
      && w'.db.outbox == Both(a, Claimed(Ingested(a, "1"), "worker", 0), b, Claimed(Ingested(b, "2"), "worker", 0))
      && w'.jobs == map[] && w'.tasks == [Task(a, Holding), Task(b, Holding)]
  {
  }

  lemma SharingAdds(cfg: Config, a: string, b: string, w: World)
    requires a != b && OutboxJobId(a) == OutboxJobId(b) && a in w.db.outbox && b in w.db.outbox
    requires w.jobs == map[] && w.tasks == [Task(a, Holding), Task(b, Holding)] && w.db.outbox[b].status.Dispatching?
    ensures var w' := Step(cfg, Step(cfg, Step(cfg, w, AddJob(0)), AddJob(1)), Publish(1));
      && w'.db.outbox.Keys == w.db.outbox.Keys && w'.db.outbox[b].status.Published? && w'.db.outbox[a] == w.db.outbox[a]
      && w'.jobs == map[OutboxJobId(a) := JobOf(a, w.db.outbox[a])]
  {
    hide OutboxJobId;
  }

  lemma RunFive(cfg: Config, w: World, d: Event, e: Event, f: Event, g: Event, h: Event)
    ensures Run(cfg, w, [d, e, f, g, h]) == Step(cfg, Step(cfg, Step(cfg, Step(cfg, Step(cfg, w, d), e), f), g), h)
  {
    hide Step;
    var all := [d, e, f, g, h];
    RunNothing(cfg, w);
    RunExtends(cfg, w, [], d);
    RunExtends(cfg, w, [d], e);
    RunExtends(cfg, w, [d, e], f);
    RunExtends(cfg, w, [d, e, f], g);
    RunExtends(cfg, w, [d, e, f, g], h);
    assert [] + [d] == [d] && [d] + [e] == [d, e] && [d, e] + [f] == [d, e, f];
    assert [d, e, f] + [g] == [d, e, f, g] && [d, e, f, g] + [h] == all;
  }

  /** Whenever two ids share a job id, a reachable state has the second message published while the queue holds the
      first one's job: the second is never delivered. */
  lemma SharedJobReachable(cfg: Config, a: string, b: string)
    requires a != b && OutboxJobId(a) == OutboxJobId(b)
    ensures var w := Run(cfg, INITIAL, SharingRun(a, b));
      && IsPublished(w, b) && !HasOwnJob(w, b)
      && a in w.db.outbox && OutboxJobId(b) in w.jobs && w.jobs[OutboxJobId(b)] == JobOf(a, w.db.outbox[a])
  {
    hide OutboxJobId, Step, Run, Both;
    var events := SharingRun(a, b);
    var w2 := Run(cfg, INITIAL, events[..2]);
    SharingIngests(cfg, a, b);
    SharingClaims(cfg, a, b, w2);
    var w4 := Step(cfg, Step(cfg, w2, events[2]), events[3]);
    BothHave(a, Claimed(Ingested(a, "1"), "worker", 0), b, Claimed(Ingested(b, "2"), "worker", 0));
    SharingAdds(cfg, a, b, w4);
    RunFive(cfg, w2, events[2], events[3], events[4], events[5], events[6]);
    RunSplit(cfg, INITIAL, events[..2], events[2..]);
    assert events[..2] + events[2..] == events;
    assert events[2..] == [events[2], events[3], events[4], events[5], events[6]];
  }

  lemma BothHave(a: string, m: Message, b: string, n: Message)
    requires a != b
    ensures a in Both(a, m, b, n) && b in Both(a, m, b, n) && Both(a, m, b, n)[a] == m && Both(a, m, b, n)[b] == n
  {
  }

  /** A message is sure of its own job in every reachable state exactly when its id holds neither a colon nor a
      dash; otherwise some run publishes it under another message's job. */
  lemma OwnJobIff(cfg: Config, id: string)
    ensures (forall events | IsPublished(Run(cfg, INITIAL, events), id) :: HasOwnJob(Run(cfg, INITIAL, events), id)) <==>
            ':' !in id && '-' !in id
  {
    hide OutboxJobId, Step, Run, HasOwnJob;
    JobIdSharedIff(id);
    if ':' in id || '-' in id {
      var other :| other != id && OutboxJobId(other) == OutboxJobId(id);
      SharedJobReachable(cfg, other, id);
      assert IsPublished(Run(cfg, INITIAL, SharingRun(other, id)), id);
    } else {
      forall events | IsPublished(Run(cfg, INITIAL, events), id) ensures HasOwnJob(Run(cfg, INITIAL, events), id) {
        PublishedJobIsOwn(cfg, events, id);
      }
    }
  }

  // Events

  /** Messages of events are there for recorded events only. */
  predicate InboxOk(db: Db) {
    forall a | a in db.outbox && db.outbox[a].origin.External? ::
      (db.outbox[a].origin.source, db.outbox[a].origin.eventKey) in db.inbox
  }

  /** What a step may add: recorded events stay recorded, and a new message of an event is for an event that was
      recorded by the same step. */
  ghost predicate EventsFrom(db: Db, db': Db) {
    && db.inbox <= db'.inbox
    && (forall a | a in db.outbox :: a in db'.outbox && db'.outbox[a].origin == db.outbox[a].origin)
    && (forall a | a in db'.outbox && a !in db.outbox && db'.outbox[a].origin.External? ::
          var e := (db'.outbox[a].origin.source, db'.outbox[a].origin.eventKey);
          e !in db.inbox && e in db'.inbox)
  }

  lemma EventsTransitive(d: Db, e: Db, f: Db)
    requires EventsFrom(d, e) && EventsFrom(e, f)
    ensures EventsFrom(d, f)
  {
  }

  lemma EnqueueEvents(db: Db, id: string, m: Message)
    requires Enqueue(db, id, m).Ok? && !m.origin.External?
    ensures EventsFrom(db, Enqueue(db, id, m).value.0)
  {
    hide KeyText;
  }

  lemma AdvanceEvents(cfg: Config, w: World, read: Intent, c: Command, outboxId: string, next: Topic, at: Times)
    ensures EventsFrom(w.db, AdvanceFrom(cfg, w, read, c, outboxId, next, at).db)
  {
    hide KeyText, TransitionIntent, TerminalRecorded;
  }

  lemma IngestEvents(cfg: Config, w: World, source: string, key: string, job: Option<Job>, now: int)
    ensures EventsFrom(w.db, Step(cfg, w, IngestEvent(source, key, job, now)).db)
  {
    hide KeyText;
  }

  lemma TaskEvents(cfg: Config, w: World, e: Event)
    requires (e.AddJob? || e.Publish? || e.Retry? || e.CrashTask?) && e.task < |w.tasks|
    ensures EventsFrom(w.db, StepTask(cfg, w, e).db)
  {
    hide OutboxJobId;
  }

  lemma {:induction false} WorkEvents(cfg: Config, w: World, work: seq<Write>)
    requires WriteAll(cfg, w, work).Some?
    ensures EventsFrom(w.db, WriteAll(cfg, w, work).value.db)
    decreases |work|
  {
    hide AdvanceFrom, Ingest, TransitionIntent, ApplyTransitionWithOutbox, EventsFrom;
    if work == [] {
      EventsSame(w.db);
    } else {
      match work[0] {
        case Move(id, c, outboxId, next, at) => AdvanceEvents(cfg, w, w.db.intents[id], c, outboxId, next, at);
        case Receive(source, key, job, now) => IngestEvents(cfg, w, source, key, job, now);
      }
      var w1 := WriteOne(cfg, w, work[0]).value;
      WorkEvents(cfg, w1, work[1..]);
      EventsTransitive(w.db, w1.db, WriteAll(cfg, w, work).value.db);
    }
  }

  lemma EventsSame(db: Db)
    ensures EventsFrom(db, db)
  {
  }

  lemma StepEvents(cfg: Config, w: World, e: Event)
    ensures EventsFrom(w.db, Step(cfg, w, e).db)
  {
    hide AdvanceFrom, Ingest, Enqueue, WriteAll, EventsFrom;
    EventsSame(w.db);
    match e
    case AdvanceIntent(read, c, id, next, at) => AdvanceEvents(cfg, w, read, c, id, next, at);
    case IngestEvent(source, key, job, now) => IngestEvents(cfg, w, source, key, job, now);
    case AddJob(_) | Publish(_) | Retry(_, _) | CrashTask(_) => if e.task < |w.tasks| { TaskEvents(cfg, w, e); }
    case ReconcileIntent(id, version, outboxId, traceId, now) =>
      if id in w.db.intents && Enqueue(w.db, outboxId, ReconcileMessage(w.db.intents[id], traceId, now)).Ok? {
        EnqueueEvents(w.db, outboxId, ReconcileMessage(w.db.intents[id], traceId, now));
      }
    case Process(job, work) => if WriteAll(cfg, w, work).Some? { WorkEvents(cfg, w, work); }
    case Create(_) | ClaimMessage(_, _, _, _) | RequeueLease(_, _) => LeaseEvents(cfg, w, e);
  }

  lemma LeaseEvents(cfg: Config, w: World, e: Event)
    requires e.Create? || e.ClaimMessage? || e.RequeueLease?
    ensures EventsFrom(w.db, Step(cfg, w, e).db)
  {
  }

  lemma {:induction false} RunEvents(cfg: Config, w: World, events: seq<Event>)
    ensures EventsFrom(w.db, Run(cfg, w, events).db)
    decreases |events|
  {
    hide Step, EventsFrom;
    if events == [] {
      EventsSame(w.db);
    } else {
      StepEvents(cfg, w, events[0]);
      RunEvents(cfg, Step(cfg, w, events[0]), events[1..]);
      EventsTransitive(w.db, Step(cfg, w, events[0]).db, Run(cfg, w, events).db);
    }
  }

  /** Another recorded event's message has the key that this event's message would get. */
  predicate Shadowed(db: Db, source: string, key: string) {
    exists a | a in db.outbox ::
      && db.outbox[a].origin.External? && db.outbox[a].origin != External(source, key)
      && (db.outbox[a].origin.source, db.outbox[a].origin.eventKey) in db.inbox
      && KeyText(db.outbox[a].origin) == KeyText(External(source, key))
  }

  lemma TakenIsShadowed(db: Db, source: string, key: string)
    requires InboxOk(db) && (source, key) !in db.inbox
    ensures HasMessageKey(db.outbox, KeyText(External(source, key))) <==> Shadowed(db, source, key)
  {
    hide KeyText;
    if HasMessageKey(db.outbox, KeyText(External(source, key))) {
      var a :| a in db.outbox && KeyText(db.outbox[a].origin) == KeyText(External(source, key));
      if !db.outbox[a].origin.External? {
        EventKeysApart(External(source, key), db.outbox[a].origin);
      }
      assert db.outbox[a].origin != External(source, key);
    }
  }

  lemma ReachableInbox(cfg: Config, events: seq<Event>)
    ensures InboxOk(Run(cfg, INITIAL, events).db)
  {
    hide Run;
    RunEvents(cfg, INITIAL, events);
  }

  /** When an accepted event gets its message: in every reachable state a new event is recorded, and its message is
      in the outbox of every continuation if no other recorded event's message has its key, and of none otherwise. */
  lemma EventMessageIff(cfg: Config, events: seq<Event>, source: string, key: string, j: Job, now: int, more: seq<Event>)
    requires var w := Run(cfg, INITIAL, events);
      (source, key) !in w.db.inbox && Ingest(w.db, source, key, Some(j), now).Ok?
    ensures var w := Run(cfg, INITIAL, events);
      var w' := Step(cfg, w, IngestEvent(source, key, Some(j), now));
      && (source, key) in w'.db.inbox
      && (HasOrigin(Run(cfg, w', more).db.outbox, External(source, key)) <==> !Shadowed(w.db, source, key))
  {
    hide Run, Ingest, Shadowed, HasMessageKey, KeyText, EventsFrom;
    var w := Run(cfg, INITIAL, events);
    var w' := Step(cfg, w, IngestEvent(source, key, Some(j), now));
    ReachableInbox(cfg, events);
    TakenIsShadowed(w.db, source, key);
    IngestGainsIff(w.db, source, key, j, now);
    assert w'.db == Ingest(w.db, source, key, Some(j), now).value.0;
    RunEvents(cfg, w', more);
    MessageSettled(w.db, w'.db, Run(cfg, w', more).db, source, key);
  }

  /** From the recording of an event on, its message is there for good or never. */
  lemma MessageSettled(db: Db, db': Db, later: Db, source: string, key: string)
    requires InboxOk(db) && (source, key) !in db.inbox && (source, key) in db'.inbox && EventsFrom(db', later)
    requires GainsOrigin(db.outbox, db'.outbox, External(source, key)) || db'.outbox == db.outbox
    ensures HasOrigin(later.outbox, External(source, key)) <==>
            GainsOrigin(db.outbox, db'.outbox, External(source, key))
  {
    if GainsOrigin(db.outbox, db'.outbox, External(source, key)) {
      var a :| a in db'.outbox && a !in db.outbox && db'.outbox[a].origin == External(source, key);
      assert later.outbox[a].origin == External(source, key);
    }
  }

  function TwoEvents(s: string, k: string, r: string, l: string): seq<Event> {
    [IngestEvent(s, k, Some(Waiting("1")), 0), IngestEvent(r, l, Some(Waiting("2")), 0)]
  }

  /** Any two different events with one key: the second is accepted and never gets its message, however the run
      goes on. */
  lemma CollidingEventLost(cfg: Config, s: string, k: string, r: string, l: string, more: seq<Event>)
    requires (s, k) != (r, l) && KeyText(External(s, k)) == KeyText(External(r, l))
    ensures (r, l) in Run(cfg, INITIAL, TwoEvents(s, k, r, l)).db.inbox
    ensures !HasOrigin(Run(cfg, Run(cfg, INITIAL, TwoEvents(s, k, r, l)), more).db.outbox, External(r, l))
  {
    hide KeyText, Run, HasOrigin;
    var events := TwoEvents(s, k, r, l);
    RunNothing(cfg, INITIAL);
    RunExtends(cfg, INITIAL, [], events[0]);
    RunExtends(cfg, INITIAL, [events[0]], events[1]);
    assert [] + [events[0]] == [events[0]] && [events[0]] + [events[1]] == events;
    var w := Step(cfg, INITIAL, events[0]);
    FirstEvent(cfg, s, k);
    assert Shadowed(w.db, r, l);
    EventMessageIff(cfg, [events[0]], r, l, Waiting("2"), 0, more);
  }

  lemma FirstEvent(cfg: Config, s: string, k: string)
    ensures var w := Step(cfg, INITIAL, IngestEvent(s, k, Some(Waiting("1")), 0));
      && w.db.inbox == {(s, k)}
      && w.db.outbox == map["1" := Fresh(External(s, k), Advance, "intent", Draft, 0, 0, "trace", Times(0, 0))]
  {
    hide KeyText;
  }

  /** Two such events. */
  lemma CollidingEvents()
    ensures ("a", "b-c") != ("a-b", "c") && KeyText(External("a", "b-c")) == KeyText(External("a-b", "c"))
  {
  }
}
