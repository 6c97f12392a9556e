/** What messages and jobs say, over every run: an advance message repeats the audit event it was committed with, a
    reconcile message the intent it was made for, a job its message; so the locked processor runs the handler of an
    advance exactly while the intent is still at the version that the advance reached (apps/worker/src/coordinator.ts). */
module MessageLaws {
  import opened Results
  import opened MessageKeys
  import opened IntentStates
  import opened CoordinatorStore
  import opened Coordinator

  /** The message of an advance: its own topic, intent and version, and the state, time and trace of the audit event. */
  predicate RepeatsEvent(m: Message, t: Transition) {
    && m.origin.Advanced?
    && m.intentId == m.origin.intentId == t.intentId && m.topic == m.origin.topic
    && m.stateVersion == m.origin.version == t.toVersion
    && m.state == t.to && m.stateEnteredAt == t.occurredAt && m.traceId == t.traceId
  }

  predicate AdvanceOk(audit: seq<Transition>, m: Message) {
    m.origin.Advanced? ==> exists n | 0 <= n < |audit| :: RepeatsEvent(m, audit[n])
  }

  /** The message of a reconciliation: the intent as it was stored at that version. */
  predicate RepeatsIntent(m: Message, i: Intent) {
    && m.origin == Reconciled(i.id, i.stateVersion) && m.topic == Reconcile
    && m.intentId == i.id && m.state == i.state && m.stateVersion == i.stateVersion && m.stateEnteredAt == i.updatedAt
  }

  predicate ReconcileOk(seen: set<Intent>, m: Message) {
    m.origin.Reconciled? ==> exists i | i in seen :: RepeatsIntent(m, i)
  }

  ghost predicate ContentsOk(w: World) {
    forall a | a in w.db.outbox :: AdvanceOk(w.db.audit, w.db.outbox[a]) && ReconcileOk(w.seen, w.db.outbox[a])
  }

  /** Messages keep what they say, audit events and stored rows stay, and a new message is in order. */
  ghost predicate ContentsFollow(w: World, w': World) {
    && w.db.audit <= w'.db.audit && w.seen <= w'.seen
    && (forall a | a in w'.db.outbox && a in w.db.outbox :: SameContent(w.db.outbox[a], w'.db.outbox[a]))
    && (forall a | a in w'.db.outbox && a !in w.db.outbox ::
          AdvanceOk(w'.db.audit, w'.db.outbox[a]) && ReconcileOk(w'.seen, w'.db.outbox[a]))
  }

  lemma ContentStays(w: World, w': World, a: string)
    requires w.db.audit <= w'.db.audit && w.seen <= w'.seen
    requires a in w.db.outbox && a in w'.db.outbox && SameContent(w.db.outbox[a], w'.db.outbox[a])
    requires AdvanceOk(w.db.audit, w.db.outbox[a]) && ReconcileOk(w.seen, w.db.outbox[a])
    ensures AdvanceOk(w'.db.audit, w'.db.outbox[a]) && ReconcileOk(w'.seen, w'.db.outbox[a])
  {
    var m, m' := w.db.outbox[a], w'.db.outbox[a];
    if m.origin.Advanced? {
      var n :| 0 <= n < |w.db.audit| && RepeatsEvent(m, w.db.audit[n]);
      assert RepeatsEvent(m', w'.db.audit[n]);
    }
    if m.origin.Reconciled? {
      var i :| i in w.seen && RepeatsIntent(m, i);
      assert RepeatsIntent(m', i);
    }
  }

  lemma ContentsKept(w: World, w': World)
    requires ContentsOk(w) && ContentsFollow(w, w')
    ensures ContentsOk(w')
  {
    hide AdvanceOk, ReconcileOk, SameContent;
    forall a | a in w'.db.outbox ensures AdvanceOk(w'.db.audit, w'.db.outbox[a]) && ReconcileOk(w'.seen, w'.db.outbox[a]) {
      if a in w.db.outbox {
        ContentStays(w, w', a);
      }
    }
  }

  lemma SameMessages(w: World, w': World)
    requires w'.db.outbox == w.db.outbox && w.db.audit <= w'.db.audit && w.seen <= w'.seen
    ensures ContentsFollow(w, w')
  {
    hide AdvanceOk, ReconcileOk;
  }

  /** What a committed advance puts into the outbox. */
  lemma CommitContent(db: Db, t: Transition, outboxId: string, next: Topic, at: Times)
    requires ApplyTransitionWithOutbox(db, t, outboxId, next, at).Ok?
    ensures var db' := ApplyTransitionWithOutbox(db, t, outboxId, next, at).value;
      && db'.audit == db.audit + [t]
      && (forall a | a in db.outbox :: a in db'.outbox && db'.outbox[a] == db.outbox[a])
      && (forall a | a in db'.outbox && a !in db.outbox :: RepeatsEvent(db'.outbox[a], t))
  {
    hide KeyText, TerminalRecorded;
  }

  lemma AdvanceContent(cfg: Config, w: World, read: Intent, c: Command, outboxId: string, next: Topic, at: Times)
    ensures ContentsFollow(w, AdvanceFrom(cfg, w, read, c, outboxId, next, at))
  {
    hide TransitionIntent, ApplyTransitionWithOutbox, ReconcileOk;
    match TransitionIntent(cfg.hash, read, c)
    case Err(_) => SameMessages(w, w);
    case Ok((_, t)) =>
      var w' := AdvanceFrom(cfg, w, read, c, outboxId, next, at);
      if w' == w {
        SameMessages(w, w);
      } else {
        CommitContent(w.db, t, outboxId, next, at);
        forall a | a in w'.db.outbox && a !in w.db.outbox
          ensures AdvanceOk(w'.db.audit, w'.db.outbox[a]) && ReconcileOk(w'.seen, w'.db.outbox[a])
        {
          assert w'.db.audit[|w.db.audit|] == t;
          NotReconciled(w'.seen, w'.db.outbox[a]);
        }
      }
  }

  lemma NotReconciled(seen: set<Intent>, m: Message)
    requires !m.origin.Reconciled?
    ensures ReconcileOk(seen, m)
  {
  }

  lemma IngestContent(cfg: Config, w: World, source: string, key: string, job: Option<Job>, now: int)
    ensures ContentsFollow(w, Step(cfg, w, IngestEvent(source, key, job, now)))
  {
    hide KeyText;
  }

  lemma ReconcileContent(cfg: Config, w: World, id: string, version: nat, outboxId: string, traceId: string, now: int)
    requires Inv(cfg, w)
    ensures ContentsFollow(w, Step(cfg, w, ReconcileIntent(id, version, outboxId, traceId, now)))
  {
    hide KeyText, Inv, AdvanceOk, ReconcileOk;
    var w' := Step(cfg, w, ReconcileIntent(id, version, outboxId, traceId, now));
    if w' == w {
      SameMessages(w, w);
    } else {
      CurrentSeen(cfg, w, id);
      forall a | a in w'.db.outbox && a !in w.db.outbox
        ensures AdvanceOk(w'.db.audit, w'.db.outbox[a]) && ReconcileOk(w'.seen, w'.db.outbox[a])
      {
        ReconciledIsOk(w.db.audit, w.seen, w'.db.outbox[a], w.db.intents[id], traceId, now);
      }
    }
  }

  lemma ReconciledIsOk(audit: seq<Transition>, seen: set<Intent>, m: Message, i: Intent, traceId: string, now: int)
    requires m == ReconcileMessage(i, traceId, now) && i in seen
    ensures AdvanceOk(audit, m) && ReconcileOk(seen, m)
  {
    assert RepeatsIntent(m, i);
  }

  lemma OtherContent(cfg: Config, w: World, e: Event)
    requires e.Create? || e.ClaimMessage? || e.RequeueLease?
    ensures ContentsFollow(w, Step(cfg, w, e))
  {
    hide AdvanceOk, ReconcileOk;
  }

  lemma TaskContent(cfg: Config, w: World, e: Event)
    requires (e.AddJob? || e.Publish? || e.Retry? || e.CrashTask?) && e.task < |w.tasks|
    ensures ContentsFollow(w, StepTask(cfg, w, e))
  {
    hide AdvanceOk, ReconcileOk, OutboxJobId;
  }

  lemma {:induction false} WorkContent(cfg: Config, w: World, work: seq<Write>)
    requires Inv(cfg, w) && ContentsOk(w) && WriteAll(cfg, w, work).Some?
    ensures ContentsOk(WriteAll(cfg, w, work).value)
    decreases |work|
  {
    hide Inv, AdvanceFrom, Ingest, TransitionIntent, ApplyTransitionWithOutbox, ContentsFollow, ContentsOk;
    if work != [] {
      var w1 := WriteOne(cfg, w, work[0]).value;
      match work[0] {
        case Move(id, c, outboxId, next, at) => AdvanceContent(cfg, w, w.db.intents[id], c, outboxId, next, at);
        case Receive(source, key, job, now) => IngestContent(cfg, w, source, key, job, now);
      }
      ContentsKept(w, w1);
      WriteKeeps(cfg, w, work[0]);
      WorkContent(cfg, w1, work[1..]);
    }
  }

  lemma StepContent(cfg: Config, w: World, e: Event)
    requires Inv(cfg, w) && ContentsOk(w)
    ensures ContentsOk(Step(cfg, w, e))
  {
    hide Inv, AdvanceFrom, Ingest, Enqueue, WriteAll, ContentsFollow, ContentsOk;
    var w' := Step(cfg, w, e);
    match e {
      case AdvanceIntent(read, c, id, next, at) =>
        if read in w.seen { AdvanceContent(cfg, w, read, c, id, next, at); } else { SameMessages(w, w); }
        ContentsKept(w, w');
      case IngestEvent(source, key, job, now) => IngestContent(cfg, w, source, key, job, now); ContentsKept(w, w');
      case AddJob(_) | Publish(_) | Retry(_, _) | CrashTask(_) =>
        if e.task < |w.tasks| { TaskContent(cfg, w, e); } else { SameMessages(w, w); }
        ContentsKept(w, w');
      case ReconcileIntent(id, version, outboxId, traceId, now) =>
        ReconcileContent(cfg, w, id, version, outboxId, traceId, now);
        ContentsKept(w, w');
      case Process(job, work) => if WriteAll(cfg, w, work).Some? { WorkContent(cfg, w, work); }
      case Create(_) | ClaimMessage(_, _, _, _) | RequeueLease(_, _) => OtherContent(cfg, w, e); ContentsKept(w, w');
    }
  }

  lemma {:induction false} RunContent(cfg: Config, w: World, events: seq<Event>)
    requires Inv(cfg, w) && ContentsOk(w)
    ensures ContentsOk(Run(cfg, w, events))
    decreases |events|
  {
    hide Inv, Step, ContentsOk;
    if events != [] {
      StepKeeps(cfg, w, events[0]);
      StepContent(cfg, w, events[0]);
      RunContent(cfg, Step(cfg, w, events[0]), events[1..]);
    }
  }

  lemma ReachableContents(cfg: Config, events: seq<Event>)
    ensures ContentsOk(Run(cfg, INITIAL, events))
  {
    hide Run, Step, Inv;
    Reachable(cfg, []);
    RunNothing(cfg, INITIAL);
    RunContent(cfg, INITIAL, events);
  }

  // Results over every run

  /** Every advance message repeats the audit event of its version: topic, intent, version, state, time and trace. */
  lemma AdvanceMessageSays(cfg: Config, events: seq<Event>, a: string) returns (n: nat)
    requires var w := Run(cfg, INITIAL, events); a in w.db.outbox && w.db.outbox[a].origin.Advanced?
    ensures var w := Run(cfg, INITIAL, events);
      n < |w.db.audit| && RepeatsEvent(w.db.outbox[a], w.db.audit[n])
  {
    hide Run;
    ReachableContents(cfg, events);
    var w := Run(cfg, INITIAL, events);
    n :| 0 <= n < |w.db.audit| && RepeatsEvent(w.db.outbox[a], w.db.audit[n]);
  }

  /** Every reconcile message repeats the intent as it was stored at its version. */
  lemma ReconcileMessageSays(cfg: Config, events: seq<Event>, a: string) returns (i: Intent)
    requires var w := Run(cfg, INITIAL, events); a in w.db.outbox && w.db.outbox[a].origin.Reconciled?
    ensures var w := Run(cfg, INITIAL, events); i in w.seen && RepeatsIntent(w.db.outbox[a], i)
  {
    hide Run;
    ReachableContents(cfg, events);
    var w := Run(cfg, INITIAL, events);
    i :| i in w.seen && RepeatsIntent(w.db.outbox[a], i);
  }

  /** A new event's message says what the event's job says. */
  lemma IngestedMessageSays(db: Db, source: string, key: string, j: Job, now: int)
    requires Ingest(db, source, key, Some(j), now).Ok?
    ensures var db' := Ingest(db, source, key, Some(j), now).value.0;
      forall a | a in db'.outbox && a !in db.outbox ::
        var m := db'.outbox[a];
        && a == j.outboxId && m.origin == External(source, key)
        && m.topic == j.topic && m.intentId == j.intentId && m.state == j.state && m.stateVersion == j.stateVersion
        && m.stateEnteredAt == j.stateEnteredAt && m.traceId == j.traceId
        && m.status == Pending && m.availableAt == m.createdAt == now && m.attempts == 0
  {
    hide KeyText;
  }

  /** A queued job says what its message says. */
  predicate RepeatsMessage(j: Job, m: Message) {
    && j.topic == m.topic && j.intentId == m.intentId && j.state == m.state && j.stateVersion == m.stateVersion
    && j.stateEnteredAt == m.stateEnteredAt && j.traceId == m.traceId
  }

  lemma JobSays(cfg: Config, events: seq<Event>, jobId: string)
    requires jobId in Run(cfg, INITIAL, events).jobs
    ensures var w := Run(cfg, INITIAL, events);
      var j := w.jobs[jobId];
      OutboxJobId(j.outboxId) == jobId && j.outboxId in w.db.outbox && RepeatsMessage(j, w.db.outbox[j.outboxId])
  {
    hide Run, HistoryOk, OutboxOk, AdvancesOk, OutboxJobId;
    Reachable(cfg, events);
    var w := Run(cfg, INITIAL, events);
    assert JobOk(w.db.outbox, jobId, w.jobs[jobId]);
  }

  /** The locked processor's check on the job of an advance: it passes exactly while the intent is at the version that
      the advance reached. */
  lemma AdvanceJobRuns(cfg: Config, events: seq<Event>, jobId: string)
    requires var w := Run(cfg, INITIAL, events);
      jobId in w.jobs && w.jobs[jobId].outboxId in w.db.outbox && w.db.outbox[w.jobs[jobId].outboxId].origin.Advanced?
    ensures var w := Run(cfg, INITIAL, events);
      var o := w.db.outbox[w.jobs[jobId].outboxId].origin;
      o.intentId in w.db.intents && (Current(w, w.jobs[jobId]) <==> w.db.intents[o.intentId].stateVersion == o.version)
  {
    hide Run, OutboxOk, AdvancesOk, QueueOk, History, Linked;
    var w := Run(cfg, INITIAL, events);
    Reachable(cfg, events);
    JobSays(cfg, events, jobId);
    var a := w.jobs[jobId].outboxId;
    var n := AdvanceMessageSays(cfg, events, a);
    var t := w.db.audit[n];
    StateOfVersion(cfg, w, n);
  }

  /** An audit event says the state its intent is in while it is at the version the event reached. */
  lemma StateOfVersion(cfg: Config, w: World, n: nat)
    requires HistoryOk(cfg, w) && n < |w.db.audit|
    ensures var t := w.db.audit[n];
      t.intentId in w.db.intents && (w.db.intents[t.intentId].stateVersion == t.toVersion ==> w.db.intents[t.intentId].state == t.to)
  {
    hide History, GoodHistory, SeenAt;
    var t := w.db.audit[n];
    var id := t.intentId;
    HistoryIndex(w.db.audit, n);
    assert HistoryAt(cfg, w, id);
    StateAfter(cfg, w.starts[id], History(w.db.audit, id), w.db.intents[id], |History(w.db.audit[..n], id)|);
  }

  lemma StateAfter(cfg: Config, start: Intent, h: seq<Transition>, i: Intent, k: nat)
    requires GoodHistory(cfg, start, h, i) && k < |h|
    ensures i.stateVersion == h[k].toVersion ==> i.state == h[k].to
  {
    hide Allowed;
    assert Linked(cfg, start, h, k);
  }
}
