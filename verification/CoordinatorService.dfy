/** Publisher, reconciler and locked processor as they are written: loops over claimed messages and overdue
    intents. Each is proved to be a run of the coordinator's transition system
    (apps/worker/src/coordinator.ts). */
module CoordinatorService {
  import opened Results
  import opened Backoff
  import opened IntentStates
  import opened MessageKeys
  import opened CoordinatorStore
  import opened Coordinator
  import D = CoordinatorDatabase

  function ClaimEvents(ids: seq<string>, worker: string, now: int, before: int): (r: seq<Event>)
    ensures |r| == |ids|
  {
    seq(|ids|, k requires 0 <= k < |ids| => ClaimMessage(ids[k], worker, now, before))
  }

  function Held(ids: seq<string>): (r: seq<Task>)
    ensures |r| == |ids|
  {
    seq(|ids|, k requires 0 <= k < |ids| => Task(ids[k], Holding))
  }

  lemma ClaimStep(cfg: Config, w: World, id: string, worker: string, now: int, before: int)
    requires id in w.db.outbox && Claimable(w.db.outbox[id], now, before)
    ensures Claim(w.db, id, worker, now, before).Ok?
    ensures var db := Claim(w.db, id, worker, now, before).value;
      && db.outbox.Keys == w.db.outbox.Keys && (forall a | a in w.db.outbox && a != id :: db.outbox[a] == w.db.outbox[a])
      && Step(cfg, w, ClaimMessage(id, worker, now, before)) ==
           w.(db := db, claims := w.claims + [id], tasks := w.tasks + [Task(id, Holding)])
  {
    hide Claimable;
  }

  /** A claimed batch is a sequence of single claims. */
  lemma {:induction false} BatchIsClaims(cfg: Config, w: World, ids: seq<string>, worker: string, now: int, before: int)
    requires D.Distinct(ids)
    requires forall k | 0 <= k < |ids| :: ids[k] in w.db.outbox && Claimable(w.db.outbox[ids[k]], now, before)
    ensures var w' := Run(cfg, w, ClaimEvents(ids, worker, now, before));
      && w'.db == D.ClaimAll(w.db, ids, worker, now, before)
      && w'.jobs == w.jobs && w'.tasks == w.tasks + Held(ids)
      && w'.db.outbox.Keys == w.db.outbox.Keys
    decreases |ids|
  {
    hide Claimable, Claim, Step;
    if ids != [] {
      var w1 := Step(cfg, w, ClaimMessage(ids[0], worker, now, before));
      ClaimStep(cfg, w, ids[0], worker, now, before);
      BatchIsClaims(cfg, w1, ids[1..], worker, now, before);
      assert ClaimEvents(ids, worker, now, before)[1..] == ClaimEvents(ids[1..], worker, now, before);
      assert w.tasks + Held(ids) == (w.tasks + [Task(ids[0], Holding)]) + Held(ids[1..]);
    }
  }

  function StateTimeout(s: State): nat {
    match s
    case Draft | ProcurementReady => 5 * 60_000
    case Quoting | Evaluating | ExecutionReady => 10 * 60_000
    case AwaitingApproval | AwaitingFinalApproval => 24 * 60 * 60_000
    case ProcurementExecuting | Executing => 15 * 60_000
    case AwaitingDeliveries => 2 * 60 * 60_000
    case Unconfirmed => 30 * 60_000
    case Rejected | Succeeded | Failed | Expired | Cancelled => 0
  }

  predicate Overdue(i: Intent, now: int) {
    !IsTerminal(i.state) && i.updatedAt + StateTimeout(i.state) <= now
  }

  /** When an intent is overdue: five minutes in DRAFT and PROCUREMENT_READY, ten while quotes or evaluations run, a quarter of
      an hour while executing, half an hour unconfirmed, two hours for deliveries, a day for approvals, never when final. */
  lemma OverdueIff(i: Intent, now: int)
    ensures Overdue(i, now) <==>
      var waited := now - i.updatedAt;
      || (i.state in {Draft, ProcurementReady} && waited >= 300_000)
      || (i.state in {Quoting, Evaluating, ExecutionReady} && waited >= 600_000)
      || (i.state in {ProcurementExecuting, Executing} && waited >= 900_000)
      || (i.state == Unconfirmed && waited >= 1_800_000)
      || (i.state == AwaitingDeliveries && waited >= 7_200_000)
      || (i.state in {AwaitingApproval, AwaitingFinalApproval} && waited >= 86_400_000)
  {
  }

  /** What the outside does while a batch is drained: whether publishing the k-th message fails, the clock and the
      random source at its retry. */
  datatype Surroundings = Surroundings(fails: nat -> bool, clock: nat -> int, random: nat -> real)

  /** The first `k` of the claimed messages have been handled. */
  predicate Worked(earlier: seq<Task>, ts: seq<Task>, ids: seq<string>, k: nat) {
    && |ts| == |earlier| + |ids|
    && forall j | 0 <= j < |ids| :: ts[|earlier| + j] == Task(ids[j], if j < k then Over else Holding)
  }

  lemma NothingWorked(earlier: seq<Task>, ids: seq<string>)
    ensures Worked(earlier, earlier + Held(ids), ids, 0)
  {
  }

  lemma WorkedNext(earlier: seq<Task>, ts: seq<Task>, ids: seq<string>, k: nat)
    requires Worked(earlier, ts, ids, k) && k < |ids|
    ensures |earlier| + k < |ts| && ts[|earlier| + k] == Task(ids[k], Holding)
    ensures Worked(earlier, ts[|earlier| + k := Task(ids[k], Over)], ids, k + 1)
  {
  }

  // One message

  predicate Publishes(m: Message, fails: bool) {
    !fails && m.status.Dispatching?
  }

  /** What handling one claimed message leaves in the outbox. */
  function Handled(db: Db, message: string, fails: bool, at: int, maxAttempts: nat): Db
    requires message in db.outbox
  {
    if Publishes(db.outbox[message], fails) then MarkPublished(db, message).value
    else MarkRetry(db, message, at, maxAttempts)
  }

  function HandlingEvents(w: World, task: nat, fails: bool, at: int): seq<Event>
    requires task < |w.tasks| && w.tasks[task].message in w.db.outbox
  {
    if fails then [Retry(task, at)]
    else if Publishes(w.db.outbox[w.tasks[task].message], fails) then [AddJob(task), Publish(task)]
    else [AddJob(task), Retry(task, at)]
  }

  lemma AddJobStep(cfg: Config, w: World, task: nat)
    requires task < |w.tasks| && w.tasks[task].stage.Holding? && w.tasks[task].message in w.db.outbox
    ensures var message := w.tasks[task].message;
      Step(cfg, w, AddJob(task)) ==
        w.(jobs := AddTo(w.jobs, message, w.db.outbox[message]), tasks := w.tasks[task := Task(message, Added)])
  {
    hide OutboxJobId;
  }

  lemma RetryStep(cfg: Config, w: World, task: nat, at: int)
    requires task < |w.tasks| && !w.tasks[task].stage.Over?
    ensures Step(cfg, w, Retry(task, at)) ==
              w.(db := MarkRetry(w.db, w.tasks[task].message, at, cfg.maxAttempts),
                 tasks := w.tasks[task := Task(w.tasks[task].message, Over)])
  {
  }

  lemma PublishStep(cfg: Config, w: World, task: nat)
    requires task < |w.tasks| && w.tasks[task].stage.Added?
    requires MarkPublished(w.db, w.tasks[task].message).Ok?
    ensures Step(cfg, w, Publish(task)) ==
              w.(db := MarkPublished(w.db, w.tasks[task].message).value,
                 tasks := w.tasks[task := Task(w.tasks[task].message, Over)])
  {
  }

  /** Handling one message is a run of its task: the job before the mark, and a retry after any failure. */
  lemma HandlingIsRun(cfg: Config, w: World, task: nat, fails: bool, at: int)
    requires task < |w.tasks| && w.tasks[task].stage.Holding? && w.tasks[task].message in w.db.outbox
    ensures var message := w.tasks[task].message;
      Run(cfg, w, HandlingEvents(w, task, fails, at)) ==
        w.(db := Handled(w.db, message, fails, at, cfg.maxAttempts),
           jobs := if fails then w.jobs else AddTo(w.jobs, message, w.db.outbox[message]),
           tasks := w.tasks[task := Task(message, Over)])
  {
    hide Step, AddTo, MarkRetry, Run;
    var events := HandlingEvents(w, task, fails, at);
    RunNothing(cfg, w);
    RunExtends(cfg, w, [], events[0]);
    assert [] + [events[0]] == [events[0]];
    if fails {
      RetryStep(cfg, w, task, at);
    } else {
      AddJobStep(cfg, w, task);
      var added := Step(cfg, w, events[0]);
      RunExtends(cfg, w, [events[0]], events[1]);
      assert [events[0]] + [events[1]] == events;
      if Publishes(w.db.outbox[w.tasks[task].message], fails) {
        PublishStep(cfg, added, task);
      } else {
        RetryStep(cfg, added, task, at);
      }
      assert added.tasks[task := Task(w.tasks[task].message, Over)] == w.tasks[task := Task(w.tasks[task].message, Over)];
    }
  }

  predicate IsSent(outbox: map<string, Message>, id: string) {
    id in outbox && outbox[id].status.Published?
  }

  /** The messages among the first `k` of a batch that are published. */
  function Sent(outbox: map<string, Message>, ids: seq<string>, k: nat): set<nat>
    requires k <= |ids|
  {
    set j: nat | j < k && IsSent(outbox, ids[j])
  }

  lemma NothingSent(outbox: map<string, Message>, ids: seq<string>)
    ensures Sent(outbox, ids, 0) == {}
  {
  }

  lemma SentGrows(o: map<string, Message>, ids: seq<string>, k: nat)
    requires k < |ids|
    ensures |Sent(o, ids, k + 1)| == |Sent(o, ids, k)| + (if IsSent(o, ids[k]) then 1 else 0)
  {
    hide IsSent;
    assert Sent(o, ids, k + 1) == if IsSent(o, ids[k]) then Sent(o, ids, k) + {k} else Sent(o, ids, k);
  }

  lemma SentSame(o: map<string, Message>, o': map<string, Message>, ids: seq<string>, k: nat)
    requires k <= |ids| && forall j | 0 <= j < k :: IsSent(o', ids[j]) <==> IsSent(o, ids[j])
    ensures Sent(o', ids, k) == Sent(o, ids, k)
  {
    hide IsSent;
  }

  /** Handling one message of a batch leaves the others alone. */
  lemma HandledChanges(db: Db, ids: seq<string>, k: nat, fails: bool, at: int, maxAttempts: nat)
    requires D.Distinct(ids) && k < |ids| && ids[k] in db.outbox && db.outbox[ids[k]].status.Dispatching?
    ensures var outbox := Handled(db, ids[k], fails, at, maxAttempts).outbox;
      && outbox.Keys == db.outbox.Keys
      && !outbox[ids[k]].status.Dispatching?
      && (forall j | 0 <= j < |ids| && j != k && ids[j] in outbox :: outbox[ids[j]] == db.outbox[ids[j]])
      && |Sent(outbox, ids, k + 1)| == |Sent(db.outbox, ids, k)| + (if Publishes(db.outbox[ids[k]], fails) then 1 else 0)
  {
    var outbox := Handled(db, ids[k], fails, at, maxAttempts).outbox;
    hide Sent;
    assert outbox == db.outbox[ids[k] := outbox[ids[k]]];
    assert outbox.Keys == db.outbox.Keys;
    SentSame(db.outbox, outbox, ids, k);
    SentGrows(outbox, ids, k);
  }

  /** What a delivery leaves of a message that was taken from the outbox: one attempt more and no lease; published when its
      job was added, otherwise pending again at the retry time, or dead when it has had all its attempts. */
  predicate Delivered(m: Message, m': Message, fails: bool, at: int, maxAttempts: nat) {
    && SameContent(m, m') && m'.attempts == m.attempts + 1 && m'.lockedAt.None? && m'.lockedBy.None?
    && (if !fails then m'.status.Published? && m'.availableAt == m.availableAt
        else m'.status == (if m.attempts + 1 < maxAttempts then Pending else Dead) && m'.availableAt == at)
  }

  lemma HandledDelivers(db: Db, id: string, m: Message, worker: string, now: int, fails: bool, at: int, maxAttempts: nat)
    requires id in db.outbox && db.outbox[id] == Claimed(m, worker, now)
    ensures var outbox := Handled(db, id, fails, at, maxAttempts).outbox;
      && outbox == db.outbox[id := outbox[id]] && Delivered(m, outbox[id], fails, at, maxAttempts)
  {
  }

  /** The first `k` messages of a batch are delivered, the others leased, and the rest of the outbox is as it was. */
  ghost predicate Progress(o: map<string, Message>, o': map<string, Message>, ids: seq<string>, k: nat, worker: string, now: int,
                           around: Surroundings, maxAttempts: nat)
  {
    && o'.Keys == o.Keys && k <= |ids| && (forall j | 0 <= j < |ids| :: ids[j] in o)
    && (forall a | a in o && a !in ids :: o'[a] == o[a])
    && (forall j | 0 <= j < |ids| ::
          if j < k then Delivered(o[ids[j]], o'[ids[j]], around.fails(j), RetryAt(o[ids[j]], around, j), maxAttempts)
          else o'[ids[j]] == Claimed(o[ids[j]], worker, now))
  }

  /** When message `j` of a batch is retried: the delay for its attempts, counted from the failure. */
  function RetryAt(m: Message, around: Surroundings, j: nat): int {
    around.clock(j) + BoundedBackoff(m.attempts + 1, around.random(j))
  }

  lemma ProgressNext(o: map<string, Message>, db: Db, ids: seq<string>, k: nat, worker: string, now: int, around: Surroundings,
                     maxAttempts: nat, at: int)
    requires D.Distinct(ids) && k < |ids| && Progress(o, db.outbox, ids, k, worker, now, around, maxAttempts)
    requires ids[k] in db.outbox && at == around.clock(k) + BoundedBackoff(db.outbox[ids[k]].attempts, around.random(k))
    ensures Progress(o, Handled(db, ids[k], around.fails(k), at, maxAttempts).outbox, ids, k + 1, worker, now, around, maxAttempts)
  {
    hide Delivered, Handled, BoundedBackoff;
    assert db.outbox[ids[k]] == Claimed(o[ids[k]], worker, now);
    HandledDelivers(db, ids[k], o[ids[k]], worker, now, around.fails(k), at, maxAttempts);
  }

  lemma JobAdded(jobs: map<string, Job>, id: string, m: Message)
    ensures OutboxJobId(id) in AddTo(jobs, id, m) && jobs.Keys <= AddTo(jobs, id, m).Keys
  {
    hide OutboxJobId;
  }

  lemma ProgressStarts(o: map<string, Message>, o': map<string, Message>, ids: seq<string>, worker: string, now: int,
                       around: Surroundings, maxAttempts: nat)
    requires o'.Keys == o.Keys && forall j | 0 <= j < |ids| :: ids[j] in o
    requires forall a | a in o' :: o'[a] == if a in ids then Claimed(o[a], worker, now) else o[a]
    ensures Progress(o, o', ids, 0, worker, now, around, maxAttempts)
  {
    hide Delivered, BoundedBackoff;
  }

  /** What draining needs of a selected batch. */
  lemma BatchFacts(outbox: map<string, Message>, ids: seq<string>, limit: nat, now: int, before: int)
    requires D.EarliestBatch(outbox, ids, limit, now, before)
    ensures D.Distinct(ids)
    ensures forall k | 0 <= k < |ids| :: ids[k] in outbox && Claimable(outbox[ids[k]], now, before)
  {
  }

  /** The next message of a batch, as a continuation of the run. */
  lemma DrainNext(cfg: Config, w: World, events: seq<Event>, ids: seq<string>, k: nat, fails: bool, at: int)
    requires D.Distinct(ids) && k < |ids| && Worked(w.tasks, Run(cfg, w, events).tasks, ids, k)
    requires ids[k] in Run(cfg, w, events).db.outbox && Run(cfg, w, events).db.outbox[ids[k]].status.Dispatching?
    ensures |w.tasks| + k < |Run(cfg, w, events).tasks|
            && Run(cfg, w, events).tasks[|w.tasks| + k] == Task(ids[k], Holding)
    ensures var before := Run(cfg, w, events);
      var after := Run(cfg, w, events + HandlingEvents(before, |w.tasks| + k, fails, at));
      && after.db == Handled(before.db, ids[k], fails, at, cfg.maxAttempts)
      && after.jobs == (if fails then before.jobs else AddTo(before.jobs, ids[k], before.db.outbox[ids[k]]))
      && Worked(w.tasks, after.tasks, ids, k + 1)
  {
    hide Run, D.Distinct, Worked, Handled, AddTo, HandlingEvents;
    var before := Run(cfg, w, events);
    WorkedNext(w.tasks, before.tasks, ids, k);
    HandlingIsRun(cfg, before, |w.tasks| + k, fails, at);
    RunSplit(cfg, w, events, HandlingEvents(before, |w.tasks| + k, fails, at));
  }

  /** The first `k` messages of a batch have been handled, and the others are still leased. */
  ghost predicate Draining(cfg: Config, w: World, events: seq<Event>, ids: seq<string>, k: nat) {
    var now := Run(cfg, w, events);
    && D.Distinct(ids) && k <= |ids| && Worked(w.tasks, now.tasks, ids, k)
    && forall j | 0 <= j < |ids| :: ids[j] in now.db.outbox && (now.db.outbox[ids[j]].status.Dispatching? <==> k <= j)
  }

  lemma DrainHead(cfg: Config, w: World, events: seq<Event>, ids: seq<string>, k: nat)
    requires Draining(cfg, w, events, ids, k) && k < |ids|
    ensures ids[k] in Run(cfg, w, events).db.outbox
  {
    hide Run, Worked, D.Distinct;
  }

  lemma DrainStep(cfg: Config, w: World, events: seq<Event>, ids: seq<string>, k: nat, fails: bool, at: int)
    requires Draining(cfg, w, events, ids, k) && k < |ids|
    ensures var before := Run(cfg, w, events);
      && ids[k] in before.db.outbox && before.db.outbox[ids[k]].status.Dispatching?
      && |w.tasks| + k < |before.tasks| && before.tasks[|w.tasks| + k].message == ids[k]
      && var next := events + HandlingEvents(before, |w.tasks| + k, fails, at);
      var after := Run(cfg, w, next);
      && Draining(cfg, w, next, ids, k + 1)
      && after.db == Handled(before.db, ids[k], fails, at, cfg.maxAttempts)
      && after.jobs == (if fails then before.jobs else AddTo(before.jobs, ids[k], before.db.outbox[ids[k]]))
      && |Sent(after.db.outbox, ids, k + 1)|
         == |Sent(before.db.outbox, ids, k)| + (if Publishes(before.db.outbox[ids[k]], fails) then 1 else 0)
  {
    hide Run, D.Distinct, Worked, Handled, AddTo, HandlingEvents, Sent, Publishes;
    HandledChanges(Run(cfg, w, events).db, ids, k, fails, at, cfg.maxAttempts);
    DrainNext(cfg, w, events, ids, k, fails, at);
  }

  /** A claimed batch is ready to be drained. */
  lemma DrainStart(cfg: Config, w: World, ids: seq<string>, worker: string, now: int, before: int, outbox: map<string, Message>)
    requires D.Distinct(ids)
    requires forall k | 0 <= k < |ids| :: ids[k] in w.db.outbox && Claimable(w.db.outbox[ids[k]], now, before)
    requires outbox == D.ClaimAll(w.db, ids, worker, now, before).outbox
    requires forall a | a in outbox :: a in w.db.outbox
               && outbox[a] == if a in ids then Claimed(w.db.outbox[a], worker, now) else w.db.outbox[a]
    ensures var events := ClaimEvents(ids, worker, now, before);
      var w' := Run(cfg, w, events);
      Draining(cfg, w, events, ids, 0) && w'.db == D.ClaimAll(w.db, ids, worker, now, before) && w'.jobs == w.jobs
  {
    hide Run, D.Distinct, D.ClaimAll, Worked, ClaimEvents, Held, Claimable, Claimed;
    BatchIsClaims(cfg, w, ids, worker, now, before);
    NothingWorked(w.tasks, ids);
    ClaimedIsLeased(w.db.outbox, outbox, ids, worker, now);
  }

  lemma DrainEnd(cfg: Config, w: World, events: seq<Event>, ids: seq<string>)
    requires Draining(cfg, w, events, ids, |ids|)
    ensures var now := Run(cfg, w, events);
      && Worked(w.tasks, now.tasks, ids, |ids|)
      && forall k | 0 <= k < |ids| :: ids[k] in now.db.outbox && !now.db.outbox[ids[k]].status.Dispatching?
  {
    hide Run, Worked, D.Distinct;
  }

  lemma ClaimedIsLeased(o: map<string, Message>, o': map<string, Message>, ids: seq<string>, worker: string, now: int)
    requires forall k | 0 <= k < |ids| :: ids[k] in o'
    requires forall a | a in o' :: a in o && o'[a] == if a in ids then Claimed(o[a], worker, now) else o[a]
    ensures forall k | 0 <= k < |ids| :: o'[ids[k]].status.Dispatching?
  {
  }

  /** `OutboxPublisherResult` */
  datatype Drained = Drained(claimed: nat, published: nat, failed: nat)

  // Reconciliation

  predicate Unmoved(intents: map<string, Intent>, read: Intent) {
    read.id in intents && intents[read.id].stateVersion == read.stateVersion
  }

  /** The positions among the first `k` whose intent is overdue. */
  function Due(active: seq<Intent>, k: nat, now: int): set<nat>
    requires k <= |active|
  {
    set j: nat | j < k && Overdue(active[j], now)
  }

  lemma DueNext(active: seq<Intent>, k: nat, now: int)
    requires k < |active|
    ensures Due(active, k + 1, now) == Due(active, k, now) + (if Overdue(active[k], now) then {k} else {})
    ensures |Due(active, k + 1, now)| == |Due(active, k, now)| + (if Overdue(active[k], now) then 1 else 0)
  {
    assert Due(active, k + 1, now) == Due(active, k, now) + (if Overdue(active[k], now) then {k} else {});
  }

  ghost predicate NewIds(outbox: map<string, Message>, newId: nat -> string) {
    && (forall i: nat, j: nat | i < j :: newId(i) != newId(j))
    && (forall j: nat :: newId(j) !in outbox)
  }

  /** After `k` intents of a pass with new ids: only the first `k` ids were added, and every overdue intent that has
      not moved has its message. */
  ghost predicate Covered(intents: map<string, Intent>, known: map<string, Message>, outbox: map<string, Message>,
                          active: seq<Intent>, newId: nat -> string, k: nat, now: int)
    requires k <= |active|
  {
    && (forall a | a in outbox && a !in known :: exists j: nat | j < k :: a == newId(j))
    && (forall j | j in Due(active, k, now) && Unmoved(intents, active[j]) ::
          Reconciles(outbox, intents[active[j].id]))
  }

  lemma NothingDue(intents: map<string, Intent>, db: Db, before: int, active: seq<Intent>, newId: nat -> string, now: int)
    ensures Due(active, 0, now) == {}
    ensures |RequeueExpired(db, before).outbox| == |db.outbox|
    ensures Covered(intents, db.outbox, RequeueExpired(db, before).outbox, active, newId, 0, now)
  {
    hide LeaseExpired;
    var after := RequeueExpired(db, before).outbox;
    assert after.Keys == db.outbox.Keys;
    assert |after| == |after.Keys| && |db.outbox| == |db.outbox.Keys|;
  }

  /** One overdue intent keeps the pass covered: its message is there already or is added under an unused id. */
  lemma CoveredNext(intents: map<string, Intent>, known: map<string, Message>, o: map<string, Message>, o': map<string, Message>,
                    active: seq<Intent>, newId: nat -> string, k: nat, now: int)
    requires NewIds(known, newId) && k < |active| && Covered(intents, known, o, active, newId, k, now)
    requires Overdue(active[k], now)
    requires forall a | a in o :: a in o' && o'[a] == o[a]
    requires o'.Keys <= o.Keys + {newId(k)}
    requires Unmoved(intents, active[k]) && newId(k) !in o ==> Reconciles(o', intents[active[k].id])
    ensures Covered(intents, known, o', active, newId, k + 1, now)
  {
    hide Overdue;
    DueNext(active, k, now);
    assert newId(k) !in o;
    forall j | j in Due(active, k + 1, now) && Unmoved(intents, active[j])
      ensures Reconciles(o', intents[active[j].id])
    {
      if j != k {
        var a :| a in o && o[a].origin == Reconciled(intents[active[j].id].id, intents[active[j].id].stateVersion);
        assert a in o' && o'[a] == o[a];
      }
    }
  }

  /** What the transaction for one overdue intent does to the outbox: a message exactly when the intent still has the
      version that was read, its id is unused and there is no reconcile message for that version. */
  predicate OneReconciled(intents: map<string, Intent>, o: map<string, Message>, o': map<string, Message>,
                          read: Intent, outboxId: string, traceId: string, now: int, created: bool) {
    && (created <==> Unmoved(intents, read) && outboxId !in o && !Reconciles(o, intents[read.id]))
    && o' == if created then o[outboxId := ReconcileMessage(intents[read.id], traceId, now)] else o
  }

  lemma PassNext(intents: map<string, Intent>, known: map<string, Message>, o: map<string, Message>, o': map<string, Message>,
                 active: seq<Intent>, newId: nat -> string, k: nat, now: int, traceId: string, made: bool)
    requires k < |active| && Overdue(active[k], now)
    requires OneReconciled(intents, o, o', active[k], newId(k), traceId, now, made)
    ensures |o'| == |o| + (if made then 1 else 0)
    ensures NewIds(known, newId) && Covered(intents, known, o, active, newId, k, now) ==>
              Covered(intents, known, o', active, newId, k + 1, now)
  {
    hide Overdue, NewIds, Covered, Reconciles, ReconcileMessage;
    if made {
      ReconcileAdds(o, newId(k), intents[active[k].id], traceId, now);
    }
    if NewIds(known, newId) && Covered(intents, known, o, active, newId, k, now) {
      CoveredNext(intents, known, o, o', active, newId, k, now);
    }
  }

  lemma ReconcileAdds(o: map<string, Message>, id: string, i: Intent, traceId: string, now: int)
    requires id !in o
    ensures |o[id := ReconcileMessage(i, traceId, now)]| == |o| + 1
    ensures Reconciles(o[id := ReconcileMessage(i, traceId, now)], i)
  {
    var o' := o[id := ReconcileMessage(i, traceId, now)];
    assert o'.Keys == o.Keys + {id};
    assert |o'| == |o'.Keys| && |o| == |o.Keys|;
    assert o'[id].origin == Reconciled(i.id, i.stateVersion);
  }

  /** An intent that is not overdue changes nothing. */
  lemma CoveredSkip(intents: map<string, Intent>, known: map<string, Message>, o: map<string, Message>,
                    active: seq<Intent>, newId: nat -> string, k: nat, now: int)
    requires k < |active| && Covered(intents, known, o, active, newId, k, now) && !Overdue(active[k], now)
    ensures Covered(intents, known, o, active, newId, k + 1, now)
  {
    hide Overdue, Unmoved, Due, Reconciles;
    DueNext(active, k, now);
  }

  lemma AllCovered(intents: map<string, Intent>, known: map<string, Message>, o: map<string, Message>,
                   active: seq<Intent>, newId: nat -> string, now: int)
    requires Covered(intents, known, o, active, newId, |active|, now)
    ensures forall k | k in Due(active, |active|, now) && Unmoved(intents, active[k]) ::
              Reconciles(o, intents[active[k].id])
  {
  }

  /** What a pass leaves in the outbox: the rows that were there, released where their lease had expired, and for new rows
      the reconcile message, made now, of an intent of the list that is overdue and has not moved. */
  ghost predicate Passed(intents: map<string, Intent>, known: map<string, Message>, outbox: map<string, Message>,
                         active: seq<Intent>, newId: nat -> string, trace: nat -> string, k: nat, now: int, before: int)
    requires k <= |active|
  {
    && (forall a | a in known :: a in outbox && outbox[a] == if LeaseExpired(known[a], before) then Released(known[a]) else known[a])
    && (forall a | a in outbox && a !in known :: exists j: nat | j < k ::
          && a == newId(j) && Overdue(active[j], now) && Unmoved(intents, active[j])
          && outbox[a] == ReconcileMessage(intents[active[j].id], trace(j), now))
  }

  lemma PassedStarts(intents: map<string, Intent>, db: Db, active: seq<Intent>, newId: nat -> string, trace: nat -> string,
                     now: int, before: int)
    ensures Passed(intents, db.outbox, RequeueExpired(db, before).outbox, active, newId, trace, 0, now, before)
  {
    hide LeaseExpired, Released;
  }

  lemma PassedNext(intents: map<string, Intent>, known: map<string, Message>, o: map<string, Message>, o': map<string, Message>,
                   active: seq<Intent>, newId: nat -> string, trace: nat -> string, k: nat, now: int, before: int, made: bool)
    requires k < |active| && Passed(intents, known, o, active, newId, trace, k, now, before)
    requires if Overdue(active[k], now) then OneReconciled(intents, o, o', active[k], newId(k), trace(k), now, made) else o' == o
    ensures Passed(intents, known, o', active, newId, trace, k + 1, now, before)
  {
    hide LeaseExpired, Released, Overdue, ReconcileMessage, Reconciles;
    forall a | a in o' && a !in known
      ensures exists j: nat | j < k + 1 ::
        && a == newId(j) && Overdue(active[j], now) && Unmoved(intents, active[j])
        && o'[a] == ReconcileMessage(intents[active[j].id], trace(j), now)
    {
      if a in o {
        var j: nat :| j < k && a == newId(j) && Overdue(active[j], now) && Unmoved(intents, active[j])
          && o[a] == ReconcileMessage(intents[active[j].id], trace(j), now);
        assert o'[a] == o[a];
      } else {
        assert a == newId(k);
      }
    }
  }

  lemma RequeueStep(cfg: Config, w: World, id: string, before: int)
    ensures Step(cfg, w, RequeueLease(id, before)) == w.(db := Requeue(w.db, id, before))
  {
    hide Requeue;
  }

  lemma AllReleased(db: Db, db': Db, before: int)
    requires db'.intents == db.intents && db'.audit == db.audit && db'.inbox == db.inbox && db'.outbox.Keys == db.outbox.Keys
    requires forall a | a in db.outbox ::
               db'.outbox[a] == if LeaseExpired(db.outbox[a], before) then Released(db.outbox[a]) else db.outbox[a]
    ensures db' == RequeueExpired(db, before)
  {
    hide LeaseExpired, Released;
    assert db'.outbox == RequeueExpired(db, before).outbox;
  }

  class Worker {
    const db: D.Database
    const id: string
    const maxAttempts: nat
    var jobs: map<string, Job>

    constructor (db: D.Database, id: string, maxAttempts: nat)
      ensures this.db == db && this.id == id && this.maxAttempts == maxAttempts && jobs == map[]
    {
      this.db, this.id, this.maxAttempts, jobs := db, id, maxAttempts, map[];
    }

    /** The world this worker is part of. */
    ghost predicate Shows(w: World)
      reads this, db
    {
      w.db == db.Snapshot() && w.jobs == jobs
    }

    /** Adding a job whose id the queue knows does nothing. */
    method AddToQueue(outboxId: string, m: Message)
      modifies this`jobs
      ensures jobs == AddTo(old(jobs), outboxId, m)
    {
      if OutboxJobId(outboxId) !in jobs {
        jobs := jobs[OutboxJobId(outboxId) := JobOf(outboxId, m)];
      }
    }

    /** One claimed message: add its job, mark it published; any failure schedules a retry. */
    method PublishOne(message: string, fails: bool, now: int, random: real) returns (published: bool)
      requires message in db.outbox
      modifies this`jobs, db`outbox
      ensures published == Publishes(old(db.outbox)[message], fails)
      ensures jobs == if fails then old(jobs) else AddTo(old(jobs), message, old(db.outbox)[message])
      ensures db.Snapshot() == Handled(old(db.Snapshot()), message, fails,
                                       now + BoundedBackoff(old(db.outbox)[message].attempts, random), maxAttempts)
    {
      hide OutboxJobId, BoundedBackoff;
      var m := db.outbox[message];
      if !fails {
        AddToQueue(message, m);
        var marked := db.MarkPublished(message);
        if marked.Ok? {
          return true;
        }
      }
      db.MarkRetry(message, now + BoundedBackoff(m.attempts, random), maxAttempts);
      return false;
    }

    /** Claim a batch and publish it message by message. The counts say how many of the batch ended published and
        how many did not. */
    method DrainOnce(ghost cfg: Config, ghost w: World, limit: int, now: int, leaseMs: nat, around: Surroundings)
      returns (r: Result<Drained, ()>, ghost batch: seq<string>, ghost events: seq<Event>)
      requires Shows(w) && cfg.maxAttempts == maxAttempts
      modifies this`jobs, db`outbox
      ensures Shows(Run(cfg, w, events))
      ensures r.Err? <==> limit < 1 || limit > 100
      ensures r.Err? ==> Run(cfg, w, events) == w
      ensures r.Ok? ==> D.EarliestBatch(old(db.outbox), batch, limit, now, now - leaseMs)
      ensures r.Ok? ==> Worked(w.tasks, Run(cfg, w, events).tasks, batch, |batch|)
      ensures r.Ok? ==> r.value.claimed == |batch| == r.value.published + r.value.failed
      ensures r.Ok? ==> r.value.published == |Sent(db.outbox, batch, |batch|)|
      ensures r.Ok? ==> forall k | 0 <= k < |batch| :: batch[k] in db.outbox && !db.outbox[batch[k]].status.Dispatching?
      ensures r.Ok? ==> Progress(old(db.outbox), db.outbox, batch, |batch|, id, now, around, maxAttempts)
      ensures r.Ok? ==> forall k | 0 <= k < |batch| && !around.fails(k) :: OutboxJobId(batch[k]) in jobs
    {
      hide Run, Claimable, D.ClaimAll, D.Distinct, D.EarliestBatch, Worked, Handled, Sent, BoundedBackoff, ClaimEvents,
           HandlingEvents, AddTo, Claimed, Publishes, Draining, Progress, OutboxJobId;
      var claim := db.ClaimBatch(id, limit, now, now - leaseMs);
      if claim.Err? {
        RunNothing(cfg, w);
        return Err(()), [], [];
      }
      var ids := claim.value;
      BatchFacts(old(db.outbox), ids, limit, now, now - leaseMs);
      DrainStart(cfg, w, ids, id, now, now - leaseMs, db.outbox);
      batch, events := ids, ClaimEvents(ids, id, now, now - leaseMs);
      NothingSent(db.outbox, ids);
      ProgressStarts(old(db.outbox), db.outbox, ids, id, now, around, maxAttempts);
      var published, failed := 0, 0;
      var k := 0;
      while k < |ids|
        invariant 0 <= k <= |ids| && published + failed == k
        invariant published == |Sent(db.outbox, ids, k)|
        invariant Shows(Run(cfg, w, events)) && Draining(cfg, w, events, ids, k)
        invariant Progress(old(db.outbox), db.outbox, ids, k, id, now, around, maxAttempts)
        invariant forall j | 0 <= j < k && !around.fails(j) :: OutboxJobId(ids[j]) in jobs
      {
        DrainHead(cfg, w, events, ids, k);
        var at := around.clock(k) + BoundedBackoff(db.outbox[ids[k]].attempts, around.random(k));
        DrainStep(cfg, w, events, ids, k, around.fails(k), at);
        assert D.Distinct(ids);
        JobAdded(jobs, ids[k], db.outbox[ids[k]]);
        ProgressNext(old(db.outbox), db.Snapshot(), ids, k, id, now, around, maxAttempts, at);
        events := events + HandlingEvents(Run(cfg, w, events), |w.tasks| + k, around.fails(k), at);
        var ok := PublishOne(ids[k], around.fails(k), around.clock(k), around.random(k));
        if ok {
          published := published + 1;
        } else {
          failed := failed + 1;
        }
        k := k + 1;
      }
      DrainEnd(cfg, w, events, ids);
      return Ok(Drained(|ids|, published, failed)), ids, events;
    }

    /** Release expired leases, one row after the other. */
    method RequeueExpiredLeases(ghost cfg: Config, ghost w: World, before: int)
      returns (reclaimed: nat, ghost events: seq<Event>)
      requires Shows(w)
      modifies db`outbox
      ensures Shows(Run(cfg, w, events)) && Run(cfg, w, events).tasks == w.tasks
      ensures db.Snapshot() == RequeueExpired(old(db.Snapshot()), before)
      ensures reclaimed == |set a | a in old(db.outbox) && LeaseExpired(old(db.outbox)[a], before)|
    {
      hide Run, LeaseExpired, Released, Step, RequeueExpired;
      var due := set a | a in db.outbox && LeaseExpired(db.outbox[a], before);
      var left := due;
      reclaimed, events := 0, [];
      assert Run(cfg, w, []) == w by { RunNothing(cfg, w); }
      while left != {}
        invariant left <= due && reclaimed + |left| == |due|
        invariant Shows(Run(cfg, w, events)) && Run(cfg, w, events).tasks == w.tasks
        invariant db.outbox.Keys == old(db.outbox).Keys
        invariant forall a | a in db.outbox ::
                    db.outbox[a] == if a in due && a !in left then Released(old(db.outbox)[a]) else old(db.outbox)[a]
        decreases |left|
      {
        var a :| a in left;
        reclaimed := reclaimed + 1;
        RunExtends(cfg, w, events, RequeueLease(a, before));
        RequeueStep(cfg, Run(cfg, w, events), a, before);
        events := events + [RequeueLease(a, before)];
        db.Requeue(a, before);
        left := left - {a};
      }
      AllReleased(old(db.Snapshot()), db.Snapshot(), before);
    }

    /** The reconciler's transaction for one overdue intent. */
    method ReconcileOne(ghost cfg: Config, ghost w: World, candidate: Intent, outboxId: string, traceId: string, now: int)
      returns (created: bool, ghost events: seq<Event>)
      requires Shows(w)
      modifies db`outbox
      ensures Shows(Run(cfg, w, events)) && Run(cfg, w, events).tasks == w.tasks
      ensures OneReconciled(db.intents, old(db.outbox), db.outbox, candidate, outboxId, traceId, now, created)
    {
      hide KeyText;
      events := [ReconcileIntent(candidate.id, candidate.stateVersion, outboxId, traceId, now)];
      RunExtends(cfg, w, [], events[0]);
      assert [] + events == events;
      if candidate.id !in db.intents || db.intents[candidate.id].stateVersion != candidate.stateVersion {
        return false, events;
      }
      KeyTaken(db.outbox, db.intents[candidate.id]);
      var r := db.Enqueue(outboxId, ReconcileMessage(db.intents[candidate.id], traceId, now));
      created := r.Ok? && r.value;
    }

    /** One reconciliation pass: expired leases, then every overdue intent of the list that was read. With new message
        ids, every overdue intent that has not moved has its message afterwards. */
    method RunOnce(ghost cfg: Config, ghost w: World, active: seq<Intent>, now: int, leaseMs: nat,
                   newId: nat -> string, trace: nat -> string)
      returns (reclaimed: nat, overdue: nat, created: nat, ghost events: seq<Event>)
      requires Shows(w)
      modifies db`outbox
      ensures Shows(Run(cfg, w, events)) && Run(cfg, w, events).tasks == w.tasks
      ensures reclaimed == |set a | a in old(db.outbox) && LeaseExpired(old(db.outbox)[a], now - leaseMs)|
      ensures overdue == |Due(active, |active|, now)|
      ensures created + |old(db.outbox)| == |db.outbox| && created <= overdue
      ensures NewIds(old(db.outbox), newId) ==>
                forall k | k in Due(active, |active|, now) && Unmoved(db.intents, active[k]) ::
                  Reconciles(db.outbox, db.intents[active[k].id])
      ensures Passed(db.intents, old(db.outbox), db.outbox, active, newId, trace, |active|, now, now - leaseMs)
    {
      hide Run, RequeueExpired, Overdue, Due, NewIds, LeaseExpired, Covered, OneReconciled, Unmoved, Reconciles, Passed;
      ghost var start := db.outbox;
      reclaimed, events := RequeueExpiredLeases(cfg, w, now - leaseMs);
      NothingDue(db.intents, old(db.Snapshot()), now - leaseMs, active, newId, now);
      PassedStarts(db.intents, old(db.Snapshot()), active, newId, trace, now, now - leaseMs);
      overdue, created := 0, 0;
      var k := 0;
      while k < |active|
        invariant 0 <= k <= |active| && created <= overdue == |Due(active, k, now)|
        invariant created + |start| == |db.outbox|
        invariant Shows(Run(cfg, w, events)) && Run(cfg, w, events).tasks == w.tasks
        invariant NewIds(start, newId) ==> Covered(db.intents, start, db.outbox, active, newId, k, now)
        invariant Passed(db.intents, start, db.outbox, active, newId, trace, k, now, now - leaseMs)
      {
        DueNext(active, k, now);
        ghost var earlier, one := db.outbox, false;
        if Overdue(active[k], now) {
          overdue := overdue + 1;
          var made; ghost var done;
          made, done := ReconcileOne(cfg, Run(cfg, w, events), active[k], newId(k), trace(k), now);
          RunSplit(cfg, w, events, done);
          events := events + done;
          PassNext(db.intents, start, earlier, db.outbox, active, newId, k, now, trace(k), made);
          one := made;
          if made {
            created := created + 1;
          }
        } else if NewIds(start, newId) {
          CoveredSkip(db.intents, start, db.outbox, active, newId, k, now);
        }
        PassedNext(db.intents, start, earlier, db.outbox, active, newId, trace, k, now, now - leaseMs, one);
        k := k + 1;
      }
      if NewIds(start, newId) {
        AllCovered(db.intents, start, db.outbox, active, newId, now);
      }
    }

    /** The writes of a handler, one after the other; the first that fails undoes them all. */
    method Perform(ghost cfg: Config, ghost w: World, hash: Intent -> string, work: seq<Write>) returns (ok: bool)
      requires Shows(w) && hash == cfg.hash
      modifies db
      ensures match WriteAll(cfg, w, work)
              case None => !ok && db.Snapshot() == old(db.Snapshot())
              case Some(w') => ok && db.Snapshot() == w'.db && w'.jobs == w.jobs
    {
      hide WriteOne, WriteAll;
      var backup := db.Snapshot();
      ghost var now := w;
      WrittenNothing(cfg, w);
      var k := 0;
      while k < |work|
        invariant 0 <= k <= |work|
        invariant WriteAll(cfg, w, work[..k]) == Some(now) && now.db == db.Snapshot() && now.jobs == w.jobs
      {
        WrittenNext(cfg, w, work, k);
        var done := PerformOne(cfg, now, hash, work[k]);
        if !done {
          WrittenNot(cfg, w, work, k + 1);
          db.Rollback(backup);
          return false;
        }
        now := WriteOne(cfg, now, work[k]).value;
        k := k + 1;
      }
      assert work[..k] == work;
      return true;
    }

    method PerformOne(ghost cfg: Config, ghost w: World, hash: Intent -> string, x: Write) returns (ok: bool)
      requires Shows(w) && hash == cfg.hash
      modifies db
      ensures match WriteOne(cfg, w, x)
              case None => !ok && db.Snapshot() == old(db.Snapshot())
              case Some(w') => ok && db.Snapshot() == w'.db && w'.jobs == w.jobs
    {
      hide ApplyTransitionWithOutbox, TransitionIntent, Ingest;
      match x
      case Move(id, c, outboxId, next, at) =>
        if id !in db.intents {
          return false;
        }
        var moved := TransitionIntent(hash, db.intents[id], c);
        if moved.Err? {
          return false;
        }
        var r := db.ApplyTransitionWithOutbox(moved.value.1, outboxId, next, at);
        if r.Ok? {
          AppliedPresent(w.db, moved.value.1, outboxId, next, at);
        }
        return r.Ok?;
      case Receive(source, key, job, now) =>
        var r := db.Ingest(source, key, job, now);
        return r.Ok?;
    }

    /** The locked processor. Its handler runs exactly when the stored intent is at the job's state and version. */
    method ProcessJob(ghost cfg: Config, ghost w: World, jobId: string, hash: Intent -> string, handler: Intent -> seq<Write>)
      returns (ran: bool, ghost events: seq<Event>)
      requires Shows(w) && jobId in jobs && hash == cfg.hash
      modifies db
      ensures ran <==> Current(w, w.jobs[jobId])
      ensures ran ==> events == [Process(jobId, handler(old(db.intents)[jobs[jobId].intentId]))]
      ensures Run(cfg, w, events).db == db.Snapshot() && Run(cfg, w, events).jobs == jobs
      ensures !ran ==> events == [] && db.Snapshot() == old(db.Snapshot())
    {
      hide WriteAll;
      var job := jobs[jobId];
      RunNothing(cfg, w);
      if job.intentId !in db.intents {
        return false, [];
      }
      var intent := db.intents[job.intentId];
      if intent.state != job.state || intent.stateVersion != job.stateVersion {
        return false, [];
      }
      var work := handler(intent);
      events := [Process(jobId, work)];
      RunExtends(cfg, w, [], events[0]);
      assert [] + events == events;
      var _ := Perform(cfg, w, hash, work);
      return true, events;
    }
  }

  lemma WrittenNothing(cfg: Config, w: World)
    ensures WriteAll(cfg, w, []) == Some(w)
  {
  }

  lemma {:induction false} WrittenNext(cfg: Config, w: World, work: seq<Write>, k: nat)
    requires k < |work| && WriteAll(cfg, w, work[..k]).Some?
    ensures WriteAll(cfg, w, work[..k + 1]) == WriteOne(cfg, WriteAll(cfg, w, work[..k]).value, work[k])
    decreases k
  {
    hide WriteOne;
    if k == 0 {
      var first := WriteOne(cfg, w, work[0]);
      assert work[..1][1..] == [];
      if first.Some? {
        WrittenNothing(cfg, first.value);
      }
    } else {
      assert work[..k][1..] == work[1..][..k - 1] && work[..k + 1][1..] == work[1..][..k];
      WrittenNext(cfg, WriteOne(cfg, w, work[0]).value, work[1..], k - 1);
    }
  }

  /** Nothing comes of the writes behind one that failed. */
  lemma {:induction false} WrittenNot(cfg: Config, w: World, work: seq<Write>, k: nat)
    requires k <= |work| && WriteAll(cfg, w, work[..k]).None?
    ensures WriteAll(cfg, w, work).None?
    decreases k
  {
    hide WriteOne;
    if k > 0 && WriteOne(cfg, w, work[0]).Some? {
      assert work[..k][1..] == work[1..][..k - 1];
      WrittenNot(cfg, WriteOne(cfg, w, work[0]).value, work[1..], k - 1);
    }
  }
}
