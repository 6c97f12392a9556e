/** The life of one lease (packages/database/src/repositories.ts, the outbox): who may take a message when, what a claim
    writes, and what is left after an expiry, a retry or a publication. */
module Leases {
  import opened Results
  import opened MessageKeys
  import opened CoordinatorStore
  import opened Coordinator

  /** A pending message whose time has come, or a leased one whose lease has expired. */
  predicate Due(m: Message, now: int, before: int) {
    || (m.status == Pending && m.availableAt <= now)
    || (m.status == Dispatching && m.lockedAt.Some? && m.lockedAt.value < before)
  }

  /** From w to w', only this message of the outbox is different, and only in its lease fields. */
  predicate OnlyLease(w: World, w': World, id: string) {
    && id in w.db.outbox && id in w'.db.outbox
    && w'.db == w.db.(outbox := w.db.outbox[id := w'.db.outbox[id]])
    && SameContent(w.db.outbox[id], w'.db.outbox[id])
  }

  predicate Free(m: Message) {
    m.lockedAt == None && m.lockedBy == None
  }

  /** A claim: exactly a due message is leased, to this worker, from now on, with one more attempt. */
  predicate Leases(w: World, w': World, id: string, worker: string, now: int, before: int) {
    if id in w.db.outbox && Due(w.db.outbox[id], now, before) then
      && OnlyLease(w, w', id)
      && var m, m' := w.db.outbox[id], w'.db.outbox[id];
      && m'.status == Dispatching && m'.lockedAt == Some(now) && m'.lockedBy == Some(worker)
      && m'.attempts == m.attempts + 1 && m'.availableAt == m.availableAt
      && w'.tasks == w.tasks + [Task(id, Holding)] && w'.claims == w.claims + [id]
    else w' == w
  }

  lemma ClaimLeases(cfg: Config, w: World, id: string, worker: string, now: int, before: int)
    ensures Leases(w, Step(cfg, w, ClaimMessage(id, worker, now, before)), id, worker, now, before)
  {
  }

  /** The release of an expired lease: the message is pending again, due since it was, and keeps its count of attempts. */
  predicate Releases(w: World, w': World, id: string, before: int) {
    if id in w.db.outbox && w.db.outbox[id].status == Dispatching && w.db.outbox[id].lockedAt.Some?
       && w.db.outbox[id].lockedAt.value < before then
      && OnlyLease(w, w', id)
      && var m, m' := w.db.outbox[id], w'.db.outbox[id];
      && m'.status == Pending && Free(m') && m'.attempts == m.attempts && m'.availableAt == m.availableAt
    else w' == w
  }

  lemma RequeueReleases(cfg: Config, w: World, id: string, before: int)
    ensures Releases(w, Step(cfg, w, RequeueLease(id, before)), id, before)
  {
  }

  /** A lease holds until it expires: once a claim has succeeded, another claim or a release takes effect exactly when its
      expiry limit lies after the time of the claim. */
  lemma LeaseHolds(cfg: Config, w: World, id: string, worker: string, now: int, before: int, other: string, later: int, limit: int)
    requires id in w.db.outbox && Due(w.db.outbox[id], now, before)
    ensures var leased := Step(cfg, w, ClaimMessage(id, worker, now, before));
      && (Step(cfg, leased, ClaimMessage(id, other, later, limit)) != leased <==> now < limit)
      && (Step(cfg, leased, RequeueLease(id, limit)) != leased <==> now < limit)
  {
    hide Step, Due;
    var leased := Step(cfg, w, ClaimMessage(id, worker, now, before));
    ClaimLeases(cfg, w, id, worker, now, before);
    ClaimLeases(cfg, leased, id, other, later, limit);
    RequeueReleases(cfg, leased, id, limit);
    LeasedIsDue(leased.db.outbox[id], now, later, limit);
  }

  lemma LeasedIsDue(m: Message, now: int, later: int, limit: int)
    requires m.status == Dispatching && m.lockedAt == Some(now)
    ensures Due(m, later, limit) <==> now < limit
  {
  }

  /** A failed delivery: the leased message is pending again from the given time on, or dead once it has had all its
      attempts; a message that is not leased stays. */
  predicate GivesBack(cfg: Config, w: World, w': World, id: string, at: int) {
    if id in w.db.outbox && w.db.outbox[id].status == Dispatching then
      && OnlyLease(w, w', id)
      && var m, m' := w.db.outbox[id], w'.db.outbox[id];
      && Free(m') && m'.attempts == m.attempts && m'.availableAt == at
      && m'.status == (if m.attempts < cfg.maxAttempts then Pending else Dead)
    else w'.db == w.db
  }

  lemma RetryGivesBack(cfg: Config, w: World, task: nat, at: int)
    requires task < |w.tasks| && !w.tasks[task].stage.Over?
    ensures GivesBack(cfg, w, Step(cfg, w, Retry(task, at)), w.tasks[task].message, at)
  {
  }

  /** A message that was given back with attempts left is taken exactly from its retry time on. */
  lemma RetryIsDue(cfg: Config, w: World, task: nat, at: int, now: int, before: int)
    requires task < |w.tasks| && !w.tasks[task].stage.Over?
    requires var id := w.tasks[task].message;
      id in w.db.outbox && w.db.outbox[id].status == Dispatching && w.db.outbox[id].attempts < cfg.maxAttempts
    ensures var id, w' := w.tasks[task].message, Step(cfg, w, Retry(task, at));
      id in w'.db.outbox && (Due(w'.db.outbox[id], now, before) <==> at <= now)
  {
    hide Step;
    RetryGivesBack(cfg, w, task, at);
  }

  /** A publication: exactly a leased message whose job was added becomes published, and its lease ends. */
  lemma PublishEnds(cfg: Config, w: World, task: nat)
    requires task < |w.tasks| && w.tasks[task].stage.Added?
    ensures var id, w' := w.tasks[task].message, Step(cfg, w, Publish(task));
      if id in w.db.outbox && w.db.outbox[id].status == Dispatching then
        && OnlyLease(w, w', id) && w'.db.outbox[id].status == Published && Free(w'.db.outbox[id])
        && w'.db.outbox[id].attempts == w.db.outbox[id].attempts
      else w' == w
  {
  }
}
