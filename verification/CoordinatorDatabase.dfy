/** The coordinator's tables as mutable state, each operation proved equal to its specification on values
    (packages/database/src/repositories.ts). */
module CoordinatorDatabase {
  import opened Results
  import opened IntentStates
  import opened MessageKeys
  import opened CoordinatorStore

  /** Claims applied one after the other. */
  function ClaimAll(db: Db, ids: seq<string>, worker: string, now: int, before: int): Db
    decreases |ids|
  {
    if ids == [] then db
    else
      match Claim(db, ids[0], worker, now, before)
      case Err(_) => ClaimAll(db, ids[1..], worker, now, before)
      case Ok(next) => ClaimAll(next, ids[1..], worker, now, before)
  }

  lemma {:induction false} ClaimAllAppend(db: Db, ids: seq<string>, id: string, worker: string, now: int, before: int)
    ensures ClaimAll(db, ids + [id], worker, now, before)
            == var d := ClaimAll(db, ids, worker, now, before);
               match Claim(d, id, worker, now, before) case Err(_) => d case Ok(next) => next
    decreases |ids|
  {
    hide Claim;
    if ids == [] {
      assert [id][1..] == [];
    } else {
      assert (ids + [id])[1..] == ids[1..] + [id];
      ClaimAllAppend(match Claim(db, ids[0], worker, now, before) case Err(_) => db case Ok(next) => next,
                     ids[1..], id, worker, now, before);
    }
  }

  /** The earliest of a set of messages. */
  lemma Earliest(outbox: map<string, Message>, ids: set<string>) returns (first: string)
    requires ids != {} && ids <= outbox.Keys
    ensures first in ids && forall a | a in ids :: NoLater(outbox[first], outbox[a])
    decreases |ids|
  {
    first :| first in ids;
    var rest := ids - {first};
    if rest != {} {
      var other := Earliest(outbox, rest);
      if !NoLater(outbox[first], outbox[other]) {
        first := other;
      }
    }
  }

  predicate Distinct(ids: seq<string>) {
    forall j, k | 0 <= j < k < |ids| :: ids[j] != ids[k]
  }

  /** Different claimable messages, at most `limit`; one that is left out means the batch is full of messages that
      come no later in the order of due and creation times. */
  predicate EarliestBatch(outbox: map<string, Message>, ids: seq<string>, limit: int, now: int, before: int) {
    && |ids| <= limit && Distinct(ids)
    && (forall k | 0 <= k < |ids| :: ids[k] in outbox && Claimable(outbox[ids[k]], now, before))
    && (forall a | a in outbox && Claimable(outbox[a], now, before) && a !in ids ::
          |ids| == limit && forall k | 0 <= k < |ids| :: NoLater(outbox[ids[k]], outbox[a]))
  }

  /** A message that a batch leaves out is due no earlier than any that it takes, and among equally due ones no older. */
  lemma LeftOutIsLater(outbox: map<string, Message>, ids: seq<string>, limit: int, now: int, before: int, k: nat, a: string)
    requires EarliestBatch(outbox, ids, limit, now, before) && k < |ids|
    requires a in outbox && a !in ids && Claimable(outbox[a], now, before)
    ensures |ids| == limit && ids[k] in outbox && outbox[ids[k]].availableAt <= outbox[a].availableAt
    ensures outbox[ids[k]].availableAt == outbox[a].availableAt ==> outbox[ids[k]].createdAt <= outbox[a].createdAt
  {
    hide Claimable;
  }

  class Database {
    var intents: map<string, Intent>
    var audit: seq<Transition>
    var outbox: map<string, Message>
    var inbox: set<(string, string)>

    function Snapshot(): Db
      reads this
    {
      Db(intents, audit, outbox, inbox)
    }

    constructor ()
      ensures Snapshot() == Db(map[], [], map[], {})
    {
      intents, audit, outbox, inbox := map[], [], map[], {};
    }

    /** What a failed transaction leaves. */
    method Rollback(to: Db)
      modifies this
      ensures Snapshot() == to
    {
      intents, audit, outbox, inbox := to.intents, to.audit, to.outbox, to.inbox;
    }

    method ApplyTransition(t: Transition) returns (r: Stored<()>)
      modifies this`intents, this`audit
      ensures match CoordinatorStore.ApplyTransition(old(Snapshot()), t)
              case Err(e) => r == Err(e) && Snapshot() == old(Snapshot())
              case Ok(db) => r == Ok(()) && Snapshot() == db
    {
      if t.intentId !in intents {
        return Err(PersistenceConflict);
      }
      var i := intents[t.intentId];
      if i.state != t.from || i.stateVersion != t.fromVersion {
        return Err(PersistenceConflict);
      }
      if IsTerminal(t.to) && TerminalRecorded(audit, t.intentId, t.toVersion) {
        return Err(ConstraintViolation);
      }
      intents := intents[t.intentId := i.(state := t.to, stateVersion := t.toVersion, updatedAt := t.occurredAt)];
      audit := audit + [t];
      return Ok(());
    }

    method Enqueue(id: string, m: Message) returns (r: Stored<bool>)
      modifies this`outbox
      ensures match CoordinatorStore.Enqueue(old(Snapshot()), id, m)
              case Err(e) => r == Err(e) && Snapshot() == old(Snapshot())
              case Ok((db, created)) => r == Ok(created) && Snapshot() == db
    {
      hide KeyText;
      if HasMessageKey(outbox, KeyText(m.origin)) {
        return Ok(false);
      }
      if id in outbox {
        return Err(ConstraintViolation);
      }
      outbox := outbox[id := m];
      return Ok(true);
    }

    /** Transition and message in one transaction: a failure of the second undoes the first. */
    method ApplyTransitionWithOutbox(t: Transition, outboxId: string, next: Topic, at: Times)
      returns (r: Stored<()>)
      modifies this
      ensures match CoordinatorStore.ApplyTransitionWithOutbox(old(Snapshot()), t, outboxId, next, at)
              case Err(e) => r == Err(e) && Snapshot() == old(Snapshot())
              case Ok(db) => r == Ok(()) && Snapshot() == db
    {
      hide KeyText, CoordinatorStore.ApplyTransition, CoordinatorStore.Enqueue;
      var backup := Snapshot();
      r := ApplyTransition(t);
      if r.Ok? {
        var enqueued := Enqueue(outboxId, AdvanceMessage(t, next, at));
        if enqueued.Err? {
          Rollback(backup);
          r := Err(enqueued.error);
        }
      }
    }

    /** Inbox row and message in one transaction; a message whose key is taken is not created. */
    method Ingest(source: string, eventKey: string, job: Option<Job>, now: int) returns (r: Stored<bool>)
      modifies this`inbox, this`outbox
      ensures match CoordinatorStore.Ingest(old(Snapshot()), source, eventKey, job, now)
              case Err(e) => r == Err(e) && Snapshot() == old(Snapshot())
              case Ok((db, accepted)) => r == Ok(accepted) && Snapshot() == db
    {
      hide KeyText, CoordinatorStore.Enqueue;
      if (source, eventKey) in inbox {
        return Ok(false);
      }
      var backup := inbox;
      inbox := inbox + {(source, eventKey)};
      if job.Some? {
        var j := job.value;
        var enqueued := Enqueue(j.outboxId, Fresh(External(source, eventKey), j.topic, j.intentId, j.state,
                                                  j.stateVersion, j.stateEnteredAt, j.traceId, Times(now, now)));
        if enqueued.Err? {
          inbox := backup;
          return Err(enqueued.error);
        }
      }
      return Ok(true);
    }

    /** The query of a claim: up to `limit` claimable messages, earliest due first, then oldest first. */
    method SelectClaimable(limit: nat, now: int, before: int) returns (ids: seq<string>)
      ensures EarliestBatch(outbox, ids, limit, now, before)
    {
      hide Claimable;
      var left := set a | a in outbox && Claimable(outbox[a], now, before);
      ids := [];
      while left != {} && |ids| < limit
        invariant |ids| <= limit
        invariant forall a :: a in left <==> a in outbox && Claimable(outbox[a], now, before) && a !in ids
        invariant forall k | 0 <= k < |ids| :: ids[k] in outbox && Claimable(outbox[ids[k]], now, before)
        invariant Distinct(ids)
        invariant forall k, a | 0 <= k < |ids| && a in left :: NoLater(outbox[ids[k]], outbox[a])
        decreases limit - |ids|
      {
        ghost var first := Earliest(outbox, left);
        var id :| id in left && forall a | a in left :: NoLater(outbox[id], outbox[a]);
        ids, left := ids + [id], left - {id};
      }
    }

    /** A batch is selected and leased to the worker in one transaction. */
    method ClaimBatch(worker: string, limit: int, now: int, before: int) returns (r: Result<seq<string>, ()>)
      modifies this`outbox
      ensures r.Err? <==> limit < 1 || limit > 100
      ensures r.Err? ==> Snapshot() == old(Snapshot())
      ensures r.Ok? ==> EarliestBatch(old(outbox), r.value, limit, now, before)
      ensures r.Ok? ==> Snapshot() == ClaimAll(old(Snapshot()), r.value, worker, now, before)
      ensures outbox.Keys == old(outbox).Keys
      ensures r.Ok? ==> forall a | a in outbox ::
                outbox[a] == if a in r.value then Claimed(old(outbox)[a], worker, now) else old(outbox)[a]
    {
      hide ClaimAll, Claimable;
      if limit < 1 || limit > 100 {
        return Err(());
      }
      var ids := SelectClaimable(limit, now, before);
      NothingClaimed(Snapshot(), worker, now, before);
      var k := 0;
      while k < |ids|
        invariant 0 <= k <= |ids|
        invariant forall j | k <= j < |ids| :: ids[j] in outbox && outbox[ids[j]] == old(outbox)[ids[j]]
        invariant Snapshot() == ClaimAll(old(Snapshot()), ids[..k], worker, now, before)
        invariant outbox.Keys == old(outbox).Keys
        invariant forall a | a in outbox ::
                    outbox[a] == if a in ids[..k] then Claimed(old(outbox)[a], worker, now) else old(outbox)[a]
      {
        ClaimAllAppend(old(Snapshot()), ids[..k], ids[k], worker, now, before);
        assert ids[..k] + [ids[k]] == ids[..k + 1];
        outbox := outbox[ids[k] := Claimed(outbox[ids[k]], worker, now)];
        k := k + 1;
      }
      assert ids[..k] == ids;
      return Ok(ids);
    }

    method MarkPublished(id: string) returns (r: Stored<()>)
      modifies this`outbox
      ensures match CoordinatorStore.MarkPublished(old(Snapshot()), id)
              case Err(e) => r == Err(e) && Snapshot() == old(Snapshot())
              case Ok(db) => r == Ok(()) && Snapshot() == db
    {
      if id !in outbox || !outbox[id].status.Dispatching? {
        return Err(PersistenceConflict);
      }
      outbox := outbox[id := outbox[id].(status := Published, lockedAt := None, lockedBy := None)];
      return Ok(());
    }

    method MarkRetry(id: string, availableAt: int, maxAttempts: nat)
      modifies this`outbox
      ensures Snapshot() == CoordinatorStore.MarkRetry(old(Snapshot()), id, availableAt, maxAttempts)
    {
      if id in outbox && outbox[id].status.Dispatching? {
        var m := outbox[id];
        outbox := outbox[id := m.(status := if m.attempts >= maxAttempts then Dead else Pending,
                                  availableAt := availableAt, lockedAt := None, lockedBy := None)];
      }
    }

    method Requeue(id: string, before: int)
      modifies this`outbox
      ensures Snapshot() == CoordinatorStore.Requeue(old(Snapshot()), id, before)
    {
      if id in outbox && LeaseExpired(outbox[id], before) {
        outbox := outbox[id := Released(outbox[id])];
      }
    }
  }

  lemma NothingClaimed(db: Db, worker: string, now: int, before: int)
    ensures ClaimAll(db, [], worker, now, before) == db
  {
  }
}
