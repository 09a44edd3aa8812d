/** The lease repository as the source writes it: each locked call updates the two tables in place. */
module AcceleratorRepository {
  import opened Prelude
  import opened AcceleratorModel
  import opened AcceleratorProofs

  class LeaseRepository {
    var resource: Resource
    var waiters: map<WaiterId, Waiter>
    /** Every waiter granted so far, oldest first. */
    ghost var grants: seq<WaiterId>

    ghost function Ledger(): Db
      reads this
    {
      Db(resource, waiters)
    }

    ghost predicate Valid()
      reads this
    {
      Inv(Ledger(), grants)
    }

    constructor ()
      ensures Valid() && Ledger() == EmptyDb && grants == []
    {
      resource := Resource(0, None);
      waiters := map[];
      grants := [];
    }

    /** `_expire_locked`: reap an overdue lease, then the overdue waiters. */
    method ExpireLocked(now: Time)
      requires Valid()
      modifies this
      ensures Valid() && Ledger() == Expire(old(Ledger()), now) && grants == old(grants)
    {
      ExpireKeepsInv(Ledger(), grants, now);
      var expiredOwner: Option<WaiterId> := None;
      if resource.holder.Some? && resource.holder.value.expiresAt <= now {
        expiredOwner := Some(resource.holder.value.owner);
        resource := resource.(holder := None);
      }
      if expiredOwner.Some? {
        var owner := expiredOwner.value;
        if owner in waiters && waiters[owner].status == Acquired {
          waiters := waiters[owner := waiters[owner].(status := Expired)];
        }
      }
      waiters := map id | id in waiters ::
        if waiters[id].status == Queued && waiters[id].expiresAt <= now
        then waiters[id].(status := Expired) else waiters[id];
      assert waiters == Expire(old(Ledger()), now).waiters;
    }

    method EnqueueWaiter(lane: string, priority: int, waitSeconds: real, resourceId: string,
                         now: Time, id: WaiterId)
      returns (r: Result<WaiterId, Error>)
      requires Valid()
      modifies this
      ensures var s := Enqueue(now, id, lane, priority, waitSeconds, resourceId);
              && Valid() && Ledger() == Next(old(Ledger()), s) && grants == old(grants)
              && ReplyOf(old(Ledger()), s) == (match r case Ok(w) => Enqueued(w) case Err(e) => Failed(e))
    {
      hide Expire, Inv, Normalized, ValidLane;
      ghost var s := Enqueue(now, id, lane, priority, waitSeconds, resourceId);
      StepKeepsInv(Ledger(), grants, s);
      assert grants + [] == grants;
      var normalized := Normalized(lane);
      if !ValidLane(normalized) { return Err(LaneInvalid); }
      ExpireLocked(now);
      if id in waiters { return Err(DuplicateWaiter); }
      waiters := waiters[id := Waiter(resourceId, normalized, ClampPriority(priority), Queued,
                                      now, now + MaxReal(1.0, waitSeconds))];
      return Ok(id);
    }

    method TryAcquireLease(id: WaiterId, leaseSeconds: real, now: Time)
      returns (r: Result<Option<Lease>, Error>)
      requires Valid()
      modifies this
      ensures var s := TryAcquire(now, id, leaseSeconds);
              && Valid() && Ledger() == Next(old(Ledger()), s) && grants == old(grants) + GrantOf(old(Ledger()), s)
              && ReplyOf(old(Ledger()), s) ==
                 (match r case Ok(Some(l)) => Granted(l) case Ok(None) => NotGranted case Err(e) => Failed(e))
    {
      hide Expire, IsFirst, Inv;
      ghost var s := TryAcquire(now, id, leaseSeconds);
      StepKeepsInv(Ledger(), grants, s);
      assert grants + [] == grants;
      var beforeResource, beforeWaiters := resource, waiters;
      ExpireLocked(now);
      if id !in waiters || waiters[id].status != Queued || waiters[id].expiresAt <= now { return Ok(None); }
      var waiter := waiters[id];
      if waiter.resourceId != GPU0 {
        resource, waiters := beforeResource, beforeWaiters; // rollback
        return Err(ResourceMissing);
      }
      if resource.holder.Some? && resource.holder.value.expiresAt > now { return Ok(None); }
      if !IsFirst(waiters, id, now) { return Ok(None); }
      var token := resource.fencingToken + 1;
      var until := now + ClampLease(leaseSeconds);
      resource := Resource(token, Some(Holder(id, waiter.lane, waiter.priority, until)));
      waiters := waiters[id := waiter.(status := Acquired)];
      grants := grants + [id];
      return Ok(Some(Lease(id, waiter.resourceId, waiter.lane, waiter.priority, token, until)));
    }

    method HeartbeatLease(lease: Lease, leaseSeconds: real, now: Time) returns (renewed: bool)
      requires Valid()
      modifies this
      ensures var s := Heartbeat(now, lease, leaseSeconds);
              && Valid() && Ledger() == Next(old(Ledger()), s) && grants == old(grants)
              && ReplyOf(old(Ledger()), s) == Flag(renewed)
    {
      StepKeepsInv(Ledger(), grants, Heartbeat(now, lease, leaseSeconds));
      assert grants + [] == grants;
      renewed := lease.resourceId == GPU0 && resource.holder.Some? && resource.holder.value.owner == lease.waiterId
                 && resource.fencingToken == lease.fencingToken;
      if renewed {
        resource := resource.(holder := Some(resource.holder.value.(expiresAt := now + ClampLease(leaseSeconds))));
      }
    }

    method ReleaseLease(lease: Lease, now: Time) returns (released: bool)
      requires Valid()
      modifies this
      ensures var s := Release(now, lease);
              && Valid() && Ledger() == Next(old(Ledger()), s) && grants == old(grants)
              && ReplyOf(old(Ledger()), s) == Flag(released)
    {
      StepKeepsInv(Ledger(), grants, Release(now, lease));
      assert grants + [] == grants;
      released := lease.resourceId == GPU0 && resource.holder.Some? && resource.holder.value.owner == lease.waiterId
                  && resource.fencingToken == lease.fencingToken;
      if released {
        resource := resource.(holder := None);
        if lease.waiterId in waiters && waiters[lease.waiterId].status == Acquired {
          waiters := waiters[lease.waiterId := waiters[lease.waiterId].(status := Completed)];
        }
      }
    }

    method CancelQueuedWaiter(id: WaiterId, now: Time)
      requires Valid()
      modifies this
      ensures Valid() && Ledger() == Next(old(Ledger()), CancelWaiter(now, id)) && grants == old(grants)
    {
      StepKeepsInv(Ledger(), grants, CancelWaiter(now, id));
      assert grants + [] == grants;
      if id in waiters && waiters[id].status == Queued {
        waiters := waiters[id := waiters[id].(status := Cancelled)];
      }
    }

    method TakeSnapshot(now: Time) returns (view: Reply)
      requires Valid()
      modifies this
      ensures Valid() && Ledger() == Next(old(Ledger()), Snapshot(now)) && grants == old(grants)
      ensures view == ReplyOf(old(Ledger()), Snapshot(now))
    {
      ExpireLocked(now);
      var queued := set id | id in waiters && waiters[id].status == Queued;
      assert queued == QueuedIds(Ledger());
      match resource.holder {
        case None => view := View(resource.fencingToken, "", 0, None, |queued|);
        case Some(h) => view := View(resource.fencingToken, h.lane, h.priority, Some(h.expiresAt), |queued|);
      }
    }

    /** One call by some other client. */
    method Perform(s: Step)
      requires Valid()
      modifies this
      ensures Valid() && Ledger() == Next(old(Ledger()), s) && grants == old(grants) + GrantOf(old(Ledger()), s)
    {
      hide Expire, IsFirst, ValidLane, Grant, ViewOf, Inv;
      match s {
        case Enqueue(now, id, lane, priority, wait, resourceId) =>
          var _ := EnqueueWaiter(lane, priority, wait, resourceId, now, id);
        case TryAcquire(now, id, seconds) => var _ := TryAcquireLease(id, seconds, now);
        case Heartbeat(now, lease, seconds) => var _ := HeartbeatLease(lease, seconds, now);
        case Release(now, lease) => var _ := ReleaseLease(lease, now);
        case CancelWaiter(now, id) => CancelQueuedWaiter(id, now);
        case Snapshot(now) => var _ := TakeSnapshot(now);
      }
    }

    /** Any number of calls by other clients. */
    method Interleave(steps: seq<Step>)
      requires Valid()
      modifies this
      ensures Valid() && Ledger() == Run(old(Ledger()), steps) && grants == old(grants) + Grants(old(Ledger()), steps)
    {
      hide Apply, Inv;
      for i := 0 to |steps|
        invariant Valid() && Ledger() == Run(old(Ledger()), steps[..i])
        invariant grants == old(grants) + Grants(old(Ledger()), steps[..i])
      {
        ghost var before := Ledger();
        Perform(steps[i]);
        assert steps[..i + 1] == steps[..i] + [steps[i]];
        RunAppend(old(Ledger()), steps[..i], [steps[i]]);
        RunOne(before, steps[i]);
      }
      assert steps[..|steps|] == steps;
    }
  }

  lemma RunOne(db: Db, s: Step)
    ensures Run(db, [s]) == Next(db, s) && Grants(db, [s]) == GrantOf(db, s)
  {
    hide Apply;
    assert [s][1..] == [];
    assert GrantOf(db, s) + [] == GrantOf(db, s);
  }
}
