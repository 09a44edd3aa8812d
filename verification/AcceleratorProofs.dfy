/** What every interleaving of repository calls keeps: the lease invariant, fencing, fairness and progress. */
module AcceleratorProofs {
  import opened Prelude
  import opened AcceleratorModel

  // ---- the lease invariant ----

  predicate Terminal(s: Status) { s.Completed? || s.Cancelled? || s.Expired? }

  /** `grants` lists the waiters granted so far, oldest first. */
  ghost predicate Inv(db: Db, grants: seq<WaiterId>) {
    && HolderInv(db, grants)
    && HistoryInv(db, grants)
  }

  ghost predicate HolderInv(db: Db, grants: seq<WaiterId>) {
    && db.resource.fencingToken == |grants|
    && (forall id :: id in db.waiters && db.waiters[id].status == Acquired ==>
          db.resource.holder.Some? && db.resource.holder.value.owner == id)
    && (db.resource.holder.Some? ==>
          var h := db.resource.holder.value;
          && h.owner in db.waiters
          && db.waiters[h.owner].status == Acquired
          && h.lane == db.waiters[h.owner].lane && h.priority == db.waiters[h.owner].priority
          && grants != [] && grants[|grants| - 1] == h.owner)
  }

  ghost predicate HistoryInv(db: Db, grants: seq<WaiterId>) {
    && (forall i, j :: 0 <= i < j < |grants| ==> grants[i] != grants[j])
    && (forall i :: 0 <= i < |grants| ==>
          grants[i] in db.waiters && !db.waiters[grants[i]].status.Queued? && !db.waiters[grants[i]].status.Cancelled?)
    && (forall id :: id in db.waiters && (db.waiters[id].status == Acquired || db.waiters[id].status == Completed) ==>
          id in grants)
    && (forall id :: id in db.waiters ==> 1 <= db.waiters[id].priority <= 1000)
    && (forall id :: id in grants ==> db.waiters[id].resourceId == GPU0)
  }

  lemma EmptyInv()
    ensures Inv(EmptyDb, [])
  {}

  lemma ExpireKeepsInv(db: Db, grants: seq<WaiterId>, now: Time)
    requires Inv(db, grants)
    ensures Inv(Expire(db, now), grants)
  {}

  lemma {:induction false} StepKeepsInv(db: Db, grants: seq<WaiterId>, s: Step)
    requires Inv(db, grants)
    ensures Inv(Next(db, s), grants + GrantOf(db, s))
  {
    hide Expire, ValidLane, HolderInv, HistoryInv, SetStatus, Grant, Normalized;
    assert grants + [] == grants;
    ExpireKeepsInv(db, grants, s.now);
    match s
    case Enqueue(_, _, _, _, _, _) =>
      var e := Expire(db, s.now);
      if s.id !in e.waiters { AddKeepsInv(e, grants, s); }
    case TryAcquire(_, _, _) =>
      if ReplyOf(db, s).Granted? {
        ExpireClearsOverdue(db, s.now);
        GrantKeepsInv(Expire(db, s.now), grants, s);
      }
    case Heartbeat(_, _, _) => RenewKeepsInv(db, grants, s);
    case Release(_, _) => ReleaseKeepsInv(db, grants, s);
    case CancelWaiter(_, _) => CancelKeepsInv(db, grants, s);
    case Snapshot(_) =>
  }

  lemma ExpireClearsOverdue(db: Db, now: Time)
    ensures Expire(db, now).resource.holder.Some? ==> Expire(db, now).resource.holder.value.expiresAt > now
  {}

  lemma AddKeepsInv(e: Db, grants: seq<WaiterId>, s: Step)
    requires Inv(e, grants) && s.Enqueue? && s.id !in e.waiters
    ensures Inv(e.(waiters := e.waiters[s.id := NewWaiter(s)]), grants)
  {
    hide Normalized, Ahead;
  }

  lemma RenewKeepsInv(db: Db, grants: seq<WaiterId>, s: Step)
    requires Inv(db, grants) && s.Heartbeat?
    ensures Inv(Next(db, s), grants)
  {
    hide ViewOf, ValidLane, IsFirst, Normalized, ClampPriority;
  }

  lemma ReleaseKeepsInv(db: Db, grants: seq<WaiterId>, s: Step)
    requires Inv(db, grants) && s.Release?
    ensures Inv(Next(db, s), grants)
  {
    hide ViewOf, ValidLane, IsFirst, Normalized, ClampPriority;
  }

  lemma CancelKeepsInv(db: Db, grants: seq<WaiterId>, s: Step)
    requires Inv(db, grants) && s.CancelWaiter?
    ensures Inv(Next(db, s), grants)
  {
    hide ViewOf, ValidLane, IsFirst, Normalized, ClampPriority;
  }

  lemma GrantKeepsInv(e: Db, grants: seq<WaiterId>, s: Step)
    requires Inv(e, grants) && s.TryAcquire?
    requires e.resource.holder == None && s.id in e.waiters && Candidate(e.waiters[s.id], s.now)
    ensures Inv(Grant(e, s).0, grants + [s.id])
  {
    assert s.id !in grants;
  }

  /** Mutual exclusion and the token count hold after any interleaving of the seven calls. */
  lemma {:induction false} RunKeepsInv(db: Db, grants: seq<WaiterId>, steps: seq<Step>)
    requires Inv(db, grants)
    ensures Inv(Run(db, steps), grants + Grants(db, steps))
    decreases |steps|
  {
    hide Apply, Inv;
    if steps == [] {
      assert grants + [] == grants;
    } else {
      StepKeepsInv(db, grants, steps[0]);
      RunKeepsInv(Next(db, steps[0]), grants + GrantOf(db, steps[0]), steps[1..]);
      assert grants + Grants(db, steps)
          == grants + GrantOf(db, steps[0]) + Grants(Next(db, steps[0]), steps[1..]);
    }
  }

  lemma MutualExclusion(steps: seq<Step>)
    ensures var db := Run(EmptyDb, steps);
            && (forall id :: id in db.waiters ==>
                  (db.waiters[id].status == Acquired <==>
                   db.resource.holder.Some? && db.resource.holder.value.owner == id))
            && db.resource.fencingToken == |Grants(EmptyDb, steps)|
            && (forall i, j :: 0 <= i < j < |Grants(EmptyDb, steps)| ==>
                  Grants(EmptyDb, steps)[i] != Grants(EmptyDb, steps)[j])
  {
    EmptyInv();
    RunKeepsInv(EmptyDb, [], steps);
    assert [] + Grants(EmptyDb, steps) == Grants(EmptyDb, steps);
  }

  // ---- waiters move forward only ----

  /** Columns other than the status never change, and a waiter that has ended stays as it is. */
  ghost predicate Evolves(before: Waiter, after: Waiter) {
    && after.(status := before.status) == before
    && (Terminal(before.status) ==> after.status == before.status)
    && (before.status == Acquired ==> after.status != Queued && after.status != Cancelled)
  }

  lemma ExpireEvolves(db: Db, now: Time, id: WaiterId)
    requires id in db.waiters
    ensures id in Expire(db, now).waiters && Evolves(db.waiters[id], Expire(db, now).waiters[id])
  {}

  lemma SetStatusEvolves(db: Db, target: WaiterId, from: Status, to: Status, id: WaiterId)
    requires id in db.waiters
    requires from == Queued || (from == Acquired && to != Queued && to != Cancelled)
    ensures id in SetStatus(db, target, from, to).waiters
    ensures Evolves(db.waiters[id], SetStatus(db, target, from, to).waiters[id])
  {}

  lemma GrantEvolves(e: Db, s: Step, id: WaiterId)
    requires s.TryAcquire? && s.id in e.waiters && id in e.waiters
    ensures id in Grant(e, s).0.waiters && Evolves(e.waiters[id], Grant(e, s).0.waiters[id])
  {}

  lemma StepEvolves(db: Db, s: Step, id: WaiterId)
    requires id in db.waiters
    ensures id in Next(db, s).waiters && Evolves(db.waiters[id], Next(db, s).waiters[id])
  {
    hide ViewOf, ValidLane, IsFirst, Expire, SetStatus, Grant, NewWaiter, Normalized, ClampPriority;
    ExpireEvolves(db, s.now, id);
    match s
    case Enqueue(_, _, _, _, _, _) =>
    case TryAcquire(_, _, _) =>
      if ReplyOf(db, s).Granted? { GrantEvolves(Expire(db, s.now), s, id); }
    case Heartbeat(_, _, _) =>
    case Release(_, lease) =>
      SetStatusEvolves(db.(resource := db.resource.(holder := None)), lease.waiterId, Acquired, Completed, id);
    case CancelWaiter(_, target) => SetStatusEvolves(db, target, Queued, Cancelled, id);
    case Snapshot(_) =>
  }

  lemma {:induction false} RunEvolves(db: Db, steps: seq<Step>, id: WaiterId)
    requires id in db.waiters
    ensures id in Run(db, steps).waiters && Evolves(db.waiters[id], Run(db, steps).waiters[id])
    decreases |steps|
  {
    hide Apply;
    if steps != [] {
      StepEvolves(db, steps[0], id);
      RunEvolves(Next(db, steps[0]), steps[1..], id);
    }
  }

  // ---- fencing ----

  /** Some later grant, reaping or release has ended the lease. */
  ghost predicate Stale(db: Db, lease: Lease) {
    !Matches(db, lease) && db.resource.fencingToken >= lease.fencingToken
  }

  lemma StaleStep(db: Db, s: Step, lease: Lease)
    requires Stale(db, lease)
    ensures Stale(Next(db, s), lease)
  {
    hide ViewOf, ValidLane, IsFirst, Normalized, ClampPriority;
  }

  lemma {:induction false} StaleForever(db: Db, steps: seq<Step>, lease: Lease)
    requires Stale(db, lease)
    ensures Stale(Run(db, steps), lease)
    decreases |steps|
  {
    hide Apply;
    if steps != [] {
      StaleStep(db, steps[0], lease);
      StaleForever(Next(db, steps[0]), steps[1..], lease);
    }
  }

  /** Whatever a stale client still sends is refused and leaves the ledger as it was. */
  lemma StaleIsInert(db: Db, lease: Lease, s: Step)
    requires Stale(db, lease)
    requires (s.Heartbeat? || s.Release?) && s.lease == lease
    ensures Apply(db, s) == (db, Flag(false))
  {
    hide ViewOf, ValidLane, IsFirst, Normalized, ClampPriority;
  }

  lemma GrantMatches(db: Db, s: Step)
    requires ReplyOf(db, s).Granted?
    ensures Matches(Next(db, s), ReplyOf(db, s).lease)
    ensures Next(db, s).resource.fencingToken == db.resource.fencingToken + 1
  {
    hide ViewOf, ValidLane, IsFirst, Normalized, ClampPriority;
  }

  lemma {:induction false} MatchesThroughout(db: Db, steps: seq<Step>, lease: Lease)
    requires Matches(db, lease)
    ensures Matches(Run(db, steps), lease) ==> Grants(db, steps) == []
    ensures Matches(Run(db, steps), lease) <==> forall k :: 0 <= k <= |steps| ==> Matches(Run(db, steps[..k]), lease)
    decreases |steps|
  {
    hide Apply;
    assert steps[..|steps|] == steps;
    forall k | 0 <= k <= |steps| && !Matches(Run(db, steps[..k]), lease)
      ensures !Matches(Run(db, steps), lease)
    {
      NoReturn(db, steps[..k], steps[k..], lease);
      assert steps[..k] + steps[k..] == steps;
    }
    if Matches(Run(db, steps), lease) && steps != [] {
      var mid := Next(db, steps[0]);
      assert steps == [steps[0]] + steps[1..];
      assert Run(db, [steps[0]]) == mid by { assert [steps[0]][1..] == []; }
      assert Matches(mid, lease) by { assert steps[..1] == [steps[0]]; }
      MatchingGrantsNobody(db, steps[0], lease);
      MatchesThroughout(mid, steps[1..], lease);
    }
  }

  lemma MatchingGrantsNobody(db: Db, s: Step, lease: Lease)
    requires Matches(db, lease) && Matches(Next(db, s), lease)
    ensures GrantOf(db, s) == []
  {
    hide ViewOf, ValidLane, IsFirst, Normalized, ClampPriority;
  }

  /** Once a lease stops matching it never matches again. */
  lemma NoReturn(db: Db, before: seq<Step>, after: seq<Step>, lease: Lease)
    requires Matches(db, lease) && !Matches(Run(db, before), lease)
    ensures !Matches(Run(db, before + after), lease)
  {
    hide Apply;
    TokenGrows(db, before);
    RunAppend(db, before, after);
    StaleForever(Run(db, before), after, lease);
  }

  lemma TokenStep(db: Db, s: Step)
    ensures Next(db, s).resource.fencingToken == db.resource.fencingToken + |GrantOf(db, s)|
  {
    hide ViewOf, ValidLane, IsFirst, Normalized, ClampPriority;
  }

  lemma {:induction false} TokenGrows(db: Db, steps: seq<Step>)
    ensures Run(db, steps).resource.fencingToken == db.resource.fencingToken + |Grants(db, steps)|
    decreases |steps|
  {
    hide Apply;
    if steps != [] {
      TokenStep(db, steps[0]);
      TokenGrows(Next(db, steps[0]), steps[1..]);
    }
  }

  /** From the grant on, over any run: a heartbeat or release is accepted exactly when the lease was
      never taken away in between, and then nobody else was granted since. */
  lemma {:induction false} FencingSafety(db: Db, grant: Step, steps: seq<Step>, use: Step)
    requires ReplyOf(db, grant).Granted?
    requires (use.Heartbeat? || use.Release?) && use.lease == ReplyOf(db, grant).lease
    ensures var held := Next(db, grant);
            var accepted := ReplyOf(Run(held, steps), use) == Flag(true);
            && (accepted <==> forall k :: 0 <= k <= |steps| ==> Matches(Run(held, steps[..k]), use.lease))
            && (accepted ==> Grants(held, steps) == [])
            && (!accepted ==> forall more: seq<Step> :: Stale(Run(Run(held, steps), more), use.lease))
  {
    var held := Next(db, grant);
    GrantMatches(db, grant);
    MatchesThroughout(held, steps, use.lease);
    TokenGrows(held, steps);
    if !Matches(Run(held, steps), use.lease) {
      forall more: seq<Step> ensures Stale(Run(Run(held, steps), more), use.lease) {
        StaleForever(Run(held, steps), more, use.lease);
      }
    }
  }

  /** `heartbeat` never looks at the expiry: an overdue lease that nobody has reaped yet is revived. */
  lemma OverdueLeaseRevived(db: Db, lease: Lease, now: Time, seconds: real)
    requires Matches(db, lease) && Overdue(db.resource, now)
    ensures ReplyOf(db, Heartbeat(now, lease, seconds)) == Flag(true)
    ensures !Overdue(Next(db, Heartbeat(now, lease, seconds)).resource, now)
    ensures !Matches(Next(db, Snapshot(now)), lease)
  {
    hide ViewOf, ValidLane, IsFirst, Normalized, ClampPriority;
  }

  // ---- fairness ----

  ghost predicate Waiting(db: Db, w: WaiterId) {
    w in db.waiters && db.waiters[w].status == Queued && db.waiters[w].resourceId == GPU0
  }

  ghost function QueuedAhead(db: Db, w: WaiterId): set<WaiterId>
    requires w in db.waiters
  {
    set id | id in db.waiters && Waiting(db, id) && Ahead(id, db.waiters[id], w, db.waiters[w])
  }

  /** A later arrival that ranks ahead of `w`. */
  ghost predicate ArrivesAhead(s: Step, w: WaiterId, row: Waiter) {
    s.Enqueue? && s.resourceId == GPU0 && Ahead(s.id, NewWaiter(s), w, row)
  }

  ghost function ArrivalsAhead(steps: seq<Step>, w: WaiterId, row: Waiter): nat {
    if steps == [] then 0
    else (if ArrivesAhead(steps[0], w, row) then 1 else 0) + ArrivalsAhead(steps[1..], w, row)
  }

  /** While `w` waits, a grant can only go to a waiter ranked ahead of it. */
  lemma GrantGoesAhead(db: Db, w: WaiterId, s: Step)
    requires Waiting(db, w) && Waiting(Next(db, s), w) && ReplyOf(db, s).Granted?
    ensures s.TryAcquire? && s.id in QueuedAhead(db, w) && s.id !in QueuedAhead(Next(db, s), w)
  {
    assert IsFirst(Expire(db, s.now).waiters, s.id, s.now);
  }

  lemma QueuedAheadBefore(db: Db, w: WaiterId, s: Step, id: WaiterId)
    requires Waiting(db, w) && Waiting(Next(db, s), w) && id in QueuedAhead(Next(db, s), w)
    ensures id in QueuedAhead(db, w) || (ArrivesAhead(s, w, db.waiters[w]) && id == s.id)
  {
    hide Apply;
    StepEvolves(db, s, w);
    if id in db.waiters {
      StepEvolves(db, s, id);
    } else {
      NewcomerEnqueued(db, s, id);
    }
  }

  lemma NewcomerEnqueued(db: Db, s: Step, id: WaiterId)
    requires id !in db.waiters && id in Next(db, s).waiters
    ensures s.Enqueue? && s.id == id && Next(db, s).waiters[id] == NewWaiter(s)
  {
    hide ViewOf, ValidLane, IsFirst, Normalized;
  }

  lemma QueuedAheadStep(db: Db, w: WaiterId, s: Step)
    requires Waiting(db, w) && Waiting(Next(db, s), w)
    ensures QueuedAhead(Next(db, s), w) <=
            QueuedAhead(db, w) + (if ArrivesAhead(s, w, db.waiters[w]) then {s.id} else {})
    ensures |QueuedAhead(Next(db, s), w)| + |GrantOf(db, s)| <=
            |QueuedAhead(db, w)| + (if ArrivesAhead(s, w, db.waiters[w]) then 1 else 0)
  {
    hide Apply, Ahead, NewWaiter;
    var before, after := QueuedAhead(db, w), QueuedAhead(Next(db, s), w);
    var arrival: set<WaiterId> := if ArrivesAhead(s, w, db.waiters[w]) then {s.id} else {};
    forall id | id in after ensures id in before + arrival {
      QueuedAheadBefore(db, w, s, id);
    }
    if ReplyOf(db, s).Granted? {
      GrantGoesAhead(db, w, s);
      SubsetSize(after, before - {s.id});
    } else {
      SubsetSize(after, before + arrival);
    }
  }

  lemma {:induction false} SubsetSize<T>(a: set<T>, b: set<T>)
    requires a <= b
    ensures |a| <= |b|
  {
    if a != {} {
      var x :| x in a;
      SubsetSize(a - {x}, b - {x});
    }
  }

  lemma WaitingThroughout(db: Db, steps: seq<Step>, w: WaiterId)
    requires steps != [] && Waiting(db, w) && Waiting(Run(db, steps), w)
    ensures Waiting(Next(db, steps[0]), w) && Next(db, steps[0]).waiters[w] == db.waiters[w]
  {
    hide Apply;
    StepEvolves(db, steps[0], w);
    RunEvolves(Next(db, steps[0]), steps[1..], w);
  }

  /** Bounded overtaking: the grants made while `w` waits are at most the waiters ahead of it at the
      start plus the later arrivals that rank ahead. */
  lemma {:induction false} BoundedOvertaking(db: Db, steps: seq<Step>, w: WaiterId)
    requires Waiting(db, w) && Waiting(Run(db, steps), w)
    ensures |Grants(db, steps)| <= |QueuedAhead(db, w)| + ArrivalsAhead(steps, w, db.waiters[w])
    decreases |steps|
  {
    hide Apply, QueuedAhead;
    if steps != [] {
      WaitingThroughout(db, steps, w);
      QueuedAheadStep(db, w, steps[0]);
      BoundedOvertaking(Next(db, steps[0]), steps[1..], w);
    }
  }

  /** A waiter of the same or lower priority that arrives at a later time never overtakes. */
  lemma {:induction false} LaterEqualsNeverOvertake(db: Db, steps: seq<Step>, w: WaiterId)
    requires Waiting(db, w) && Waiting(Run(db, steps), w)
    requires forall s :: s in steps && s.Enqueue? ==>
               s.now > db.waiters[w].createdAt && ClampPriority(s.priority) <= db.waiters[w].priority
    ensures |Grants(db, steps)| <= |QueuedAhead(db, w)|
  {
    BoundedOvertaking(db, steps, w);
    NoArrivalsAhead(steps, w, db.waiters[w]);
  }

  lemma {:induction false} NoArrivalsAhead(steps: seq<Step>, w: WaiterId, row: Waiter)
    requires forall s :: s in steps && s.Enqueue? ==> s.now > row.createdAt && ClampPriority(s.priority) <= row.priority
    ensures ArrivalsAhead(steps, w, row) == 0
  {
    if steps != [] {
      assert steps[0] in steps;
      NoArrivalsAhead(steps[1..], w, row);
    }
  }

  // ---- progress and crash recovery ----

  lemma {:induction false} SomeoneIsFirst(waiters: map<WaiterId, Waiter>, among: set<WaiterId>)
      returns (first: WaiterId)
    requires among != {} && among <= waiters.Keys
    ensures first in among
    ensures forall other :: other in among && other != first ==> Ahead(first, waiters[first], other, waiters[other])
  {
    var x :| x in among;
    if among == {x} {
      first := x;
    } else {
      var y := SomeoneIsFirst(waiters, among - {x});
      first := if Ahead(x, waiters[x], y, waiters[y]) then x else y;
    }
  }

  ghost predicate Grantable(db: Db, id: WaiterId, now: Time, seconds: real) {
    ReplyOf(db, TryAcquire(now, id, seconds)).Granted?
  }

  /** The lease is free or past its expiry, and somebody is still waiting for it. */
  ghost predicate Available(db: Db, now: Time) {
    && (db.resource.holder.Some? ==> db.resource.holder.value.expiresAt <= now)
    && exists id :: id in db.waiters && Candidate(db.waiters[id], now)
  }

  lemma GrantableIsFirst(db: Db, id: WaiterId, now: Time, seconds: real)
    ensures Grantable(db, id, now, seconds) <==>
            (db.resource.holder.Some? ==> db.resource.holder.value.expiresAt <= now)
            && IsFirst(Expire(db, now).waiters, id, now)
  {}

  /** No deadlock and no double grant: whenever the accelerator is available exactly one waiter can
      take it, and otherwise nobody can. */
  lemma Progress(db: Db, now: Time, seconds: real)
    ensures Available(db, now) <==> exists id :: Grantable(db, id, now, seconds)
    ensures forall a, b :: Grantable(db, a, now, seconds) && Grantable(db, b, now, seconds) ==> a == b
  {
    var e := Expire(db, now);
    forall a, b | Grantable(db, a, now, seconds) && Grantable(db, b, now, seconds) ensures a == b {
      GrantableIsFirst(db, a, now, seconds);
      GrantableIsFirst(db, b, now, seconds);
    }
    var among := set id | id in e.waiters && Candidate(e.waiters[id], now);
    if Available(db, now) {
      var id :| id in db.waiters && Candidate(db.waiters[id], now);
      assert id in among;
      var first := SomeoneIsFirst(e.waiters, among);
      assert IsFirst(e.waiters, first, now);
      GrantableIsFirst(db, first, now, seconds);
      assert Grantable(db, first, now, seconds);
    }
    if id :| Grantable(db, id, now, seconds) {
      GrantableIsFirst(db, id, now, seconds);
      assert Candidate(db.waiters[id], now);
    }
  }

  /** The holder has died: nobody renews its lease any more. */
  ghost predicate Silent(steps: seq<Step>, lease: Lease) {
    forall s :: s in steps && s.Heartbeat? ==>
      s.lease.waiterId != lease.waiterId || s.lease.fencingToken != lease.fencingToken
  }

  lemma SilentStep(db: Db, s: Step, lease: Lease)
    requires Matches(db, lease) && Silent([s], lease)
    ensures var after := Next(db, s);
            Stale(after, lease) ||
            (Matches(after, lease) && after.resource.holder.value.expiresAt == db.resource.holder.value.expiresAt)
  {
    hide ViewOf, ValidLane, IsFirst, Normalized;
    assert s in [s];
  }

  lemma {:induction false} DeadHolderKeepsExpiry(db: Db, steps: seq<Step>, lease: Lease)
    requires Matches(db, lease) && Silent(steps, lease)
    ensures var after := Run(db, steps);
            Stale(after, lease) ||
            (Matches(after, lease) && after.resource.holder.value.expiresAt == db.resource.holder.value.expiresAt)
    decreases |steps|
  {
    hide Apply;
    if steps != [] {
      SilentStep(db, steps[0], lease);
      var mid := Next(db, steps[0]);
      if Matches(mid, lease) {
        DeadHolderKeepsExpiry(mid, steps[1..], lease);
      } else {
        StaleForever(mid, steps[1..], lease);
      }
    }
  }

  /** A dead holder blocks the queue no longer than its remaining lease: from its expiry on, either a
      later grant is running or any unexpired waiter makes the accelerator available. */
  lemma CrashRecovery(db: Db, steps: seq<Step>, lease: Lease, now: Time, seconds: real)
    requires Matches(db, lease) && Silent(steps, lease)
    requires now >= db.resource.holder.value.expiresAt
    ensures var after := Run(db, steps);
            var taken := after.resource.holder.Some? && after.resource.holder.value.expiresAt > now;
            && (taken ==> Grants(db, steps) != [])
            && (!taken && (exists id :: id in after.waiters && Candidate(after.waiters[id], now)) ==>
                  exists id :: Grantable(after, id, now, seconds))
  {
    var after := Run(db, steps);
    DeadHolderKeepsExpiry(db, steps, lease);
    if after.resource.holder.Some? && after.resource.holder.value.expiresAt > now {
      HolderNeedsGrant(db, steps, lease);
    }
    Progress(after, now, seconds);
  }

  lemma HolderStep(db: Db, s: Step, lease: Lease)
    requires db.resource.holder.Some? ==> Matches(db, lease)
    requires GrantOf(db, s) == []
    ensures Next(db, s).resource.holder.Some? ==> Matches(Next(db, s), lease)
  {
    hide ViewOf, ValidLane, IsFirst, Normalized;
  }

  lemma {:induction false} HolderNeedsGrant(db: Db, steps: seq<Step>, lease: Lease)
    requires db.resource.holder.Some? ==> Matches(db, lease)
    requires Stale(Run(db, steps), lease) && Run(db, steps).resource.holder.Some?
    ensures Grants(db, steps) != []
    decreases |steps|
  {
    hide Apply;
    if steps != [] && GrantOf(db, steps[0]) == [] {
      HolderStep(db, steps[0], lease);
      HolderNeedsGrant(Next(db, steps[0]), steps[1..], lease);
    }
  }

  // ---- timed safety ----

  predicate SameLease(a: Lease, b: Lease) {
    a.waiterId == b.waiterId && a.fencingToken == b.fencingToken && a.resourceId == b.resourceId
  }

  predicate Renews(s: Step, lease: Lease) {
    s.Heartbeat? && SameLease(s.lease, lease)
  }

  /** Only the holder renews, always for `span` seconds, and it does not release. */
  predicate HolderKeeps(s: Step, lease: Lease, span: real) {
    && (s.Heartbeat? && SameLease(s.lease, lease) ==> ClampLease(s.leaseSeconds) == span)
    && (s.Release? ==> !SameLease(s.lease, lease))
  }

  /** Every call comes less than `span` after the holder's latest renewal, which was at `last`. */
  predicate OnTime(steps: seq<Step>, lease: Lease, last: Time, span: real) {
    steps == [] ||
    (&& steps[0].now < last + span
     && HolderKeeps(steps[0], lease, span)
     && OnTime(steps[1..], lease, if Renews(steps[0], lease) then steps[0].now else last, span))
  }

  lemma OnTimeStep(db: Db, s: Step, lease: Lease, last: Time, span: real)
    requires Matches(db, lease) && db.resource.holder.value.expiresAt == last + span
    requires s.now < last + span && HolderKeeps(s, lease, span)
    ensures Matches(Next(db, s), lease) && GrantOf(db, s) == []
    ensures Next(db, s).resource.holder.value.expiresAt == (if Renews(s, lease) then s.now else last) + span
    ensures Renews(s, lease) ==> ReplyOf(db, s) == Flag(true)
  {
    hide ViewOf, ValidLane, IsFirst, Normalized, ClampPriority;
  }

  /** In every on-time run the lease is never reaped or replaced and every renewal is accepted. */
  lemma {:induction false} TimedSafety(db: Db, steps: seq<Step>, lease: Lease, last: Time, span: real)
    requires Matches(db, lease) && db.resource.holder.value.expiresAt == last + span
    requires OnTime(steps, lease, last, span)
    ensures Matches(Run(db, steps), lease) && Grants(db, steps) == []
    ensures forall k :: 0 <= k < |steps| && Renews(steps[k], lease) ==>
              ReplyOf(Run(db, steps[..k]), steps[k]) == Flag(true)
    decreases |steps|
  {
    hide Apply;
    if steps != [] {
      var s, mid := steps[0], Next(db, steps[0]);
      var next := if Renews(s, lease) then s.now else last;
      OnTimeStep(db, s, lease, last, span);
      TimedSafety(mid, steps[1..], lease, next, span);
      forall k | 0 <= k < |steps| && Renews(steps[k], lease)
        ensures ReplyOf(Run(db, steps[..k]), steps[k]) == Flag(true)
      {
        if k > 0 {
          assert steps[..k][1..] == steps[1..][..k - 1];
          assert steps[k] == steps[1..][k - 1];
        }
      }
    }
  }

  predicate ClockRuns(steps: seq<Step>, from: Time) {
    steps == [] || (from <= steps[0].now && ClockRuns(steps[1..], steps[0].now))
  }

  /** Each renewal lands less than `span` after the one before it. */
  predicate GapsBelow(steps: seq<Step>, lease: Lease, last: Time, span: real) {
    steps == [] ||
    (if Renews(steps[0], lease)
     then steps[0].now < last + span && GapsBelow(steps[1..], lease, steps[0].now, span)
     else GapsBelow(steps[1..], lease, last, span))
  }

  /** On a clock that never goes back it is enough to bound the gaps between renewals. */
  lemma {:induction false} GapsMakeOnTime(steps: seq<Step>, lease: Lease, from: Time, last: Time, span: real)
    requires steps != [] && Renews(steps[|steps| - 1], lease)
    requires forall s :: s in steps ==> HolderKeeps(s, lease, span)
    requires ClockRuns(steps, from) && GapsBelow(steps, lease, last, span)
    ensures OnTime(steps, lease, last, span) && steps[0].now < last + span
  {
    var s, rest := steps[0], steps[1..];
    assert s in steps;
    if rest != [] {
      assert rest[|rest| - 1] == steps[|steps| - 1];
      forall t | t in rest ensures t in steps {}
      GapsMakeOnTime(rest, lease, s.now, if Renews(s, lease) then s.now else last, span);
    }
  }
}
