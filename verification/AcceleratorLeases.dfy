/** How long leases and waiters last, from the calls that create them. */
module AcceleratorLeases {
  import opened Prelude
  import opened Text
  import opened AcceleratorModel
  import opened AcceleratorProofs

  // ---- a granted lease ----

  /** A grant runs for the seconds asked for, within 5 and 900, and the caller is told the same. */
  lemma GrantLasts(db: Db, s: Step)
    requires ReplyOf(db, s).Granted?
    ensures s.TryAcquire? && Next(db, s).resource.holder.Some?
    ensures var h, lease := Next(db, s).resource.holder.value, ReplyOf(db, s).lease;
            && h.owner == s.id && lease.waiterId == s.id && lease.resourceId == GPU0
            && lease.fencingToken == Next(db, s).resource.fencingToken
            && h.expiresAt == lease.expiresAt
            && (5.0 <= s.leaseSeconds <= 900.0 ==> h.expiresAt == s.now + s.leaseSeconds)
            && (s.leaseSeconds < 5.0 ==> h.expiresAt == s.now + 5.0)
            && (s.leaseSeconds > 900.0 ==> h.expiresAt == s.now + 900.0)
    ensures s.id in Next(db, s).waiters && Next(db, s).waiters[s.id].status == Acquired
    ensures var w, lease := Next(db, s).waiters[s.id], ReplyOf(db, s).lease;
            lease.lane == w.lane && lease.priority == w.priority
  {
    hide ViewOf, ValidLane, IsFirst, Normalized, ClampPriority;
  }

  /** Renewing gives the seconds asked for from the time of the renewal. */
  lemma RenewalLasts(db: Db, lease: Lease, now: Time, seconds: real)
    requires Matches(db, lease) && 5.0 <= seconds <= 900.0
    ensures var after := Next(db, Heartbeat(now, lease, seconds));
            && Matches(after, lease) && after.resource.holder.value.expiresAt == now + seconds
            && after.waiters == db.waiters && after.resource.holder.value.lane == db.resource.holder.value.lane
            && after.resource.holder.value.priority == db.resource.holder.value.priority
  {
    hide ViewOf, ValidLane, IsFirst, Normalized, ClampPriority;
  }

  /** From the grant on: an on-time holder keeps the lease and nobody is granted. */
  lemma {:induction false} OnTimeFromGrant(db: Db, s: Step, steps: seq<Step>)
    requires ReplyOf(db, s).Granted? && s.TryAcquire? && 5.0 <= s.leaseSeconds <= 900.0
    requires OnTime(steps, ReplyOf(db, s).lease, s.now, s.leaseSeconds)
    ensures Matches(Run(Next(db, s), steps), ReplyOf(db, s).lease) && Grants(Next(db, s), steps) == []
    ensures forall k :: 0 <= k < |steps| && Renews(steps[k], ReplyOf(db, s).lease) ==>
              ReplyOf(Run(Next(db, s), steps[..k]), steps[k]) == Flag(true)
  {
    hide Apply, OnTime, Renews, Run, Grants;
    GrantLasts(db, s);
    GrantMatches(db, s);
    TimedSafety(Next(db, s), steps, ReplyOf(db, s).lease, s.now, s.leaseSeconds);
  }

  /** Every call comes before the time. */
  predicate Before(steps: seq<Step>, end: Time) { forall s :: s in steps ==> s.now < end }

  /** On a clock that never goes back, calls before the end of the lease are on time, renewed or not. */
  lemma {:induction false} BeforeIsOnTime(steps: seq<Step>, lease: Lease, from: Time, last: Time, span: real)
    requires last <= from && ClockRuns(steps, from) && Before(steps, last + span)
    requires forall s :: s in steps ==> HolderKeeps(s, lease, span)
    ensures OnTime(steps, lease, last, span)
  {
    hide HolderKeeps;
    if steps != [] {
      var s, rest := steps[0], steps[1..];
      assert s in steps;
      forall t | t in rest ensures t in steps {}
      BeforeIsOnTime(rest, lease, s.now, if Renews(s, lease) then s.now else last, span);
    }
  }

  /** Nobody else is granted before the lease has run, as long as its holder does not release it. */
  lemma {:induction false} NobodyBeforeExpiry(db: Db, s: Step, steps: seq<Step>)
    requires ReplyOf(db, s).Granted? && s.TryAcquire? && 5.0 <= s.leaseSeconds <= 900.0
    requires ClockRuns(steps, s.now) && Before(steps, s.now + s.leaseSeconds)
    requires forall t :: t in steps ==> HolderKeeps(t, ReplyOf(db, s).lease, s.leaseSeconds)
    ensures Matches(Run(Next(db, s), steps), ReplyOf(db, s).lease) && Grants(Next(db, s), steps) == []
  {
    hide Apply, HolderKeeps, OnTime, ClockRuns, Before, Run, Grants;
    BeforeIsOnTime(steps, ReplyOf(db, s).lease, s.now, s.now, s.leaseSeconds);
    OnTimeFromGrant(db, s, steps);
  }

  // ---- a queued waiter ----

  /** What an accepted enqueue puts into the queue. */
  lemma EnqueuedWaits(db: Db, s: Step)
    requires ReplyOf(db, s).Enqueued?
    ensures s.Enqueue? && s.id in Next(db, s).waiters
    ensures var w := Next(db, s).waiters[s.id];
            && w.status == Queued && w.resourceId == s.resourceId && w.createdAt == s.now
            && (s.waitSeconds >= 1.0 ==> w.expiresAt == s.now + s.waitSeconds)
            && (s.waitSeconds < 1.0 ==> w.expiresAt == s.now + 1.0)
            && (1 <= s.priority <= 1000 ==> w.priority == s.priority)
            && (s.priority < 1 ==> w.priority == 1) && (s.priority > 1000 ==> w.priority == 1000)
  {
    hide ViewOf, ValidLane, IsFirst, Normalized;
  }

  /** The name of a lane: a small letter first, then at least one small letter, digit or underscore, 64 in all. */
  predicate LaneName(lane: string) {
    && 1 < |lane| < 65 && !IsDigit(lane[0]) && lane[0] != '_'
    && forall c :: c in lane ==> 'a' <= c <= 'z' || IsDigit(c) || c == '_'
  }

  /** A waiter with an unused id is taken exactly if some spelling in small letters of its lane, blanks around it
      aside, is such a name; that is then its lane. */
  lemma EnqueueTakesLanes(db: Db, s: Step)
    requires s.Enqueue? && s.id !in db.waiters
    ensures ReplyOf(db, s).Enqueued? <==> exists lane :: CaseVariant(Strip(s.lane), lane) && LaneName(lane)
    ensures ReplyOf(db, s).Enqueued? ==>
              s.id in Next(db, s).waiters && var lane := Next(db, s).waiters[s.id].lane;
              CaseVariant(Strip(s.lane), lane) && LaneName(lane)
  {
    hide Strip, ViewOf, IsFirst, CaseVariant, Lower, ValidLane, LaneName;
    var lane := Normalized(s.lane);
    SmallLane(Strip(s.lane));
    LaneNameIff(lane);
    forall l | CaseVariant(Strip(s.lane), l) && LaneName(l) ensures l == lane {
      LowerVariant(Strip(s.lane), l);
      NameIsSmall(l);
    }
  }

  lemma SmallLane(s: string)
    ensures CaseVariant(s, Lower(s))
  {
    assert forall i :: 0 <= i < |s| ==> Lower(s)[i] == LowerChar(s[i]);
  }

  lemma NameIsSmall(lane: string)
    requires LaneName(lane)
    ensures Lower(lane) == lane
  {
    forall i | 0 <= i < |lane| ensures Lower(lane)[i] == lane[i] { assert lane[i] in lane; }
  }

  lemma LaneNameIff(lane: string)
    ensures ValidLane(lane) <==> LaneName(lane)
  {
    if LaneName(lane) { assert forall i :: 0 <= i < |lane| ==> lane[i] in lane; }
    if ValidLane(lane) {
      forall c | c in lane ensures 'a' <= c <= 'z' || IsDigit(c) || c == '_' {
        var i :| 0 <= i < |lane| && lane[i] == c;
      }
    }
  }

  /** The arrivals that the bound on overtaking counts, one by one. */
  lemma {:induction false} ArrivalsAreCounted(steps: seq<Step>, w: WaiterId, row: Waiter)
    ensures ArrivalsAhead(steps, w, row) == |set k | 0 <= k < |steps| && ArrivesAhead(steps[k], w, row)|
  {
    hide ArrivesAhead;
    var all := set k | 0 <= k < |steps| && ArrivesAhead(steps[k], w, row);
    if steps == [] {
      assert all == {};
    } else {
      var n := |steps| - 1;
      var front := steps[..n];
      ArrivalsAreCounted(front, w, row);
      LastArrival(front, steps[n], w, row);
      assert front + [steps[n]] == steps;
      var before := set k | 0 <= k < |front| && ArrivesAhead(front[k], w, row);
      assert all == if ArrivesAhead(steps[n], w, row) then before + {n} else before;
    }
  }

  lemma {:induction false} LastArrival(steps: seq<Step>, s: Step, w: WaiterId, row: Waiter)
    ensures ArrivalsAhead(steps + [s], w, row) ==
              ArrivalsAhead(steps, w, row) + if ArrivesAhead(s, w, row) then 1 else 0
  {
    hide ArrivesAhead;
    if steps == [] {
      assert [] + [s] == [s] && [s][1..] == [];
    } else {
      assert (steps + [s])[1..] == steps[1..] + [s];
      LastArrival(steps[1..], s, w, row);
    }
  }

  /** A clock that never goes back: every call is at or after those before it. */
  lemma {:induction false} ClockRunsIff(steps: seq<Step>, from: Time)
    ensures ClockRuns(steps, from) <==>
              && (forall i :: 0 <= i < |steps| ==> from <= steps[i].now)
              && forall i, j :: 0 <= i < j < |steps| ==> steps[i].now <= steps[j].now
  {
    if steps != [] {
      var rest := steps[1..];
      ClockRunsIff(rest, steps[0].now);
      assert forall i :: 0 < i < |steps| ==> steps[i] == rest[i - 1];
      if ClockRuns(steps, from) {
        forall i, j | 0 <= i < j < |steps| ensures steps[i].now <= steps[j].now {
          if i > 0 { assert rest[i - 1].now <= rest[j - 1].now; }
        }
      }
    }
  }

  /** A waiter that still queues is only expired by a call at or after its expiry. */
  lemma WaiterStep(db: Db, s: Step, w: WaiterId)
    requires w in db.waiters && db.waiters[w].status == Queued && s.now < db.waiters[w].expiresAt
    requires s.TryAcquire? ==> s.id != w || !ReplyOf(db, s).Granted?
    requires s.CancelWaiter? ==> s.id != w
    ensures w in Next(db, s).waiters && Next(db, s).waiters[w] == db.waiters[w]
  {
    hide ViewOf, ValidLane, IsFirst, Normalized, ClampPriority;
  }

  lemma FirstNotGranted(db: Db, steps: seq<Step>, w: WaiterId)
    requires steps != [] && w !in Grants(db, steps)
    ensures ReplyOf(db, steps[0]).Granted? && steps[0].TryAcquire? ==> steps[0].id != w
    ensures w !in Grants(Next(db, steps[0]), steps[1..])
  {
    hide Apply;
  }

  /** Until its expiry a waiter keeps its place in the queue, unless it is granted or cancelled. */
  lemma {:induction false} WaiterKeepsPlace(db: Db, steps: seq<Step>, w: WaiterId)
    requires w in db.waiters && db.waiters[w].status == Queued && Before(steps, db.waiters[w].expiresAt)
    requires w !in Grants(db, steps) && forall s :: s in steps && s.CancelWaiter? ==> s.id != w
    ensures w in Run(db, steps).waiters && Run(db, steps).waiters[w] == db.waiters[w]
    decreases |steps|
  {
    hide Apply;
    if steps != [] {
      assert steps[0] in steps;
      FirstNotGranted(db, steps, w);
      WaiterStep(db, steps[0], w);
      WaiterKeepsPlace(Next(db, steps[0]), steps[1..], w);
    }
  }

  /** From its expiry on a waiter is granted by nothing. */
  lemma ExpiredNotGranted(db: Db, s: Step, w: WaiterId)
    requires w in db.waiters && s.TryAcquire? && s.id == w && db.waiters[w].expiresAt <= s.now
    ensures !ReplyOf(db, s).Granted?
    ensures w in Next(db, s).waiters && Next(db, s).waiters[w].status != Queued
  {
    hide ViewOf, ValidLane, IsFirst, Normalized, ClampPriority;
  }

  // ---- what a snapshot shows ----

  /** A snapshot reports the running lease, if one is running, and everybody still waiting. */
  lemma SnapshotShows(db: Db, now: Time)
    ensures var view := ReplyOf(db, Snapshot(now));
            var running := db.resource.holder.Some? && db.resource.holder.value.expiresAt > now;
            && view.View? && view.token == db.resource.fencingToken
            && (running ==>
                  && view.lane == db.resource.holder.value.lane && view.priority == db.resource.holder.value.priority
                  && view.expiresAt == Some(db.resource.holder.value.expiresAt))
            && (!running ==> view.lane == "" && view.priority == 0 && view.expiresAt == None)
            && view.queued == |set id | id in db.waiters && db.waiters[id].status == Queued
                && db.waiters[id].expiresAt > now|
  {
    hide ValidLane, IsFirst, Normalized, ClampPriority;
    assert QueuedIds(Expire(db, now))
        == set id | id in db.waiters && db.waiters[id].status == Queued && db.waiters[id].expiresAt > now;
  }

  // ---- giving it up ----

  /** An accepted release ends its own waiter, frees the resource and touches nothing else. */
  lemma ReleaseFrees(db: Db, grants: seq<WaiterId>, lease: Lease, now: Time)
    requires Inv(db, grants) && Matches(db, lease)
    ensures ReplyOf(db, Release(now, lease)) == Flag(true)
    ensures var after := Next(db, Release(now, lease));
            && after.resource == Resource(db.resource.fencingToken, None)
            && after.waiters.Keys == db.waiters.Keys
            && (forall id :: id in db.waiters && id != lease.waiterId ==> after.waiters[id] == db.waiters[id])
            && lease.waiterId in db.waiters
            && after.waiters[lease.waiterId] == db.waiters[lease.waiterId].(status := Completed)
  {
    hide ViewOf, ValidLane, IsFirst, Normalized, ClampPriority;
  }

  /** A cancellation ends a queued waiter and touches nothing else. */
  lemma CancelEnds(db: Db, id: WaiterId, now: Time)
    ensures var after := Next(db, CancelWaiter(now, id));
            && after.resource == db.resource && after.waiters.Keys == db.waiters.Keys
            && (forall other :: other in db.waiters ==>
                  after.waiters[other] ==
                  if other == id && db.waiters[id].status == Queued then db.waiters[id].(status := Cancelled)
                  else db.waiters[other])
  {
    hide ViewOf, ValidLane, IsFirst, Normalized, ClampPriority;
  }
}
