/** The admission queue: the lease bracket around one unit of work, and its heartbeat task.
    Other clients run between any two repository calls; their calls are given as schedules. */
module AdmissionService {
  import opened Prelude
  import opened Text
  import opened AcceleratorModel
  import opened AcceleratorProofs
  import opened AcceleratorLeases
  import opened AcceleratorRepository

  const LANE_PRIORITIES: map<string, int> := map[
    "main_conversation" := 100,
    "main_repair" := 95,
    "runtime_health" := 85,
    "research_decision" := 60,
    "action_ticket_review" := 50,
    "email_summary" := 40,
    "email_classifier" := 35,
    "document_vlm" := 10
  ]

  /** One turn of the polling loop: what others do first, the loop clock, the ledger clock. */
  datatype Poll = Poll(others: seq<Step>, loopTime: Time, now: Time)

  /** One turn of the heartbeat task; a fault is an exception out of the repository call. */
  datatype Beat = Beat(others: seq<Step>, now: Time, fault: bool)

  datatype Outcome = LaneNotAllowed | AdmissionTimeout | Held(lease: Lease, lost: bool)

  lemma NormalizedIdempotent(lane: string)
    ensures Normalized(Normalized(lane)) == Normalized(lane)
  {
    LowerKeepsStripped(Strip(lane));
    StripFixed(Normalized(lane));
    LowerIdempotent(Strip(lane));
  }

  lemma AllowedLanesAreValid(lane: string)
    requires lane in LANE_PRIORITIES
    ensures ValidLane(lane) && ClampPriority(LANE_PRIORITIES[lane]) == LANE_PRIORITIES[lane]
  {}

  /** Nobody else polls with this client's waiter id. */
  predicate Private(steps: seq<Step>, id: WaiterId) {
    forall s :: s in steps && s.TryAcquire? ==> s.id != id
  }

  lemma {:induction false} PrivateNotGranted(db: Db, steps: seq<Step>, id: WaiterId)
    requires Private(steps, id)
    ensures id !in Grants(db, steps)
    decreases |steps|
  {
    hide ViewOf, ValidLane, IsFirst, Normalized, ClampPriority, Expire;
    if steps != [] {
      assert steps[0] in steps;
      PrivateNotGranted(Next(db, steps[0]), steps[1..], id);
    }
  }

  /** The repository calls of one beat, and of a stretch of beats. */
  function OneBeat(b: Beat, lease: Lease, leaseSeconds: real): seq<Step> {
    b.others + (if b.fault then [] else [Heartbeat(b.now, lease, leaseSeconds)])
  }

  function BeatTrace(beats: seq<Beat>, lease: Lease, leaseSeconds: real): seq<Step> {
    if beats == [] then []
    else BeatTrace(beats[..|beats| - 1], lease, leaseSeconds) + OneBeat(beats[|beats| - 1], lease, leaseSeconds)
  }

  predicate BeatsPrivate(beats: seq<Beat>, id: WaiterId) {
    forall b :: b in beats ==> Private(b.others, id)
  }

  lemma {:induction false} BeatTracePrivate(beats: seq<Beat>, lease: Lease, seconds: real, id: WaiterId)
    requires BeatsPrivate(beats, id)
    ensures Private(BeatTrace(beats, lease, seconds), id)
  {
    if beats != [] {
      BeatTracePrivate(beats[..|beats| - 1], lease, seconds, id);
      assert beats[|beats| - 1] in beats;
    }
  }

  lemma {:induction false} OnTimePrefix(a: seq<Step>, b: seq<Step>, lease: Lease, last: Time, span: real)
    requires OnTime(a + b, lease, last, span)
    ensures OnTime(a, lease, last, span)
  {
    if a != [] {
      assert (a + b)[1..] == a[1..] + b;
      OnTimePrefix(a[1..], b, lease, if Renews(a[0], lease) then a[0].now else last, span);
    }
  }

  class AdmissionQueue {
    const repository: LeaseRepository
    const leaseSeconds: real
    const heartbeatSeconds: real
    const pollSeconds: real

    /** The clamps leave at least half a lease between a heartbeat falling due and the expiry. */
    constructor (repository: LeaseRepository, lease: real, heartbeat: real, poll: real)
      ensures this.repository == repository
      ensures 5.0 <= leaseSeconds <= 900.0 && 0.5 <= heartbeatSeconds <= leaseSeconds / 2.0
      ensures 0.01 <= pollSeconds <= 1.0
      ensures 5.0 <= lease <= 900.0 ==> leaseSeconds == lease
      ensures 0.5 <= heartbeat <= leaseSeconds / 2.0 ==> heartbeatSeconds == heartbeat
    {
      this.repository := repository;
      var l := MaxReal(5.0, MinReal(lease, 900.0));
      leaseSeconds := l;
      heartbeatSeconds := MaxReal(0.5, MinReal(heartbeat, l / 2.0));
      pollSeconds := MaxReal(0.01, MinReal(poll, 1.0));
    }

    /** `_heartbeat`, until it gives up or the schedule ends (the body finished and cancelled it).
        With every call on time and no fault, `lost` is never set and nobody else is granted. */
    method HeartbeatTask(lease: Lease, beats: seq<Beat>) returns (lost: bool, done: nat)
      requires repository.Valid()
      modifies repository
      ensures repository.Valid() && done <= |beats|
      ensures var trace := BeatTrace(beats[..done], lease, leaseSeconds);
              && repository.Ledger() == Run(old(repository.Ledger()), trace)
              && repository.grants == old(repository.grants) + Grants(old(repository.Ledger()), trace)
      ensures !lost ==> done == |beats|
      ensures lost ==> done > 0 && (beats[done - 1].fault || !Matches(repository.Ledger(), lease))
      ensures forall last: Time :: Undisturbed(old(repository.Ledger()), lease, beats, last) ==>
                !lost && Matches(repository.Ledger(), lease) && repository.grants == old(repository.grants)
      ensures forall from: Time, last: Time ::
                Clamped() && SlightlyLate(old(repository.Ledger()), lease, beats, from, last) ==>
                !lost && Matches(repository.Ledger(), lease) && repository.grants == old(repository.grants)
    {
      hide Apply, Inv, OnTime, ClampLease, Matches, Run, Grants, OneBeat;
      ghost var start := repository.Ledger();
      lost, done := false, 0;
      RunNothing(start);
      assert repository.grants + [] == repository.grants;
      while done < |beats| && !lost
        invariant repository.Valid() && done <= |beats|
        invariant repository.Ledger() == Run(start, BeatTrace(beats[..done], lease, leaseSeconds))
        invariant repository.grants
               == old(repository.grants) + Grants(start, BeatTrace(beats[..done], lease, leaseSeconds))
        invariant lost ==> done > 0 && (beats[done - 1].fault || !Matches(repository.Ledger(), lease))
        decreases |beats| - done
      {
        assert beats[..done + 1][..done] == beats[..done];
        RunAppend(start, BeatTrace(beats[..done], lease, leaseSeconds), OneBeat(beats[done], lease, leaseSeconds));
        lost := BeatOnce(lease, beats[done]);
        done := done + 1;
      }
      assert done > 0 ==> beats[done - 1] in beats;
      forall last: Time | Undisturbed(start, lease, beats, last)
        ensures !lost && Matches(repository.Ledger(), lease) && repository.grants == old(repository.grants)
      {
        UndisturbedPrefix(start, lease, beats, done, last);
      }
      forall from: Time, last: Time | Clamped() && SlightlyLate(start, lease, beats, from, last)
        ensures !lost && Matches(repository.Ledger(), lease) && repository.grants == old(repository.grants)
      {
        LateIsUndisturbed(start, lease, beats, from, last);
        UndisturbedPrefix(start, lease, beats, done, last);
      }
    }

    /** Sleep while others run, then renew once. */
    method BeatOnce(lease: Lease, beat: Beat) returns (lost: bool)
      requires repository.Valid()
      modifies repository
      ensures repository.Valid()
      ensures repository.Ledger() == Run(old(repository.Ledger()), OneBeat(beat, lease, leaseSeconds))
      ensures repository.grants
           == old(repository.grants) + Grants(old(repository.Ledger()), OneBeat(beat, lease, leaseSeconds))
      ensures lost <==> beat.fault || !Matches(repository.Ledger(), lease)
    {
      hide Apply, Inv, ClampLease, Run, Grants;
      repository.Interleave(beat.others);
      if beat.fault {
        assert OneBeat(beat, lease, leaseSeconds) == beat.others;
        return true;
      }
      ghost var s := Heartbeat(beat.now, lease, leaseSeconds);
      RunOne(repository.Ledger(), s);
      RunAppend(old(repository.Ledger()), beat.others, [s]);
      HeartbeatReply(repository.Ledger(), lease, leaseSeconds, beat.now);
      var renewed := repository.HeartbeatLease(lease, leaseSeconds, beat.now);
      lost := !renewed;
    }

    /** The holder was last renewed at `last`, no beat faults, and every call comes on time. */
    ghost predicate Undisturbed(db: Db, lease: Lease, beats: seq<Beat>, last: Time) {
      && Matches(db, lease) && db.resource.holder.value.expiresAt == last + ClampLease(leaseSeconds)
      && (forall b :: b in beats ==> !b.fault)
      && OnTime(BeatTrace(beats, lease, leaseSeconds), lease, last, ClampLease(leaseSeconds))
    }

    /** What the constructor's clamps leave. */
    predicate Clamped() { 5.0 <= leaseSeconds <= 900.0 && heartbeatSeconds <= leaseSeconds / 2.0 }

    /** On a clock that never goes back no beat faults, and each comes less than half a lease after it fell due,
        that is after the latest renewal and one heartbeat; the others neither renew nor release this lease. */
    ghost predicate SlightlyLate(db: Db, lease: Lease, beats: seq<Beat>, from: Time, last: Time) {
      && Matches(db, lease) && db.resource.holder.value.expiresAt == last + leaseSeconds
      && ClockRuns(BeatTrace(beats, lease, leaseSeconds), from)
      && (forall b :: b in beats ==> !b.fault && LeaveAlone(b.others, lease))
      && DelaysBelow(beats, last, heartbeatSeconds, leaseSeconds / 2.0)
    }

    /** The grant is where it starts: from the granting call on, slightly late beats never lose the lease. */
    lemma GrantIsUndisturbed(db: Db, s: Step, beats: seq<Beat>)
      requires Clamped() && ReplyOf(db, s).Granted? && s.TryAcquire? && s.leaseSeconds == leaseSeconds
      requires var lease := ReplyOf(db, s).lease;
               && ClockRuns(BeatTrace(beats, lease, leaseSeconds), s.now)
               && (forall b :: b in beats ==> !b.fault && LeaveAlone(b.others, lease))
               && DelaysBelow(beats, s.now, heartbeatSeconds, leaseSeconds / 2.0)
      ensures SlightlyLate(Next(db, s), ReplyOf(db, s).lease, beats, s.now, s.now)
      ensures var after := Run(Next(db, s), BeatTrace(beats, ReplyOf(db, s).lease, leaseSeconds));
              Matches(after, ReplyOf(db, s).lease)
                  && Grants(Next(db, s), BeatTrace(beats, ReplyOf(db, s).lease, leaseSeconds)) == []
    {
      GrantLasts(db, s);
      GrantMatches(db, s);
      hide Apply, ClockRuns, BeatTrace, LeaveAlone, DelaysBelow, Run, Grants;
      var lease := ReplyOf(db, s).lease;
      LateIsUndisturbed(Next(db, s), lease, beats, s.now, s.now);
      assert beats[..|beats|] == beats;
      UndisturbedPrefix(Next(db, s), lease, beats, |beats|, s.now);
    }

    /** With the clamps, being late by less than half a lease is being on time. */
    lemma LateIsUndisturbed(db: Db, lease: Lease, beats: seq<Beat>, from: Time, last: Time)
      requires Clamped() && SlightlyLate(db, lease, beats, from, last)
      ensures Undisturbed(db, lease, beats, last)
    {
      assert ClampLease(leaseSeconds) == leaseSeconds;
      if beats != [] {
        var trace := BeatTrace(beats, lease, leaseSeconds);
        BeatsKeep(beats, lease, leaseSeconds);
        BeatGaps(beats, lease, leaseSeconds, heartbeatSeconds, last);
        hide Matches, BeatTrace, GapsBelow, OnTime, DelaysBelow, HolderKeeps, ClampLease;
        GapsMakeOnTime(trace, lease, from, last, leaseSeconds);
      }
    }

    lemma UndisturbedPrefix(db: Db, lease: Lease, beats: seq<Beat>, n: nat, last: Time)
      requires n <= |beats| && Undisturbed(db, lease, beats, last)
      ensures var trace := BeatTrace(beats[..n], lease, leaseSeconds);
              && Matches(Run(db, trace), lease) && Grants(db, trace) == []
    {
      hide Apply, ClampLease;
      var rest := BeatTraceSplit(beats, n, lease, leaseSeconds);
      OnTimePrefix(BeatTrace(beats[..n], lease, leaseSeconds), rest, lease, last, ClampLease(leaseSeconds));
      TimedSafety(db, BeatTrace(beats[..n], lease, leaseSeconds), lease, last, ClampLease(leaseSeconds));
    }

    /** Sleep while others run, then try once. */
    method PollOnce(id: WaiterId, poll: Poll) returns (acquired: Option<Lease>)
      requires repository.Valid() && Private(poll.others, id)
      requires id in repository.waiters && repository.waiters[id].resourceId == GPU0 && id !in repository.grants
      modifies repository
      ensures repository.Valid()
      ensures id in repository.waiters && Evolves(old(repository.waiters[id]), repository.waiters[id])
      ensures acquired.None? ==> id !in repository.grants
      ensures acquired.Some? ==> GrantedTo(acquired.value, id, repository.grants)
    {
      hide Apply, Inv, Run, Grants;
      PrivateNotGranted(repository.Ledger(), poll.others, id);
      RunEvolves(repository.Ledger(), poll.others, id);
      repository.Interleave(poll.others);
      ghost var s := TryAcquire(poll.now, id, leaseSeconds);
      StepEvolves(repository.Ledger(), s, id);
      AcquireReply(repository.Ledger(), s, repository.grants);
      var answer := repository.TryAcquireLease(id, leaseSeconds, poll.now);
      match answer {
        case Ok(lease) => acquired := lease;
        case Err(_) => assert false; // the waiter queues for the row that exists
      }
    }

    /** `lease()`: enqueue, poll until granted or the deadline, hold, and always settle on the way out.
        Whatever other clients do, no waiter is left queued and no lease is left held. */
    method WithLease(lane: string, waitSeconds: real, id: WaiterId, enqueuedAt: Time, startedAt: Time,
                     polls: seq<Poll>, beats: seq<Beat>, closing: seq<Step>, closedAt: Time)
      returns (outcome: Outcome)
      requires repository.Valid()
      requires id !in repository.waiters // uuid4
      requires (forall p :: p in polls ==> Private(p.others, id)) && BeatsPrivate(beats, id) && Private(closing, id)
      modifies repository
      ensures repository.Valid()
      ensures outcome.LaneNotAllowed? <==> Normalized(lane) !in LANE_PRIORITIES
      ensures outcome.LaneNotAllowed? ==> repository.Ledger() == old(repository.Ledger())
      ensures !outcome.LaneNotAllowed? ==>
                && id in repository.waiters && Terminal(repository.waiters[id].status)
                && (repository.resource.holder.Some? ==> repository.resource.holder.value.owner != id)
                && repository.waiters[id].priority == LANE_PRIORITIES[Normalized(lane)]
      ensures !outcome.LaneNotAllowed? ==> (outcome.Held? <==> id in repository.grants)
      ensures outcome.Held? ==>
                outcome.lease.waiterId == id
                && 1 <= outcome.lease.fencingToken <= |repository.grants|
                && repository.grants[outcome.lease.fencingToken - 1] == id
    {
      hide Apply, Inv, ClampPriority, LANE_PRIORITIES, Normalized, ValidLane, Ahead, Run, Grants;
      var normalized := Normalized(lane);
      if normalized !in LANE_PRIORITIES { return LaneNotAllowed; }
      NormalizedIdempotent(lane);
      AllowedLanesAreValid(normalized);
      var boundedWait := MaxReal(0.1, MinReal(waitSeconds, 900.0));
      ghost var enqueue := Enqueue(enqueuedAt, id, normalized, LANE_PRIORITIES[normalized], boundedWait, GPU0);
      FreshEnqueue(repository.Ledger(), repository.grants, enqueue);
      var _ := repository.EnqueueWaiter(normalized, LANE_PRIORITIES[normalized], boundedWait, GPU0, enqueuedAt, id);
      var deadline := startedAt + boundedWait;
      var acquired: Option<Lease> := None;
      ghost var row := repository.waiters[id];
      var i := 0;
      while i < |polls| && polls[i].loopTime < deadline && acquired.None?
        invariant repository.Valid() && i <= |polls|
        invariant id in repository.waiters && Evolves(row, repository.waiters[id])
        invariant acquired.None? ==> id !in repository.grants
        invariant acquired.Some? ==> GrantedTo(acquired.value, id, repository.grants)
        decreases |polls| - i, acquired.None?
      {
        assert polls[i] in polls;
        acquired := PollOnce(id, polls[i]);
        i := i + 1;
      }
      if acquired.None? {
        ghost var db := repository.Ledger();
        PrivateNotGranted(db, closing, id);
        RunEvolves(db, closing, id);
        repository.Interleave(closing);
        CancelSettles(repository.Ledger(), repository.grants, id, closedAt);
        repository.CancelQueuedWaiter(id, closedAt);
        return AdmissionTimeout;
      }
      var lease := acquired.value;
      ghost var db := repository.Ledger();
      var lost, done := HeartbeatTask(lease, beats);
      RunEvolves(db, BeatTrace(beats[..done], lease, leaseSeconds), id);
      ghost var held := repository.Ledger();
      RunEvolves(held, closing, id);
      repository.Interleave(closing);
      ReleaseSettles(repository.Ledger(), repository.grants, lease, closedAt);
      var _ := repository.ReleaseLease(lease, closedAt);
      outcome := Held(lease, lost);
    }
  }

  predicate GrantedTo(lease: Lease, id: WaiterId, grants: seq<WaiterId>) {
    && lease.waiterId == id && lease.resourceId == GPU0
    && 1 <= lease.fencingToken <= |grants| && grants[lease.fencingToken - 1] == id
  }

  lemma FreshEnqueue(db: Db, grants: seq<WaiterId>, s: Step)
    requires Inv(db, grants) && s.Enqueue? && s.id !in db.waiters && ValidLane(Normalized(s.lane))
    ensures s.id in Next(db, s).waiters && Next(db, s).waiters[s.id] == NewWaiter(s)
    ensures s.id !in grants
  {
    hide ViewOf, IsFirst, Normalized, ClampPriority;
  }

  lemma HeartbeatReply(db: Db, lease: Lease, seconds: real, now: Time)
    ensures var s := Heartbeat(now, lease, seconds);
            && (ReplyOf(db, s) == Flag(Matches(db, lease)))
            && (Matches(Next(db, s), lease) <==> Matches(db, lease))
  {}

  lemma RunNothing(db: Db)
    ensures Run(db, []) == db && Grants(db, []) == []
  {}

  lemma AcquireReply(db: Db, s: Step, grants: seq<WaiterId>)
    requires s.TryAcquire? && Inv(db, grants)
    ensures ReplyOf(db, s).Granted? ==>
              GrantOf(db, s) == [s.id] && GrantedTo(ReplyOf(db, s).lease, s.id, grants + [s.id])
    ensures !ReplyOf(db, s).Granted? ==> GrantOf(db, s) == []
    ensures s.id in db.waiters && db.waiters[s.id].resourceId == GPU0 ==> !ReplyOf(db, s).Failed?
  {
    hide ViewOf, IsFirst;
  }

  lemma CancelSettles(db: Db, grants: seq<WaiterId>, id: WaiterId, now: Time)
    requires Inv(db, grants) && id in db.waiters && id !in grants
    ensures var after := Next(db, CancelWaiter(now, id));
            after.resource.holder.Some? ==> after.resource.holder.value.owner != id
    ensures id in Next(db, CancelWaiter(now, id)).waiters
    ensures Terminal(Next(db, CancelWaiter(now, id)).waiters[id].status)
    ensures Next(db, CancelWaiter(now, id)).waiters[id].(status := Queued) == db.waiters[id].(status := Queued)
  {}

  /** After a release the waiter has ended, whether the lease was still its own or had been reaped. */
  lemma ReleaseSettles(db: Db, grants: seq<WaiterId>, lease: Lease, now: Time)
    requires Inv(db, grants) && GrantedTo(lease, lease.waiterId, grants) && lease.waiterId in db.waiters
    ensures var after := Next(db, Release(now, lease));
            && lease.waiterId in after.waiters && Terminal(after.waiters[lease.waiterId].status)
            && (after.resource.holder.Some? ==> after.resource.holder.value.owner != lease.waiterId)
            && after.waiters[lease.waiterId].(status := Queued) == db.waiters[lease.waiterId].(status := Queued)
  {
    assert lease.waiterId in grants;
  }

  lemma {:induction false} BeatTraceSplit(beats: seq<Beat>, n: nat, lease: Lease, seconds: real)
      returns (rest: seq<Step>)
    requires n <= |beats|
    ensures BeatTrace(beats, lease, seconds) == BeatTrace(beats[..n], lease, seconds) + rest
  {
    if n == |beats| {
      assert beats[..n] == beats;
      rest := [];
    } else {
      var b := beats[|beats| - 1];
      var rest' := BeatTraceSplit(beats[..|beats| - 1], n, lease, seconds);
      assert beats[..|beats| - 1][..n] == beats[..n];
      rest := rest' + OneBeat(b, lease, seconds);
    }
  }

  /** Somebody else's steps: no heartbeat and no release of this lease. */
  predicate LeaveAlone(steps: seq<Step>, lease: Lease) {
    forall s :: s in steps ==>
      !(s.Heartbeat? && SameLease(s.lease, lease)) && !(s.Release? && SameLease(s.lease, lease))
  }

  function LatestBeat(beats: seq<Beat>, last: Time): Time { if beats == [] then last else beats[|beats| - 1].now }

  /** Each beat comes less than `slack` after it fell due. */
  predicate DelaysBelow(beats: seq<Beat>, last: Time, heartbeatSeconds: real, slack: real) {
    beats == [] ||
    (&& DelaysBelow(beats[..|beats| - 1], last, heartbeatSeconds, slack)
     && beats[|beats| - 1].now < LatestBeat(beats[..|beats| - 1], last) + heartbeatSeconds + slack)
  }

  function LastRenewal(steps: seq<Step>, lease: Lease, last: Time): Time {
    if steps == [] then last
    else LastRenewal(steps[1..], lease, if Renews(steps[0], lease) then steps[0].now else last)
  }

  lemma {:induction false} GapsConcat(a: seq<Step>, b: seq<Step>, lease: Lease, last: Time, span: real)
    requires GapsBelow(a, lease, last, span) && GapsBelow(b, lease, LastRenewal(a, lease, last), span)
    ensures GapsBelow(a + b, lease, last, span)
    ensures LastRenewal(a + b, lease, last) == LastRenewal(b, lease, LastRenewal(a, lease, last))
  {
    if a == [] {
      assert a + b == b;
    } else {
      assert (a + b)[1..] == a[1..] + b;
      GapsConcat(a[1..], b, lease, if Renews(a[0], lease) then a[0].now else last, span);
    }
  }

  lemma {:induction false} OthersGaps(others: seq<Step>, lease: Lease, last: Time, span: real)
    requires LeaveAlone(others, lease)
    ensures GapsBelow(others, lease, last, span) && LastRenewal(others, lease, last) == last
  {
    if others != [] {
      assert others[0] in others;
      OthersGaps(others[1..], lease, last, span);
    }
  }

  /** Renewals follow each other less than a lease apart. */
  lemma {:induction false} BeatGaps(beats: seq<Beat>, lease: Lease, leaseSeconds: real, heartbeatSeconds: real,
      last: Time)
    requires 5.0 <= leaseSeconds <= 900.0 && heartbeatSeconds <= leaseSeconds / 2.0
    requires forall b :: b in beats ==> !b.fault && LeaveAlone(b.others, lease)
    requires DelaysBelow(beats, last, heartbeatSeconds, leaseSeconds / 2.0)
    ensures GapsBelow(BeatTrace(beats, lease, leaseSeconds), lease, last, leaseSeconds)
    ensures LastRenewal(BeatTrace(beats, lease, leaseSeconds), lease, last) == LatestBeat(beats, last)
    ensures beats != [] ==> var t := BeatTrace(beats, lease, leaseSeconds); t != [] && Renews(t[|t| - 1], lease)
  {
    hide LeaveAlone;
    if beats != [] {
      var front, b := beats[..|beats| - 1], beats[|beats| - 1];
      BeatGaps(front, lease, leaseSeconds, heartbeatSeconds, last);
      assert b in beats;
      var latest, renewal := LatestBeat(front, last), [Heartbeat(b.now, lease, leaseSeconds)];
      HeartbeatSlack(leaseSeconds, heartbeatSeconds, latest, b.now - latest - heartbeatSeconds);
      OthersGaps(b.others, lease, latest, leaseSeconds);
      assert renewal[1..] == [];
      GapsConcat(b.others, renewal, lease, latest, leaseSeconds);
      GapsConcat(BeatTrace(front, lease, leaseSeconds), b.others + renewal, lease, last, leaseSeconds);
    }
  }

  lemma {:induction false} BeatsKeep(beats: seq<Beat>, lease: Lease, leaseSeconds: real)
    requires 5.0 <= leaseSeconds <= 900.0
    requires forall b :: b in beats ==> LeaveAlone(b.others, lease)
    ensures forall s :: s in BeatTrace(beats, lease, leaseSeconds) ==> HolderKeeps(s, lease, leaseSeconds)
  {
    if beats != [] {
      var b := beats[|beats| - 1];
      BeatsKeep(beats[..|beats| - 1], lease, leaseSeconds);
      assert LeaveAlone(b.others, lease);
    }
  }

  /** A renewal that lands less than half a lease after it fell due is less than a lease after the last. */
  lemma HeartbeatSlack(leaseSeconds: real, heartbeatSeconds: real, last: Time, delay: real)
    requires 5.0 <= leaseSeconds <= 900.0 && heartbeatSeconds <= leaseSeconds / 2.0
    requires delay < leaseSeconds / 2.0
    ensures last + heartbeatSeconds + delay < last + ClampLease(leaseSeconds)
  {}
}
