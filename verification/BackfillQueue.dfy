/** The script's operations over the job table, one worker run interleaved with everybody else's steps. */
module BackfillQueue {
  import opened Prelude
  import opened Text
  import opened EmailBackfill
  import opened BackfillTotals

  /** What the provider call came back with: an exception, or six counts of any sign and a token. */
  datatype Reply =
    | Raised
    | Replied(candidates: int, accepted: int, ignored: int, failed: int, summaries: int, classifications: int,
        token: string)

  function NonNegative(n: int): nat { MaxInt(0, n) }

  function AnswerOf(r: Reply): Answer
    requires r.Replied?
  {
    Answer(PageResult(NonNegative(r.candidates), NonNegative(r.accepted), NonNegative(r.ignored), NonNegative(r.failed),
                      NonNegative(r.summaries), NonNegative(r.classifications)),
           if Strip(r.token) == "" then None else Some(Strip(r.token)))
  }

  /** What everybody else does between this worker's own steps. */
  datatype Gaps = Gaps(beforeEnqueue: seq<Event>, beforeCheckpoint: seq<Event>, beforeComplete: seq<Event>,
      beforeRetry: seq<Event>)

  datatype Report = Idle | PageDone(state: PageState, id: nat, continued: bool) | RetryNoted | LeaseLost

  datatype StatusReport = StatusReport(
    counts: map<Status, nat>, outcomes: PageResult, deadLetters: nat, paginationComplete: bool, partial: bool,
        returned: nat)

  datatype BackfillError = OutOfBounds | OverBudget

  // ---- one worker's own steps, in order ----

  function Claiming(w: nat, now: int, gaps: Gaps): seq<Event> { [Claim(w, now)] + gaps.beforeEnqueue }

  function Enqueuing(row: nat, a: Answer, continued: bool, later: int, gaps: Gaps): seq<Event> {
    (if continued then [Continue(row, a, later)] else []) + gaps.beforeCheckpoint
  }

  function Checkpointing(row: nat, w: nat, fence: nat, a: Answer, gaps: Gaps): seq<Event> {
    [Checkpoint(row, w, fence, a)] + gaps.beforeComplete
  }

  function GivingBack(row: nat, w: nat, fence: nat, later: int, gaps: Gaps): seq<Event> {
    gaps.beforeRetry + [Retry(row, w, fence, later)]
  }

  lemma RunSnoc(jobs: seq<Job>, trace: seq<Event>, e: Event)
    ensures Run(jobs, trace + [e]) == Next(Run(jobs, trace), e)
  {
    hide Next;
    assert (trace + [e])[..|trace|] == trace;
  }

  // ---- reporting ----

  function Sum(a: PageResult, b: PageResult): PageResult {
    PageResult(a.candidates + b.candidates, a.accepted + b.accepted, a.ignored + b.ignored, a.failed + b.failed,
               a.summaries + b.summaries, a.classifications + b.classifications)
  }

  const Zero := PageResult(0, 0, 0, 0, 0, 0)

  function Outcomes(rows: seq<Job>): PageResult {
    if rows == [] then Zero
    else
      var rest, j := Outcomes(rows[..|rows| - 1]), rows[|rows| - 1];
      if j.status.Completed? && j.outcome.Some? then Sum(rest, j.outcome.value.result) else rest
  }

  function CountOf(rows: seq<Job>, status: Status): nat {
    if rows == [] then 0 else CountOf(rows[..|rows| - 1], status) + if rows[|rows| - 1].status == status then 1 else 0
  }

  lemma {:induction false} OutcomesTotal(rows: seq<Job>)
    ensures Outcomes(rows).candidates == Total(rows)
  {
    if rows != [] { OutcomesTotal(rows[..|rows| - 1]); }
  }

  lemma {:induction false} CountWithin(rows: seq<Job>, n: nat, status: Status)
    requires n <= |rows|
    ensures CountOf(rows[..n], status) <= CountOf(rows, status)
  {
    if n < |rows| {
      CountWithin(rows[..|rows| - 1], n, status);
      assert rows[..|rows| - 1][..n] == rows[..n];
    } else {
      assert rows[..n] == rows;
    }
  }

  /** `backfill_status` over the rows it was given. */
  method BackfillStatus(rows: seq<Job>) returns (r: StatusReport)
    ensures forall s :: CountOf(rows, s) == if s in r.counts then r.counts[s] else 0
    ensures r.outcomes == Outcomes(rows) && r.outcomes.candidates == Total(rows)
    ensures r.deadLetters == CountOf(rows, DeadLetter) && r.returned == |rows|
    ensures r.paginationComplete <==> exists j :: j in rows && j.outcome.Some? && j.outcome.value.state.Finished?
    ensures r.partial <==> exists j :: j in rows && j.outcome.Some? && j.outcome.value.state.Partial?
  {
    var counts: map<Status, nat>, outcomes, states: set<PageState> := map[], Zero, {};
    for i := 0 to |rows|
      invariant forall s :: CountOf(rows[..i], s) == if s in counts then counts[s] else 0
      invariant outcomes == Outcomes(rows[..i])
      invariant forall p :: p in states <==>
                exists k :: 0 <= k < i && rows[k].outcome.Some? && rows[k].outcome.value.state == p
    {
      assert rows[..i + 1][..i] == rows[..i];
      var j := rows[i];
      counts := counts[j.status := (if j.status in counts then counts[j.status] else 0) + 1];
      if j.status.Completed? && j.outcome.Some? { outcomes := Sum(outcomes, j.outcome.value.result); }
      if j.outcome.Some? { states := states + {j.outcome.value.state}; }
    }
    assert rows[..|rows|] == rows;
    OutcomesTotal(rows);
    r := StatusReport(counts, outcomes, if DeadLetter in counts then counts[DeadLetter] else 0, Finished in states,
                      Partial in states, |rows|);
  }

  // ---- cancelling ----

  /** A page of the backfill that waits for a worker. */
  predicate Waiting(j: Job, id: nat) { j.page.id == id && (j.status.Pending? || j.status.Retrying?) }

  function WaitingCount(rows: seq<Job>, id: nat): nat {
    if rows == [] then 0 else WaitingCount(rows[..|rows| - 1], id) + if Waiting(rows[|rows| - 1], id) then 1 else 0
  }

  // ---- the queue ----

  class Queue {
    var jobs: seq<Job>

    constructor ()
      ensures jobs == []
    {
      jobs := [];
    }

    /** Other workers' steps. */
    method Interfere(events: seq<Event>)
      modifies this
      ensures jobs == Run(old(jobs), events)
    {
      hide Next;
      for n := 0 to |events|
        invariant jobs == Run(old(jobs), events[..n])
      {
        assert events[..n + 1][..n] == events[..n];
        jobs := Next(jobs, events[n]);
      }
      assert events[..|events|] == events;
    }

    /** `enqueue_job`: the row of the key, new or not. */
    method EnqueueJob(p: Page, now: int) returns (row: nat)
      modifies this
      ensures jobs == Enqueued(old(jobs), p, now)
      ensures row < |jobs| && row == RowOf(jobs, KeyOf(p)) && KeyOf(jobs[row].page) == KeyOf(p)
    {
      hide KeyOf;
      row := FindFirst((j: Job) => KeyOf(j.page) == KeyOf(p), jobs);
      if row == |jobs| {
        jobs := jobs + [NewJob(p, now)];
        FirstIs((j: Job) => KeyOf(j.page) == KeyOf(p), jobs, row);
      }
    }

    /** `_enqueue`: refused outside the bounds or the budget. */
    method EnqueuePage(p: Page, now: int) returns (r: Result<nat, BackfillError>)
      modifies this
      ensures r.Ok? <==> InBudget(p)
      ensures r.Err? ==> jobs == old(jobs)
      ensures r.Ok? ==> jobs == Enqueued(old(jobs), p, now) && r.value == RowOf(jobs, KeyOf(p)) < |jobs|
    {
      hide KeyOf;
      if !Bounded(p.size, p.pages, p.messages) { return Err(OutOfBounds); }
      if p.index < 0 || p.index >= p.pages || p.processed < 0 || p.processed >= p.messages { return Err(OverBudget); }
      var row := EnqueueJob(p, now);
      return Ok(row);
    }

    /** `enqueue_root`. */
    method EnqueueRoot(id: nat, size: int, pages: int, messages: int, now: int) returns (r: Result<nat, BackfillError>)
      modifies this
      ensures r.Ok? <==> 1 <= size <= 100 && 1 <= pages <= 500 && 1 <= messages <= 50000
      ensures jobs == Next(old(jobs), Root(id, size, pages, messages, now))
    {
      r := EnqueuePage(RootPage(id, size, pages, messages), now);
    }

    method ClaimJob(w: nat, now: int) returns (row: Option<nat>)
      modifies this
      ensures jobs == Next(old(jobs), Claim(w, now)) && |jobs| == |old(jobs)|
      ensures row.Some? ==>
                row.value < |jobs| && Held(jobs[row.value], w, jobs[row.value].fence) && jobs[row.value].attempts > 0
      ensures row.Some? ==> Holds(jobs, row.value, w, jobs[row.value].fence, now + LEASE_SECONDS)
      ensures row.None? <==> NothingToClaim(old(jobs), now)
      ensures row.Some? ==> row.value == Pick(MapSeq(Swept(now), old(jobs)), now)
    {
      hide Swept;
      var swept := MapSeq(Swept(now), jobs);
      var i := Pick(swept, now);
      if i == |jobs| {
        jobs := swept;
        return None;
      }
      jobs := swept[i := Claimed(swept[i], w, now)];
      return Some(i);
    }

    method CheckpointPayload(row: nat, w: nat, fence: nat, a: Answer) returns (ok: bool)
      requires row < |jobs| && Acceptable(jobs[row].page, a)
      requires Continues(jobs[row].page, a) ==> RowOf(jobs, KeyOf(NextPage(jobs[row].page, a))) < |jobs|
      modifies this
      ensures jobs == Next(old(jobs), Checkpoint(row, w, fence, a))
      ensures ok <==> old(Held(jobs[row], w, fence))
      ensures ok ==> row < |jobs| && jobs[row].outcome == Some(OutcomeOf(old(jobs), old(jobs[row].page), a))
      ensures ok ==> Held(jobs[row], w, fence) && jobs[row].leaseUntil == old(jobs[row].leaseUntil)
    {
      hide OutcomeOf, RowOf, KeyOf, NextPage, Continues, Acceptable;
      ok := Held(jobs[row], w, fence);
      if ok { jobs := jobs[row := jobs[row].(outcome := Some(OutcomeOf(jobs, jobs[row].page, a)))]; }
    }

    method CompleteJob(row: nat, w: nat, fence: nat) returns (ok: bool)
      requires row < |jobs| && jobs[row].outcome.Some?
      modifies this
      ensures jobs == Next(old(jobs), Complete(row, w, fence))
      ensures ok <==> old(Held(jobs[row], w, fence))
      ensures ok ==> row < |jobs| && jobs[row].status.Completed? && jobs[row].outcome == old(jobs[row].outcome)
    {
      ok := Held(jobs[row], w, fence);
      if ok { jobs := jobs[row := jobs[row].(status := Completed, owner := None)]; }
    }

    method RetryJob(row: nat, w: nat, fence: nat, now: int) returns (ok: bool)
      requires row < |jobs|
      modifies this
      ensures jobs == Next(old(jobs), Retry(row, w, fence, now))
      ensures ok <==> old(jobs[row].owner == Some(w) && jobs[row].fence == fence)
      ensures ok ==> row < |jobs| && jobs[row].owner.None? && !jobs[row].status.Running?
    {
      ok := jobs[row].owner == Some(w) && jobs[row].fence == fence;
      if ok { jobs := jobs[row := Retried(jobs[row], now)]; }
    }

    /** `cancel_backfill`: withdraw every page of the backfill that no worker has taken. */
    method CancelBackfill(id: nat) returns (cancelled: nat)
      modifies this
      ensures |jobs| == |old(jobs)|
      ensures forall i :: 0 <= i < |jobs| ==>
                jobs[i] == if Waiting(old(jobs)[i], id) then CancelAsked(old(jobs)[i]) else old(jobs)[i]
      ensures forall i :: 0 <= i < |jobs| ==> !Waiting(jobs[i], id)
      ensures cancelled == WaitingCount(old(jobs), id)
    {
      cancelled := 0;
      for i := 0 to |jobs|
        invariant |jobs| == |old(jobs)| && cancelled == WaitingCount(old(jobs)[..i], id)
        invariant forall k :: i <= k < |jobs| ==> jobs[k] == old(jobs)[k]
        invariant forall k :: 0 <= k < i ==>
                    jobs[k] == if Waiting(old(jobs)[k], id) then CancelAsked(old(jobs)[k]) else old(jobs)[k]
      {
        assert old(jobs)[..i + 1][..i] == old(jobs)[..i];
        if !Waiting(jobs[i], id) { continue; }
        jobs := jobs[i := CancelAsked(jobs[i])];
        if jobs[i].status.Cancelled? { cancelled := cancelled + 1; }
      }
      assert old(jobs)[..|jobs|] == old(jobs);
    }

    /** The handler of every exception: give the page back, unless the lease is somebody else's by now. */
    method GiveBack(row: nat, w: nat, fence: nat, later: int, gaps: Gaps, ghost until: int) returns (report: Report)
      requires row < |jobs|
      modifies this
      ensures jobs == Run(old(jobs), GivingBack(row, w, fence, later, gaps))
      ensures report.RetryNoted? || report.LeaseLost?
      ensures report.RetryNoted? ==> row < |jobs| && jobs[row].owner.None? && !jobs[row].status.Running?
      ensures old(Holds(jobs, row, w, fence, until)) && Calm(gaps.beforeRetry, w, row, until) ==> report.RetryNoted?
    {
      hide Next, Calm;
      CalmKeeps(jobs, gaps.beforeRetry, w, row, fence, until);
      RunExtends(jobs, gaps.beforeRetry);
      RunSnoc(jobs, gaps.beforeRetry, Retry(row, w, fence, later));
      Interfere(gaps.beforeRetry);
      var ok := RetryJob(row, w, fence, later);
      report := if ok then RetryNoted else LeaseLost;
    }

    /** Store the result of a page and complete it, or report which step lost the lease. */
    method Settle(row: nat, w: nat, fence: nat, a: Answer, gaps: Gaps, ghost until: int)
      returns (stored: bool, done: bool)
      requires row < |jobs| && Acceptable(jobs[row].page, a)
      requires Continues(jobs[row].page, a) ==> RowOf(jobs, KeyOf(NextPage(jobs[row].page, a))) < |jobs|
      modifies this
      ensures done ==> stored
      ensures stored ==> jobs == Run(old(jobs), Checkpointing(row, w, fence, a, gaps) + [Complete(row, w, fence)])
      ensures !stored ==> jobs == Run(old(jobs), [Checkpoint(row, w, fence, a)])
      ensures row < |jobs| && jobs[row].page == old(jobs[row].page)
      ensures done ==> jobs[row].status.Completed? && jobs[row].outcome.Some?
      ensures done && Strangers(gaps.beforeComplete, w) ==>
                jobs[row].outcome == Some(OutcomeOf(old(jobs), old(jobs[row].page), a))
      ensures old(Holds(jobs, row, w, fence, until)) && Calm(gaps.beforeComplete, w, row, until) ==> done
    {
      hide Next, Acceptable, Continues, NextPage, KeyOf, RowOf, Calm;
      var checkpoint := Checkpoint(row, w, fence, a);
      RunSnoc(jobs, [], checkpoint);
      assert [] + [checkpoint] == [checkpoint];
      StepExtends(jobs, checkpoint);
      var before := jobs;
      stored := CheckpointPayload(row, w, fence, a);
      done := false;
      if stored {
        RunConcat(before, [checkpoint], gaps.beforeComplete);
        RunExtends(jobs, gaps.beforeComplete);
        ghost var noted := jobs;
        CalmKeeps(noted, gaps.beforeComplete, w, row, fence, until);
        Interfere(gaps.beforeComplete);
        if Strangers(gaps.beforeComplete, w) { OutcomeStays(noted, gaps.beforeComplete, row, w, fence); }
        RunSnoc(before, Checkpointing(row, w, fence, a, gaps), Complete(row, w, fence));
        StepExtends(jobs, Complete(row, w, fence));
        done := CompleteJob(row, w, fence);
      }
    }

    /** Enqueue the next page if there is one to read. */
    method EnqueueNext(row: nat, a: Answer, later: int, gaps: Gaps, ghost w: nat, ghost fence: nat, ghost until: int)
      returns (continued: bool)
      requires row < |jobs| && jobs[row].attempts > 0 && InBudget(jobs[row].page) && Acceptable(jobs[row].page, a)
      modifies this
      ensures row < |jobs| && jobs[row].page == old(jobs[row].page) && continued == Continues(jobs[row].page, a)
      ensures jobs == Run(old(jobs), Enqueuing(row, a, continued, later, gaps))
      ensures continued ==> RowOf(jobs, KeyOf(NextPage(jobs[row].page, a))) < |jobs|
      ensures continued && RowOf(old(jobs), KeyOf(NextPage(old(jobs[row].page), a))) == |old(jobs)| ==>
                jobs[RowOf(jobs, KeyOf(NextPage(old(jobs[row].page), a)))].page == NextPage(old(jobs[row].page), a)
      ensures old(Holds(jobs, row, w, fence, until)) && Calm(gaps.beforeCheckpoint, w, row, until) ==>
                Holds(jobs, row, w, fence, until)
    {
      hide Next, Acceptable, Continues, NextPage, KeyOf, RowOf, InBudget, Holds, Calm;
      var p, before := jobs[row].page, jobs;
      var step := Continue(row, a, later);
      continued := Continues(p, a);
      StepExtends(before, step);
      RunSnoc(before, [], step);
      assert [] + [step] == [step];
      RunConcat(before, [step], gaps.beforeCheckpoint);
      if continued {
        ContinuationInBudget(p, a);
        var r := EnqueuePage(NextPage(p, a), later);
        ContinueIsEnqueue(before, row, a, later);
        NewRowIsIts(before, NextPage(p, a), later);
        KeyStays(jobs, gaps.beforeCheckpoint, KeyOf(NextPage(p, a)));
      } else {
        assert [] + gaps.beforeCheckpoint == gaps.beforeCheckpoint;
      }
      RunExtends(jobs, gaps.beforeCheckpoint);
      if continued { ContinueKeepsHeld(before, step, row, w, fence, until); }
      CalmKeeps(jobs, gaps.beforeCheckpoint, w, row, fence, until);
      Interfere(gaps.beforeCheckpoint);
    }

    /** What a fitting answer leads to: the next page, then the checkpoint and the completion. */
    method Process(row: nat, w: nat, fence: nat, a: Answer, later: int, gaps: Gaps, ghost until: int)
      returns (done: bool, continued: bool, ghost own: seq<Event>)
      requires row < |jobs| && jobs[row].attempts > 0 && InBudget(jobs[row].page) && Acceptable(jobs[row].page, a)
      modifies this
      ensures row < |jobs| && jobs[row].page == old(jobs[row].page) && continued == Continues(jobs[row].page, a)
      ensures jobs == Run(old(jobs), own) && own <= OwnSteps(w, row, fence, a, later, continued, gaps)
      ensures done ==> jobs[row].status.Completed? && own == OwnSteps(w, row, fence, a, later, continued, gaps)
      ensures done && continued ==> RowOf(jobs, KeyOf(NextPage(jobs[row].page, a))) < |jobs|
      ensures done && continued && RowOf(old(jobs), KeyOf(NextPage(old(jobs[row].page), a))) == |old(jobs)| ==>
                jobs[RowOf(jobs, KeyOf(NextPage(jobs[row].page, a)))].page == NextPage(jobs[row].page, a)
      ensures done && Strangers(gaps.beforeComplete, w) ==>
                jobs[row].outcome == Some(OutcomeOf(jobs, jobs[row].page, a))
      ensures (&& old(Holds(jobs, row, w, fence, until)) && Calm(gaps.beforeCheckpoint, w, row, until)
               && Calm(gaps.beforeComplete, w, row, until)) ==> done
    {
      hide Next, Acceptable, Continues, NextPage, KeyOf, RowOf, Held, InBudget, Enqueuing, StateOf, Checkpointing,
        Holds, Calm;
      var before, p := jobs, jobs[row].page;
      continued := EnqueueNext(row, a, later, gaps, w, fence, until);
      var stored: bool;
      ghost var middle, key := jobs, KeyOf(NextPage(p, a));
      stored, done := Settle(row, w, fence, a, gaps, until);
      ghost var settling := if stored then Checkpointing(row, w, fence, a, gaps) + [Complete(row, w, fence)]
                            else [Checkpoint(row, w, fence, a)];
      own := Enqueuing(row, a, continued, later, gaps) + settling;
      RunConcat(before, Enqueuing(row, a, continued, later, gaps), settling);
      OwnIsPrefix(w, row, fence, a, later, continued, gaps, stored);
      RunExtends(middle, settling);
      if continued { KeyStays(middle, settling, key); }
    }

    /** The `try` of a worker run: with a reply that fits the budget, process it; otherwise do nothing. */
    method Attempt(row: nat, w: nat, fence: nat, reply: Reply, later: int, gaps: Gaps, ghost until: int)
      returns (done: bool, continued: bool, ghost own: seq<Event>)
      requires row < |jobs| && jobs[row].attempts > 0
      modifies this
      ensures row < |jobs| && jobs[row].page == old(jobs[row].page) && jobs == Run(old(jobs), own)
      ensures own == [] || OwnPart(own, jobs[row].page, w, row, fence, reply, later, gaps)
      ensures done ==> jobs[row].status.Completed?
      ensures done ==> Finishing(own, jobs[row].page, continued, w, row, fence, reply, later, gaps)
      ensures done && Inv(old(jobs)) && Strangers(gaps.beforeComplete, w) ==> RecordsReply(jobs, row, reply)
      ensures done && continued && Inv(old(jobs)) && Strangers(gaps.beforeComplete, w)
              && !PageExists(old(jobs), NextPage(jobs[row].page, AnswerOf(reply))) ==>
                NamesNextPage(jobs, row, reply)
      ensures Inv(old(jobs)) && old(Holds(jobs, row, w, fence, until)) && CalmAll(gaps, w, row, until) ==>
                (done <==> Fits(jobs[row].page, reply)) && (!done ==> own == [])
    {
      hide Next, Acceptable, Continues, NextPage, KeyOf, RowOf, InBudget, AnswerOf, Effective, OwnSteps, Holds, Calm,
        Inv, RecordsReply, PageExists, Strangers, Fitting, Fits, NamesNextPage;
      var before, p := jobs, jobs[row].page;
      done, continued, own := false, false, [];
      if Inv(before) { EveryPageInBudget(before, row); }
      FittingMeans(p, reply);
      if reply.Replied? && InBudget(p) && Fitting(p, AnswerOf(reply)) {
        FittingIsAcceptable(p, reply);
        done, continued, own := Process(row, w, fence, AnswerOf(reply), later, gaps, until);
        if done && Inv(before) && Strangers(gaps.beforeComplete, w) {
          RunKeepsInvFrom(before, own);
          OutcomeRecords(jobs, row, reply);
          if continued && !PageExists(before, NextPage(p, AnswerOf(reply))) {
            NotThere(before, NextPage(p, AnswerOf(reply)));
            NextPageNamed(jobs, row, reply);
          }
        }
      }
    }

    /** The claim, with others' steps behind it. */
    method ClaimOne(w: nat, now: int, gaps: Gaps) returns (claimed: Option<nat>, fence: nat)
      modifies this
      ensures claimed.None? <==> NothingToClaim(old(jobs), now)
      ensures claimed.None? ==> jobs == Run(old(jobs), [Claim(w, now)])
      ensures claimed.Some? ==> jobs == Run(old(jobs), Claiming(w, now, gaps)) && (Inv(old(jobs)) ==> Inv(jobs))
      ensures claimed.Some? ==> claimed.value == Pick(MapSeq(Swept(now), old(jobs)), now) < |jobs|
      ensures claimed.Some? ==> jobs[claimed.value].attempts > 0
      ensures claimed.Some? && Calm(gaps.beforeEnqueue, w, claimed.value, now + LEASE_SECONDS) ==>
                Holds(jobs, claimed.value, w, fence, now + LEASE_SECONDS)
    {
      hide Next, Holds, Held, Calm, Inv, NothingToClaim, Swept, Pick;
      var first, claim := jobs, [Claim(w, now)];
      RunSnoc(first, [], Claim(w, now));
      assert [] + [Claim(w, now)] == claim;
      claimed := ClaimJob(w, now);
      if claimed.None? { return None, 0; }
      var row := claimed.value;
      fence := jobs[row].fence;
      RunConcat(first, claim, gaps.beforeEnqueue);
      RunExtends(jobs, gaps.beforeEnqueue);
      CalmKeeps(jobs, gaps.beforeEnqueue, w, row, fence, now + LEASE_SECONDS);
      Interfere(gaps.beforeEnqueue);
      if Inv(first) { RunKeepsInvFrom(first, Claiming(w, now, gaps)); }
    }

    /** `run_once`: claim one page, read it, enqueue its continuation, store the result and complete it. */
    method RunOnce(w: nat, now: int, later: int, reply: Reply, gaps: Gaps)
      returns (report: Report, row: nat, fence: nat, ghost trace: seq<Event>)
      modifies this
      ensures jobs == Run(old(jobs), trace)
      ensures report.Idle? <==> NothingToClaim(old(jobs), now)
      ensures report.Idle? ==> trace == [Claim(w, now)]
      ensures !report.Idle? ==> row == Pick(MapSeq(Swept(now), old(jobs)), now) < |jobs|
      ensures !report.Idle? && Inv(old(jobs)) && CalmAll(gaps, w, row, now + LEASE_SECONDS) ==>
                (report.PageDone? <==> Fits(jobs[row].page, reply)) && (report.PageDone? || report.RetryNoted?)
      ensures report.PageDone? ==>
                && reply.Replied? && var p, a := jobs[row].page, AnswerOf(reply);
                && report == PageDone(StateOf(p, a), p.id, Continues(p, a))
                && trace == Claiming(w, now, gaps) + OwnSteps(w, row, fence, a, later, Continues(p, a), gaps)
                && jobs[row].status.Completed? && InBudget(p) && Acceptable(p, a)
      ensures report.PageDone? && Inv(old(jobs)) && Strangers(gaps.beforeComplete, w) ==> RecordsReply(jobs, row, reply)
      ensures report.PageDone? && report.continued && Inv(old(jobs)) && Strangers(gaps.beforeComplete, w)
              && NoFollowUps(gaps.beforeEnqueue)
              && !PageExists(old(jobs), NextPage(jobs[row].page, AnswerOf(reply))) ==>
                NamesNextPage(jobs, row, reply)
      ensures report.RetryNoted? ==> jobs[row].owner.None? && !jobs[row].status.Running?
      ensures report.RetryNoted? || report.LeaseLost? ==>
                exists own :: trace == Claiming(w, now, gaps) + own + GivingBack(row, w, fence, later, gaps)
                              && (own == [] || OwnPart(own, jobs[row].page, w, row, fence, reply, later, gaps))
    {
      hide Next, Acceptable, Continues, NextPage, KeyOf, RowOf, Held, InBudget, AnswerOf, Effective, OwnSteps, OwnPart,
        StateOf, GivingBack, Holds, Calm, Inv, RecordsReply, NoFollowUps, PageExists, Strangers, Fits, NamesNextPage,
        NothingToClaim, Swept, Pick, Claiming;
      var first := jobs;
      ghost var until := now + LEASE_SECONDS;
      var claimed;
      claimed, fence := ClaimOne(w, now, gaps);
      if claimed.None? { return Idle, 0, fence, [Claim(w, now)]; }
      row, trace := claimed.value, Claiming(w, now, gaps);
      ghost var ready := jobs;
      var done, continued;
      ghost var own: seq<Event>;
      done, continued, own := Attempt(row, w, fence, reply, later, gaps, until);
      RunConcat(first, trace, own);
      var p := jobs[row].page;
      if done {
        if NoFollowUps(gaps.beforeEnqueue) { StillNew(first, ready, gaps, NextPage(p, AnswerOf(reply)), w, now); }
        trace := trace + own;
        return PageDone(StateOf(p, AnswerOf(reply)), p.id, continued), row, fence, trace;
      }
      assert own == [] ==> jobs == ready;
      RunConcat(first, trace + own, GivingBack(row, w, fence, later, gaps));
      RunExtends(jobs, GivingBack(row, w, fence, later, gaps));
      report := GiveBack(row, w, fence, later, gaps, until);
      trace := trace + own + GivingBack(row, w, fence, later, gaps);
    }
  }

  // ---- a run that nobody disturbs ----

  predicate NothingToClaim(jobs: seq<Job>, now: int) { forall j :: j in jobs ==> !Claimable(Swept(now)(j), now) }

  predicate Holds(jobs: seq<Job>, row: nat, w: nat, fence: nat, until: int) {
    row < |jobs| && Held(jobs[row], w, fence) && jobs[row].leaseUntil >= until
  }

  /** A reply that the worker takes: it is one, and it holds no more messages than were asked for. */
  predicate Fits(p: Page, reply: Reply) {
    reply.Replied? && AtLeastZero(reply.candidates) <= MinInt(p.size, p.messages - p.processed)
  }

  /** A worker's steps after its claim, as far as it got. */
  predicate OwnPart(own: seq<Event>, p: Page, w: nat, row: nat, fence: nat, reply: Reply, later: int, gaps: Gaps) {
    reply.Replied? && own <= OwnSteps(w, row, fence, AnswerOf(reply), later, Continues(p, AnswerOf(reply)), gaps)
  }

  /** All of them, for a reply in the budget. */
  predicate Finishing(own: seq<Event>, p: Page, continued: bool, w: nat, row: nat, fence: nat, reply: Reply, later: int,
                      gaps: Gaps) {
    && reply.Replied? && InBudget(p) && Acceptable(p, AnswerOf(reply)) && continued == Continues(p, AnswerOf(reply))
    && own == OwnSteps(w, row, fence, AnswerOf(reply), later, continued, gaps)
  }

  /** Other workers' steps before `until` that do not withdraw the row. */
  predicate Calm(events: seq<Event>, w: nat, row: nat, until: int) {
    forall e :: e in events ==> CalmStep(e, w, row, until)
  }

  predicate CalmStep(e: Event, w: nat, row: nat, until: int) {
    Stranger(e, w) && (e.Claim? ==> e.now < until) && e != RequestCancel(row)
  }

  predicate CalmAll(gaps: Gaps, w: nat, row: nat, until: int) {
    && Calm(gaps.beforeEnqueue, w, row, until) && Calm(gaps.beforeCheckpoint, w, row, until)
    && Calm(gaps.beforeComplete, w, row, until) && Calm(gaps.beforeRetry, w, row, until)
  }

  lemma CalmStepKeeps(jobs: seq<Job>, e: Event, w: nat, row: nat, fence: nat, until: int)
    requires Holds(jobs, row, w, fence, until) && CalmStep(e, w, row, until)
    ensures Holds(Next(jobs, e), row, w, fence, until)
  {
    hide RowOf, OutcomeOf, KeyOf, Acceptable, InBudget, Continues, Bounded, NextPage;
  }

  lemma ContinueKeepsHeld(jobs: seq<Job>, e: Event, row: nat, w: nat, fence: nat, until: int)
    requires e.Continue?
    ensures Holds(jobs, row, w, fence, until) ==> Holds(Next(jobs, e), row, w, fence, until)
  {
    hide RowOf, OutcomeOf, KeyOf, Acceptable, InBudget, Continues, Bounded, NextPage;
  }

  /** A held lease is still held after steps that leave it in peace. */
  lemma {:induction false} CalmKeeps(jobs: seq<Job>, events: seq<Event>, w: nat, row: nat, fence: nat, until: int)
    ensures Holds(jobs, row, w, fence, until) && Calm(events, w, row, until) ==>
              Holds(Run(jobs, events), row, w, fence, until)
  {
    hide Next, Holds, CalmStep;
    if Holds(jobs, row, w, fence, until) && Calm(events, w, row, until) && events != [] {
      var front, e := events[..|events| - 1], events[|events| - 1];
      assert forall x :: x in front ==> x in events;
      CalmKeeps(jobs, front, w, row, fence, until);
      CalmStepKeeps(Run(jobs, front), e, w, row, fence, until);
    }
  }

  // ---- what the reply becomes ----

  /** None of the events is a step of worker `w`; a worker id is a fresh uuid. */
  predicate Strangers(events: seq<Event>, w: nat) { forall e :: e in events ==> Stranger(e, w) }

  predicate Stranger(e: Event, w: nat) {
    match e
    case Claim(worker, _) => worker != w
    case Checkpoint(_, worker, _, _) => worker != w
    case Complete(_, worker, _) => worker != w
    case Retry(_, worker, _, _) => worker != w
    case _ => true
  }

  predicate NoFollowUps(events: seq<Event>) { forall e :: e in events ==> !e.Continue? && !e.Root? }

  predicate PageExists(jobs: seq<Job>, p: Page) { exists j | j in jobs :: KeyOf(j.page) == KeyOf(p) }

  function AtLeastZero(n: int): nat { if n < 0 then 0 else n }

  /** The checkpoint holds the reply's own counts, negative ones as zero, and follows its token: unless the token
      is blank or a budget is used up, the job for the next page under the stripped token is named. */
  predicate RecordsReply(jobs: seq<Job>, row: nat, reply: Reply) {
    && row < |jobs| && jobs[row].outcome.Some? && reply.Replied? &&
    var p, o, more := jobs[row].page, jobs[row].outcome.value, !AllBlank(reply.token);
    var within := p.index + 1 < p.pages && p.processed + AtLeastZero(reply.candidates) < p.messages;
    && o.result.candidates == AtLeastZero(reply.candidates) && o.result.accepted == AtLeastZero(reply.accepted)
    && o.result.ignored == AtLeastZero(reply.ignored) && o.result.failed == AtLeastZero(reply.failed)
    && o.result.summaries == AtLeastZero(reply.summaries)
        && o.result.classifications == AtLeastZero(reply.classifications)
    && o.processedAfter == p.processed + AtLeastZero(reply.candidates)
    && (o.paginationComplete <==> !more)
    && o.state == (if !more then Finished else if within then Continued else Partial)
    && (o.continuation.Some? <==> more && within)
    && (o.continuation.Some? ==>
          && o.continuation.value < |jobs|
          && var next := jobs[o.continuation.value].page;
             next.id == p.id && next.index == p.index + 1 && next.token == Some(Strip(reply.token)))
  }

  /** The continuation named is the page after this one, under the reply's token and with the messages so far. */
  predicate NamesNextPage(jobs: seq<Job>, row: nat, reply: Reply) {
    && row < |jobs| && jobs[row].outcome.Some? && reply.Replied? && jobs[row].outcome.value.continuation.Some? &&
    var p, o := jobs[row].page, jobs[row].outcome.value;
    && o.continuation.value < |jobs|
    && jobs[o.continuation.value].page ==
         p.(index := p.index + 1, token := Some(Strip(reply.token)), processed := o.processedAfter)
  }

  /** The six counts and the token of a reply, read directly. */
  lemma AnswerReads(reply: Reply)
    requires reply.Replied?
    ensures var a := AnswerOf(reply);
            && (a.next.Some? <==> !AllBlank(reply.token)) && (a.next.Some? ==> a.next.value == Strip(reply.token) != "")
            && a.result == PageResult(AtLeastZero(reply.candidates), AtLeastZero(reply.accepted),
                AtLeastZero(reply.ignored),
                                      AtLeastZero(reply.failed), AtLeastZero(reply.summaries),
                                          AtLeastZero(reply.classifications))
  {
    hide Strip, AllBlank;
    StripEmptyIff(reply.token);
  }

  lemma NextPageReads(p: Page, reply: Reply)
    requires reply.Replied? && Continues(p, AnswerOf(reply))
    ensures NextPage(p, AnswerOf(reply)) ==
              p.(index := p.index + 1, token := Some(Strip(reply.token)),
                 processed := p.processed + AtLeastZero(reply.candidates))
  {
    hide Strip, AllBlank, AnswerOf;
    AnswerReads(reply);
  }

  lemma OutcomeRecords(jobs: seq<Job>, row: nat, reply: Reply)
    requires Inv(jobs) && reply.Replied? && row < |jobs|
    requires var p, a := jobs[row].page, AnswerOf(reply);
             && jobs[row].outcome == Some(OutcomeOf(jobs, p, a))
             && (Continues(p, a) ==> RowOf(jobs, KeyOf(NextPage(p, a))) < |jobs|)
    ensures RecordsReply(jobs, row, reply)
  {
    hide AllBlank, Strip, RowOf, AnswerOf, Inv;
    AnswerReads(reply);
    var p, a := jobs[row].page, AnswerOf(reply);
    if Continues(p, a) { NextPageAt(jobs, p, a); }
  }

  lemma NextPageNamed(jobs: seq<Job>, row: nat, reply: Reply)
    requires row < |jobs| && reply.Replied?
    requires var p, a := jobs[row].page, AnswerOf(reply);
             && Continues(p, a) && jobs[row].outcome == Some(OutcomeOf(jobs, p, a))
             && RowOf(jobs, KeyOf(NextPage(p, a))) < |jobs|
             && jobs[RowOf(jobs, KeyOf(NextPage(p, a)))].page == NextPage(p, a)
    ensures NamesNextPage(jobs, row, reply)
  {
    hide AllBlank, Strip, RowOf, KeyOf, AnswerOf, NextPage, Continues;
    NextPageReads(jobs[row].page, reply);
    AnswerReads(reply);
  }

  /** A page nobody else enqueues between the claim and this worker's own enqueuing is not there at that time. */
  lemma StillNew(first: seq<Job>, ready: seq<Job>, gaps: Gaps, p: Page, w: nat, now: int)
    requires ready == Run(first, Claiming(w, now, gaps)) && NoFollowUps(gaps.beforeEnqueue)
    ensures !PageExists(first, p) ==> !PageExists(ready, p)
  {
    hide Next, NoFollowUps;
    RunSnoc(first, [], Claim(w, now));
    assert [] + [Claim(w, now)] == [Claim(w, now)];
    RunConcat(first, [Claim(w, now)], gaps.beforeEnqueue);
    var claimed := Next(first, Claim(w, now));
    StepExtends(first, Claim(w, now));
    NoneAdded(first, Claim(w, now));
    RunExtends(claimed, gaps.beforeEnqueue);
    NoFollowUpsAdd(claimed, gaps.beforeEnqueue, KeyOf(p), p);
    SamePages(first, claimed, p);
    SamePages(claimed, ready, p);
  }

  lemma SamePages(before: seq<Job>, after: seq<Job>, p: Page)
    requires Extends(before, after) && |after| == |before|
    ensures !PageExists(before, p) ==> !PageExists(after, p)
  {
    hide KeyOf;
    if PageExists(after, p) {
      var i :| 0 <= i < |after| && KeyOf(after[i].page) == KeyOf(p);
      assert before[i] in before;
    }
  }

  lemma NotThere(jobs: seq<Job>, p: Page)
    requires !PageExists(jobs, p)
    ensures RowOf(jobs, KeyOf(p)) == |jobs|
  {
    hide KeyOf;
    forall i | 0 <= i < |jobs| ensures KeyOf(jobs[i].page) != KeyOf(p) { assert jobs[i] in jobs; }
  }

  lemma NextPageAt(jobs: seq<Job>, p: Page, a: Answer)
    requires Inv(jobs) && RowOf(jobs, KeyOf(NextPage(p, a))) < |jobs| && a.next.Some?
    requires exists j :: j in jobs && j.page == p
    ensures var next := jobs[RowOf(jobs, KeyOf(NextPage(p, a)))].page;
            next.id == p.id && next.index == p.index + 1 && next.token == a.next
  {
    hide UniqueKeys, Checked, Follows;
    var i := RowOf(jobs, KeyOf(NextPage(p, a)));
    var k :| 0 <= k < |jobs| && jobs[k].page == p;
    assert InBudget(jobs[k].page) && Linked(jobs, i);
    KeyAt(jobs, KeyOf(NextPage(p, a)));
  }

  lemma KeyAt(jobs: seq<Job>, key: Key)
    requires RowOf(jobs, key) < |jobs|
    ensures KeyOf(jobs[RowOf(jobs, key)].page) == key
  {
    hide KeyOf;
  }

  lemma {:induction false} RunKeepsInvFrom(jobs: seq<Job>, events: seq<Event>)
    requires Inv(jobs)
    ensures Inv(Run(jobs, events))
  {
    hide Next, Inv;
    if events != [] {
      RunKeepsInvFrom(jobs, events[..|events| - 1]);
      StepKeepsInv(Run(jobs, events[..|events| - 1]), events[|events| - 1]);
    }
  }

  lemma NewRowIsIts(jobs: seq<Job>, p: Page, now: int)
    ensures RowOf(jobs, KeyOf(p)) == |jobs| ==>
              var after := Enqueued(jobs, p, now); RowOf(after, KeyOf(p)) == |jobs| < |after| && after[|jobs|].page == p
  {
    hide KeyOf;
    if RowOf(jobs, KeyOf(p)) == |jobs| {
      FirstIs((j: Job) => KeyOf(j.page) == KeyOf(p), Enqueued(jobs, p, now), |jobs|);
    }
  }

  lemma StrangersParts(events: seq<Event>, w: nat)
    requires Strangers(events, w) && events != []
    ensures Strangers(events[..|events| - 1], w) && Stranger(events[|events| - 1], w)
  {
    hide Stranger;
    forall e | e in events[..|events| - 1] ensures Stranger(e, w) { assert e in events; }
  }

  lemma {:induction false} OutcomeStays(jobs: seq<Job>, events: seq<Event>, row: nat, w: nat, fence: nat)
    requires row < |jobs| && Held(jobs[row], w, fence) && Strangers(events, w)
    ensures row < |Run(jobs, events)|
    ensures Kept(Run(jobs, events)[row], w, fence, jobs[row].outcome)
  {
    hide Next, Strangers;
    RunExtends(jobs, events);
    if events != [] {
      var front, e := events[..|events| - 1], events[|events| - 1];
      StrangersParts(events, w);
      RunExtends(jobs, front);
      OutcomeStays(jobs, front, row, w, fence);
      StepKeeps(Run(jobs, front), e, row, w, fence, jobs[row].outcome);
    }
  }

  /** Either the worker's lease is over for good, or the outcome is still its own. */
  predicate Kept(j: Job, w: nat, fence: nat, outcome: Option<Outcome>) {
    j.fence > fence || (j.fence == fence && (j.owner == None || (j.owner == Some(w) && j.outcome == outcome)))
  }

  lemma StepKeeps(jobs: seq<Job>, e: Event, row: nat, w: nat, fence: nat, outcome: Option<Outcome>)
    requires row < |jobs| && Kept(jobs[row], w, fence, outcome) && Stranger(e, w)
    ensures row < |Next(jobs, e)| && Kept(Next(jobs, e)[row], w, fence, outcome)
  {
    hide RowOf, OutcomeOf, KeyOf, Acceptable, InBudget, Continues, Bounded, NextPage;
  }

  lemma {:induction false} NoFollowUpsAdd(jobs: seq<Job>, events: seq<Event>, key: Key, p: Page)
    requires NoFollowUps(events) && key == KeyOf(p)
    ensures |Run(jobs, events)| == |jobs|
    ensures RowOf(jobs, key) == |jobs| ==> RowOf(Run(jobs, events), key) == |jobs|
  {
    hide Next;
    RunExtends(jobs, events);
    if events != [] {
      var front, e := events[..|events| - 1], events[|events| - 1];
      NoFollowUpsAdd(jobs, front, key, p);
      NoneAdded(Run(jobs, front), e);
    }
    if RowOf(jobs, key) == |jobs| {
      FirstIs((j: Job) => KeyOf(j.page) == key, Run(jobs, events), |jobs|);
    }
  }

  lemma NoneAdded(jobs: seq<Job>, e: Event)
    requires !e.Continue? && !e.Root?
    ensures |Next(jobs, e)| == |jobs|
  {
    hide RowOf, OutcomeOf, KeyOf, Acceptable, Held, Claimable, InBudget, Continues, NextPage;
  }

  /** The reply holds no more messages than were asked for. */
  predicate Fitting(p: Page, a: Answer) { a.result.candidates <= Effective(p) }

  lemma FittingMeans(p: Page, reply: Reply)
    ensures Fits(p, reply) <==> reply.Replied? && Fitting(p, AnswerOf(reply))
  {
    hide Strip;
  }

  lemma EveryPageInBudget(jobs: seq<Job>, row: nat)
    requires Inv(jobs) && row < |jobs|
    ensures InBudget(jobs[row].page)
  {
    hide InBudget, UniqueKeys, Linked, Checked;
  }

  lemma FittingIsAcceptable(p: Page, reply: Reply)
    requires reply.Replied? && Fitting(p, AnswerOf(reply))
    ensures Acceptable(p, AnswerOf(reply))
  {
    hide Strip;
  }

  lemma ContinueIsEnqueue(jobs: seq<Job>, row: nat, a: Answer, later: int)
    requires row < |jobs| && Enabled(jobs, Continue(row, a, later))
    ensures Next(jobs, Continue(row, a, later)) == Enqueued(jobs, NextPage(jobs[row].page, a), later)
  {
    hide Enqueued, NextPage;
  }

  lemma OwnIsPrefix(w: nat, row: nat, fence: nat, a: Answer, later: int, continued: bool, gaps: Gaps, stored: bool)
    ensures var settling := if stored then Checkpointing(row, w, fence, a, gaps) + [Complete(row, w, fence)]
                            else [Checkpoint(row, w, fence, a)];
            var own := Enqueuing(row, a, continued, later, gaps) + settling;
            && own <= OwnSteps(w, row, fence, a, later, continued, gaps)
            && (stored ==> own == OwnSteps(w, row, fence, a, later, continued, gaps))
  {
    hide Enqueuing;
    var start := Enqueuing(row, a, continued, later, gaps);
    assert OwnSteps(w, row, fence, a, later, continued, gaps)
        == start + (Checkpointing(row, w, fence, a, gaps) + [Complete(row, w, fence)]);
    if !stored { StartsWithCheckpoint(row, w, fence, a, gaps, start); }
  }

  lemma StartsWithCheckpoint(row: nat, w: nat, fence: nat, a: Answer, gaps: Gaps, start: seq<Event>)
    ensures start + [Checkpoint(row, w, fence, a)]
         <= start + (Checkpointing(row, w, fence, a, gaps) + [Complete(row, w, fence)])
  {}

  /** The steps between the claim and the end of a run. */
  function OwnSteps(w: nat, row: nat, fence: nat, a: Answer, later: int, continued: bool, gaps: Gaps): seq<Event> {
    Enqueuing(row, a, continued, later, gaps) + Checkpointing(row, w, fence, a, gaps) + [Complete(row, w, fence)]
  }
}
