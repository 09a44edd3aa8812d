/** Historical mail is read page by page: each page is a job that enqueues the next one under a page budget
    and a message budget. Workers are small steps, so that reclaimed leases and crashes interleave freely. */
module EmailBackfill {
  import opened Prelude
  import opened Text

  const MAX_PAGE_SIZE := 100
  const MAX_PAGES := 500
  const MAX_MESSAGES := 50000
  const MAX_ATTEMPTS := 4
  const LEASE_SECONDS := 300
  const RETRY_DELAY := 60

  // ---- pages ----

  datatype Page = Page(
    id: nat, index: int, token: Option<string>, size: int, pages: int, messages: int, processed: int)

  /** The identity a page key is hashed from; a missing token reads as "first". */
  datatype Key = Key(id: nat, index: int, token: string)

  function KeyOf(p: Page): Key {
    Key(p.id, p.index, match p.token case None => "first" case Some(t) => t)
  }

  /** `_bounded_root`. */
  predicate Bounded(size: int, pages: int, messages: int) {
    1 <= size <= MAX_PAGE_SIZE && 1 <= pages <= MAX_PAGES && 1 <= messages <= MAX_MESSAGES
  }

  predicate InBudget(p: Page) {
    Bounded(p.size, p.pages, p.messages) && 0 <= p.index < p.pages && 0 <= p.processed < p.messages
  }

  /** The page size really asked for. */
  function Effective(p: Page): int { MinInt(p.size, p.messages - p.processed) }

  datatype PageResult = PageResult(
    candidates: nat, accepted: nat, ignored: nat, failed: nat, summaries: nat, classifications: nat)

  datatype Answer = Answer(result: PageResult, next: Option<string>)

  predicate Acceptable(p: Page, a: Answer) {
    a.result.candidates <= Effective(p) && (a.next.Some? ==> a.next.value != "")
  }

  function ProcessedAfter(p: Page, a: Answer): int { p.processed + a.result.candidates }

  predicate Continues(p: Page, a: Answer) {
    a.next.Some? && p.index + 1 < p.pages && ProcessedAfter(p, a) < p.messages
  }

  function NextPage(p: Page, a: Answer): Page {
    p.(index := p.index + 1, token := a.next, processed := ProcessedAfter(p, a))
  }

  datatype PageState = Continued | Partial | Finished

  /** What a page's checkpoint adds to its payload. */
  datatype Outcome = Outcome(
    processedAfter: int, result: PageResult, state: PageState, paginationComplete: bool, continuation: Option<nat>)

  function StateOf(p: Page, a: Answer): PageState {
    if Continues(p, a) then Continued else if a.next.Some? then Partial else Finished
  }

  // ---- jobs; a job's id is its row number ----

  datatype Status = Pending | Running | Retrying | Completed | DeadLetter | Cancelled

  datatype Job = Job(
    page: Page, status: Status, owner: Option<nat>, leaseUntil: int, fence: nat, attempts: nat, availableAt: int,
    cancelRequested: bool, outcome: Option<Outcome>)

  function NewJob(p: Page, now: int): Job { Job(p, Pending, None, 0, 0, 0, now, false, None) }

  function RowOf(jobs: seq<Job>, key: Key): nat { First((j: Job) => KeyOf(j.page) == key, jobs) }

  /** `ON CONFLICT(idempotency_key) DO NOTHING`. */
  function Enqueued(jobs: seq<Job>, p: Page, now: int): seq<Job> {
    if RowOf(jobs, KeyOf(p)) < |jobs| then jobs else jobs + [NewJob(p, now)]
  }

  /** The housekeeping before a claim: pending cancellations and expired leases. */
  function Swept(now: int): Job -> Job {
    (j: Job) =>
      if (j.status.Pending? || j.status.Retrying?) && j.cancelRequested then j.(status := Cancelled, owner := None)
      else if j.status.Running? && j.leaseUntil <= now then
        j.(status :=
             if j.cancelRequested then Cancelled else if j.attempts >= MAX_ATTEMPTS then DeadLetter else Retrying,
           owner := None, availableAt := now)
      else j
  }

  predicate Claimable(j: Job, now: int) {
    (j.status.Pending? || j.status.Retrying?) && j.availableAt <= now && j.attempts < MAX_ATTEMPTS && !j.cancelRequested
  }

  /** The claimable job that has been available longest, the oldest row first. */
  function Pick(jobs: seq<Job>, now: int): (i: nat)
    ensures i <= |jobs| && (i < |jobs| ==> Claimable(jobs[i], now))
    ensures i == |jobs| ==> forall k :: 0 <= k < |jobs| ==> !Claimable(jobs[k], now)
  {
    if jobs == [] then 0
    else
      var n := |jobs| - 1;
      var best := Pick(jobs[..n], now);
      if best < n && !(Claimable(jobs[n], now) && jobs[n].availableAt < jobs[best].availableAt) then best
      else if best < n || Claimable(jobs[n], now) then n
      else n + 1
  }

  function Claimed(j: Job, worker: nat, now: int): Job {
    j.(status := Running, owner := Some(worker), leaseUntil := now + LEASE_SECONDS, attempts := j.attempts + 1,
        fence := j.fence + 1)
  }

  predicate Held(j: Job, worker: nat, fence: nat) {
    j.status.Running? && j.owner == Some(worker) && j.fence == fence && !j.cancelRequested
  }

  function Retried(j: Job, now: int): Job {
    j.(status := if j.cancelRequested then Cancelled else if j.attempts >= MAX_ATTEMPTS then DeadLetter else Retrying,
       owner := None, availableAt := now + RETRY_DELAY)
  }

  function CancelAsked(j: Job): Job {
    match j.status
    case Completed => j
    case DeadLetter => j
    case Cancelled => j
    case Running => j.(cancelRequested := true)
    case _ => j.(cancelRequested := true, status := Cancelled, owner := None)
  }

  // ---- steps ----

  datatype Event =
    | Root(id: nat, size: int, pages: int, messages: int, now: int)
    | Claim(worker: nat, now: int)
    | Continue(row: nat, answer: Answer, now: int) // by anyone who ever claimed the row, lease or not
    | Checkpoint(row: nat, worker: nat, fence: nat, answer: Answer)
    | Complete(row: nat, worker: nat, fence: nat)
    | Retry(row: nat, worker: nat, fence: nat, now: int)
    | RequestCancel(row: nat)

  function RootPage(id: nat, size: int, pages: int, messages: int): Page { Page(id, 0, None, size, pages, messages, 0) }

  function OutcomeOf(jobs: seq<Job>, p: Page, a: Answer): Outcome {
    Outcome(ProcessedAfter(p, a), a.result, StateOf(p, a), a.next.None?,
            if Continues(p, a) then Some(RowOf(jobs, KeyOf(NextPage(p, a)))) else None)
  }

  /** The guards of the step, beyond the row's existence. */
  predicate Enabled(jobs: seq<Job>, e: Event) {
    match e
    case Root(id, size, pages, messages, _) => Bounded(size, pages, messages)
    case Claim(_, _) => true
    case Continue(i, a, _) =>
      i < |jobs| && jobs[i].attempts > 0 && InBudget(jobs[i].page) && Acceptable(jobs[i].page, a)
          && Continues(jobs[i].page, a)
    case Checkpoint(i, w, f, a) =>
      i < |jobs| && Held(jobs[i], w, f) && Acceptable(jobs[i].page, a)
      && (Continues(jobs[i].page, a) ==> RowOf(jobs, KeyOf(NextPage(jobs[i].page, a))) < |jobs|)
    case Complete(i, w, f) => i < |jobs| && Held(jobs[i], w, f) && jobs[i].outcome.Some?
    case Retry(i, w, f, _) => i < |jobs| && jobs[i].owner == Some(w) && jobs[i].fence == f
    case RequestCancel(i) => i < |jobs|
  }

  function Next(jobs: seq<Job>, e: Event): seq<Job> {
    if !Enabled(jobs, e) then jobs
    else
      match e
      case Root(id, size, pages, messages, now) => Enqueued(jobs, RootPage(id, size, pages, messages), now)
      case Claim(w, now) =>
        var swept := MapSeq(Swept(now), jobs);
        var i := Pick(swept, now);
        if i < |jobs| then swept[i := Claimed(swept[i], w, now)] else swept
      case Continue(i, a, now) => Enqueued(jobs, NextPage(jobs[i].page, a), now)
      case Checkpoint(i, w, f, a) => jobs[i := jobs[i].(outcome := Some(OutcomeOf(jobs, jobs[i].page, a)))]
      case Complete(i, w, f) => jobs[i := jobs[i].(status := Completed, owner := None)]
      case Retry(i, w, f, now) => jobs[i := Retried(jobs[i], now)]
      case RequestCancel(i) => jobs[i := CancelAsked(jobs[i])]
  }

  function Run(jobs: seq<Job>, events: seq<Event>): seq<Job> {
    if events == [] then jobs else Next(Run(jobs, events[..|events| - 1]), events[|events| - 1])
  }

  lemma {:induction false} RunConcat(jobs: seq<Job>, a: seq<Event>, b: seq<Event>)
    ensures Run(jobs, a + b) == Run(Run(jobs, a), b)
  {
    hide Next;
    if b == [] {
      assert a + b == a;
    } else {
      RunConcat(jobs, a, b[..|b| - 1]);
      assert (a + b)[..|a + b| - 1] == a + b[..|b| - 1];
    }
  }

  // ---- what never changes ----

  /** Rows keep their page, no row goes away, and every new row is at the end. */
  predicate Extends(before: seq<Job>, after: seq<Job>) {
    && |before| <= |after|
    && (forall i :: 0 <= i < |before| ==> after[i].page == before[i].page && after[i].attempts >= before[i].attempts)
    && (forall i :: 0 <= i < |before| && before[i].outcome.Some? ==> after[i].outcome.Some?)
  }

  lemma StepExtends(jobs: seq<Job>, e: Event)
    ensures Extends(jobs, Next(jobs, e))
  {
    hide RowOf, OutcomeOf, KeyOf, Acceptable, Held, Claimable, InBudget, Continues, NextPage;
  }

  lemma {:induction false} RunExtends(jobs: seq<Job>, events: seq<Event>)
    ensures Extends(jobs, Run(jobs, events))
  {
    hide Next;
    if events != [] {
      RunExtends(jobs, events[..|events| - 1]);
      StepExtends(Run(jobs, events[..|events| - 1]), events[|events| - 1]);
    }
  }

  /** A key once taken stays with its row. */
  lemma KeyStays(jobs: seq<Job>, events: seq<Event>, key: Key)
    requires RowOf(jobs, key) < |jobs|
    ensures RowOf(Run(jobs, events), key) == RowOf(jobs, key)
  {
    hide Run;
    RunExtends(jobs, events);
    FirstIs((j: Job) => KeyOf(j.page) == key, Run(jobs, events), RowOf(jobs, key));
  }

  // ---- budgets and links, for any provider ----

  /** `child` continues `parent`: same run and budgets, next index, and between 0 and the page size more messages. */
  predicate Follows(parent: Page, child: Page) {
    && child.id == parent.id && child.size == parent.size && child.pages == parent.pages
        && child.messages == parent.messages
    && child.index == parent.index + 1 && 0 <= child.processed - parent.processed <= Effective(parent)
  }

  ghost predicate Linked(jobs: seq<Job>, i: nat)
    requires i < |jobs|
  {
    var p := jobs[i].page;
    if p.index == 0 then p.token == None && p.processed == 0
    else p.token.Some? && p.token.value != "" && exists k :: 0 <= k < i && Follows(jobs[k].page, p)
  }

  /** What a stored checkpoint says. */
  ghost predicate Checked(jobs: seq<Job>, i: nat)
    requires i < |jobs|
  {
    var p := jobs[i].page;
    jobs[i].outcome.Some? ==>
      var o := jobs[i].outcome.value;
      && o.result.candidates <= Effective(p) && o.processedAfter == p.processed + o.result.candidates
      && (o.state.Finished? <==> o.paginationComplete)
      && (o.state.Partial? ==> p.index + 1 == p.pages || o.processedAfter == p.messages)
      && (o.state.Continued? <==> o.continuation.Some?)
      && (o.continuation.Some? ==>
            o.continuation.value < |jobs| && jobs[o.continuation.value].page.id == p.id
            && jobs[o.continuation.value].page.index == p.index + 1)
  }

  ghost predicate UniqueKeys(jobs: seq<Job>) {
    forall i, k :: 0 <= i < k < |jobs| ==> KeyOf(jobs[i].page) != KeyOf(jobs[k].page)
  }

  ghost predicate Inv(jobs: seq<Job>) {
    && UniqueKeys(jobs)
    && (forall i :: 0 <= i < |jobs| ==> InBudget(jobs[i].page))
    && (forall i :: 0 <= i < |jobs| ==> Linked(jobs, i))
    && (forall i :: 0 <= i < |jobs| ==> Checked(jobs, i))
    && (forall i :: 0 <= i < |jobs| && jobs[i].status.Completed? ==> jobs[i].outcome.Some?)
  }

  lemma EnqueueKeepsInv(jobs: seq<Job>, p: Page, now: int)
    requires Inv(jobs) && InBudget(p)
    requires if p.index == 0 then p.token == None && p.processed == 0
             else p.token.Some? && p.token.value != "" && exists k :: 0 <= k < |jobs| && Follows(jobs[k].page, p)
    ensures Inv(Enqueued(jobs, p, now))
  {
    hide KeyOf, InBudget, Follows, Effective;
    var jobs' := Enqueued(jobs, p, now);
    if jobs' != jobs {
      forall i | 0 <= i < |jobs'| ensures Linked(jobs', i) {
        if i < |jobs| {
          assert Linked(jobs, i);
          if jobs[i].page.index != 0 {
            var k :| 0 <= k < i && Follows(jobs[k].page, jobs[i].page);
            assert Follows(jobs'[k].page, jobs'[i].page);
          }
        } else if p.index != 0 {
          var k :| 0 <= k < |jobs| && Follows(jobs[k].page, p);
          assert Follows(jobs'[k].page, jobs'[i].page);
        }
      }
      forall i | 0 <= i < |jobs'| ensures Checked(jobs', i) {
        if i < |jobs| { assert Checked(jobs, i); }
      }
    }
  }

  /** Rewriting rows without touching their pages keeps the invariant as long as the outcomes stay right. */
  lemma RewriteKeepsInv(jobs: seq<Job>, jobs': seq<Job>)
    requires Inv(jobs) && |jobs'| == |jobs| && forall i :: 0 <= i < |jobs| ==> jobs'[i].page == jobs[i].page
    requires forall i :: 0 <= i < |jobs| ==> jobs'[i].outcome == jobs[i].outcome || Checked(jobs', i)
    requires forall i :: 0 <= i < |jobs| && jobs'[i].status.Completed? ==> jobs'[i].outcome.Some?
    ensures Inv(jobs')
  {
    hide KeyOf, InBudget, Follows, Effective;
    forall i | 0 <= i < |jobs'| ensures Linked(jobs', i) && Checked(jobs', i) {
      assert Linked(jobs, i) && Checked(jobs, i);
      if jobs[i].page.index != 0 {
        var k :| 0 <= k < i && Follows(jobs[k].page, jobs[i].page);
        assert Follows(jobs'[k].page, jobs'[i].page);
      }
    }
  }

  lemma ContinuationInBudget(p: Page, a: Answer)
    requires InBudget(p) && Acceptable(p, a) && Continues(p, a)
    ensures InBudget(NextPage(p, a)) && Follows(p, NextPage(p, a)) && NextPage(p, a).index > 0
    ensures NextPage(p, a).token.Some? && NextPage(p, a).token.value != ""
  {}

  lemma CheckpointChecked(jobs: seq<Job>, i: nat, w: nat, f: nat, a: Answer)
    requires Inv(jobs) && Enabled(jobs, Checkpoint(i, w, f, a))
    ensures Checked(Next(jobs, Checkpoint(i, w, f, a)), i)
  {
    hide InBudget, UniqueKeys, Held;
    var p := jobs[i].page;
    assert InBudget(p);
    OutcomeChecked(p, a);
    if Continues(p, a) {
      var k := RowOf(jobs, KeyOf(NextPage(p, a)));
      assert KeyOf(jobs[k].page) == KeyOf(NextPage(p, a));
    }
  }

  lemma OutcomeChecked(p: Page, a: Answer)
    requires InBudget(p) && Acceptable(p, a)
    ensures a.next.Some? && !Continues(p, a) ==> p.index + 1 == p.pages || ProcessedAfter(p, a) == p.messages
  {}

  /** Every step keeps the budgets, the links and the checkpoints, whatever the provider answers. */
  lemma {:induction false} StepKeepsInv(jobs: seq<Job>, e: Event)
    requires Inv(jobs)
    ensures Inv(Next(jobs, e))
  {
    hide KeyOf, UniqueKeys, Inv, InBudget, Follows, Linked, Checked, Acceptable, Continues, NextPage, RowOf,
      OutcomeOf, Bounded, Pick, RootPage, Enqueued, Held, Claimable;
    if Enabled(jobs, e) {
      match e {
        case Root(id, size, pages, messages, now) => RootKeepsInv(jobs, id, size, pages, messages, now);
        case Continue(i, a, now) =>
          ContinuationInBudget(jobs[i].page, a);
          EnqueueKeepsInv(jobs, NextPage(jobs[i].page, a), now);
        case Checkpoint(i, w, f, a) =>
          CheckpointChecked(jobs, i, w, f, a);
          CompletedHasOutcome(jobs);
          RewriteKeepsInv(jobs, Next(jobs, e));
        case _ =>
          CompletedHasOutcome(jobs);
          RewriteKeepsInv(jobs, Next(jobs, e));
      }
    }
  }

  lemma RootKeepsInv(jobs: seq<Job>, id: nat, size: int, pages: int, messages: int, now: int)
    requires Inv(jobs) && Bounded(size, pages, messages)
    ensures Inv(Enqueued(jobs, RootPage(id, size, pages, messages), now))
  {
    hide Inv, Enqueued;
    EnqueueKeepsInv(jobs, RootPage(id, size, pages, messages), now);
  }

  lemma CompletedHasOutcome(jobs: seq<Job>)
    requires Inv(jobs)
    ensures forall i :: 0 <= i < |jobs| && jobs[i].status.Completed? ==> jobs[i].outcome.Some?
  {
    hide KeyOf, InBudget, Linked, Checked;
  }

  lemma {:induction false} RunKeepsInv(events: seq<Event>)
    ensures Inv(Run([], events))
  {
    hide Next, Inv;
    if events == [] {
      EmptyInv();
    } else {
      RunKeepsInv(events[..|events| - 1]);
      StepKeepsInv(Run([], events[..|events| - 1]), events[|events| - 1]);
    }
  }

  lemma EmptyInv()
    ensures Inv([])
  {}

  /** The budget, in every run and for every provider: each job stays within its root's pages and messages,
      and so does what its checkpoint has processed. */
  lemma {:induction false} BudgetsHold(events: seq<Event>, i: nat)
    requires i < |Run([], events)|
    ensures var j := Run([], events)[i];
            && 0 <= j.page.index < j.page.pages <= MAX_PAGES
            && 0 <= j.page.processed < j.page.messages <= MAX_MESSAGES
            && (j.outcome.Some? ==> j.page.processed <= j.outcome.value.processedAfter <= j.page.messages)
  {
    hide Run, Linked, UniqueKeys;
    RunKeepsInv(events);
    var jobs := Run([], events);
    assert InBudget(jobs[i].page) && Checked(jobs, i);
  }

  // ---- leases and attempts ----

  /** The job picked is claimable, none has been available for longer, and it is the first such row. */
  lemma {:induction false} PickIsEarliest(jobs: seq<Job>, now: int)
    ensures var i := Pick(jobs, now);
            i < |jobs| ==>
              && (forall k :: 0 <= k < |jobs| && Claimable(jobs[k], now) ==> jobs[i].availableAt <= jobs[k].availableAt)
              && (forall k :: 0 <= k < i && Claimable(jobs[k], now) ==> jobs[i].availableAt < jobs[k].availableAt)
  {
    hide Claimable;
    if jobs != [] { PickIsEarliest(jobs[..|jobs| - 1], now); }
  }

  /** A claim takes the picked job, if there is one, for 300 seconds under the next fencing token; first every
      withdrawn job and every expired lease is settled. */
  lemma ClaimTakes(jobs: seq<Job>, w: nat, now: int)
    ensures var swept, after := MapSeq(Swept(now), jobs), Next(jobs, Claim(w, now));
            var i := Pick(swept, now);
            && |after| == |jobs|
            && (forall k :: 0 <= k < |jobs| && k != i ==> after[k] == swept[k])
            && (i < |jobs| ==>
                  && after[i].status == Running && after[i].owner == Some(w) && after[i].leaseUntil == now + 300
                  && after[i].fence == jobs[i].fence + 1 && after[i].attempts == jobs[i].attempts + 1
                  && after[i].page == jobs[i].page && after[i].outcome == jobs[i].outcome)
  {
    hide Claimable, Pick;
  }

  /** A running job is given up exactly when its lease has run out: withdrawn if that was asked for, dead after four
      attempts, else free again at once. A waiting job is withdrawn when that was asked for. */
  lemma SweepMeans(j: Job, now: int)
    ensures var s := Swept(now)(j);
            && s.page == j.page && s.attempts == j.attempts && s.fence == j.fence && s.outcome == j.outcome
            && (j.status == Running && j.leaseUntil <= now ==>
                  && s.owner == None
                  && s.status == (if j.cancelRequested then Cancelled else if j.attempts >= 4 then DeadLetter
                      else Retrying)
                  && s.availableAt == now)
            && ((j.status == Pending || j.status == Retrying) && j.cancelRequested ==> s.status == Cancelled)
            && (j.status == Running && j.leaseUntil > now ==> s == j)
            && ((j.status == Pending || j.status == Retrying) && !j.cancelRequested ==> s == j)
            && (j.status == Completed || j.status == DeadLetter || j.status == Cancelled ==> s == j)
  {}

  /** Handing a page back: withdrawn if that was asked for, dead after four attempts, else free after a minute. */
  lemma RetryMeans(jobs: seq<Job>, row: nat, w: nat, fence: nat, now: int)
    requires row < |jobs| && jobs[row].owner == Some(w) && jobs[row].fence == fence
    ensures var after := Next(jobs, Retry(row, w, fence, now));
            && |after| == |jobs| && (forall k :: 0 <= k < |jobs| && k != row ==> after[k] == jobs[k])
            && after[row].owner == None && after[row].availableAt == now + 60
            && after[row].page == jobs[row].page && after[row].outcome == jobs[row].outcome
            && after[row].status == (if jobs[row].cancelRequested then Cancelled
                                     else if jobs[row].attempts >= 4 then DeadLetter else Retrying)
  {}

  /** Withdrawing a job: at once while it waits, when its run ends while it runs, not at all once it has ended. */
  lemma CancelMeans(jobs: seq<Job>, row: nat)
    requires row < |jobs|
    ensures var j, after := jobs[row], Next(jobs, RequestCancel(row));
            && |after| == |jobs| && (forall k :: 0 <= k < |jobs| && k != row ==> after[k] == jobs[k])
            && (j.status == Pending || j.status == Retrying ==>
                  after[row].status == Cancelled && after[row].owner == None && after[row].cancelRequested)
            && (j.status == Running ==> after[row] == j.(cancelRequested := true))
            && (j.status == Completed || j.status == DeadLetter || j.status == Cancelled ==> after[row] == j)
  {}

  lemma StepKeepsAttempts(jobs: seq<Job>, e: Event)
    requires forall i :: 0 <= i < |jobs| ==> jobs[i].attempts <= 4
    ensures forall i :: 0 <= i < |Next(jobs, e)| ==> Next(jobs, e)[i].attempts <= 4
  {
    hide RowOf, OutcomeOf, KeyOf, Acceptable, Held, InBudget, Continues, NextPage, Bounded;
  }

  /** In every run no page is read more than four times. */
  lemma {:induction false} FourAttempts(events: seq<Event>)
    ensures forall i :: 0 <= i < |Run([], events)| ==> Run([], events)[i].attempts <= 4
  {
    hide Next;
    if events != [] {
      FourAttempts(events[..|events| - 1]);
      StepKeepsAttempts(Run([], events[..|events| - 1]), events[|events| - 1]);
    }
  }

  /** A job that has ended stays as it is, whatever happens. */
  lemma EndedStays(jobs: seq<Job>, e: Event, i: nat)
    requires i < |jobs| && jobs[i].owner == None
    requires jobs[i].status == Completed || jobs[i].status == DeadLetter || jobs[i].status == Cancelled
    ensures i < |Next(jobs, e)| && Next(jobs, e)[i] == jobs[i]
  {
    hide RowOf, OutcomeOf, KeyOf, Acceptable, InBudget, Continues, NextPage, Bounded;
  }
}
