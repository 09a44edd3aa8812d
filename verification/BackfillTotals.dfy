/** What the status report adds up, against what the pages say they have processed. */
module BackfillTotals {
  import opened Prelude
  import opened Text
  import opened EmailBackfill

  /** The jobs of one backfill, in creation order. */
  function Rows(jobs: seq<Job>, id: nat): seq<Job> {
    if jobs == [] then []
    else
      var rest, last := Rows(jobs[..|jobs| - 1], id), jobs[|jobs| - 1];
      if last.page.id == id then rest + [last] else rest
  }

  /** A completed page with its checkpoint. */
  predicate Done(j: Job) {
    j.status.Completed? && j.outcome.Some?
        && j.outcome.value.processedAfter == j.page.processed + j.outcome.value.result.candidates
  }

  predicate AllDone(rows: seq<Job>) { forall k :: 0 <= k < |rows| ==> Done(rows[k]) }

  function Counted(j: Job): nat {
    if j.status.Completed? && j.outcome.Some? then j.outcome.value.result.candidates else 0
  }

  /** The report's candidate total. */
  function Total(rows: seq<Job>): nat {
    if rows == [] then 0 else Total(rows[..|rows| - 1]) + Counted(rows[|rows| - 1])
  }

  // ---- the report does not depend on the order of its rows ----

  lemma {:induction false} TotalSplit(a: seq<Job>, b: seq<Job>)
    ensures Total(a + b) == Total(a) + Total(b)
  {
    hide Counted;
    if b == [] {
      assert a + b == a;
    } else {
      TotalSplit(a, b[..|b| - 1]);
      assert (a + b)[..|a + b| - 1] == a + b[..|b| - 1];
    }
  }

  lemma WithoutLast<T>(a: seq<T>)
    requires a != []
    ensures multiset(a) == multiset(a[..|a| - 1]) + multiset{a[|a| - 1]}
  {
    assert a == a[..|a| - 1] + [a[|a| - 1]];
  }

  lemma Without<T>(b: seq<T>, i: nat)
    requires i < |b|
    ensures multiset(b) == multiset(b[..i] + b[i + 1..]) + multiset{b[i]}
  {
    assert b == b[..i] + [b[i]] + b[i + 1..];
  }

  lemma Cancel<T>(a: multiset<T>, b: multiset<T>, x: T)
    requires a + multiset{x} == b + multiset{x}
    ensures a == b
  {
    assert a == a + multiset{x} - multiset{x} && b == b + multiset{x} - multiset{x};
  }

  lemma OneLess<T>(a: seq<T>, b: seq<T>, i: nat)
    requires a != [] && i < |b| && b[i] == a[|a| - 1] && multiset(a) == multiset(b)
    ensures multiset(a[..|a| - 1]) == multiset(b[..i] + b[i + 1..])
  {
    var n, x := |a| - 1, b[i];
    WithoutLast(a);
    Without(b, i);
    Cancel(multiset(a[..n]), multiset(b[..i] + b[i + 1..]), x);
  }

  lemma {:induction false} TotalAnyOrder(a: seq<Job>, b: seq<Job>)
    requires multiset(a) == multiset(b)
    ensures Total(a) == Total(b)
  {
    hide Counted;
    if a == [] {
      assert |b| == |multiset(b)|;
    } else {
      var x, n := a[|a| - 1], |a| - 1;
      assert a == a[..n] + [x];
      assert x in multiset(b);
      var i :| 0 <= i < |b| && b[i] == x;
      assert b == b[..i] + ([x] + b[i + 1..]);
      OneLess(a, b, i);
      TotalAnyOrder(a[..n], b[..i] + b[i + 1..]);
      TotalSplit(b[..i], b[i + 1..]);
      TotalSplit(b[..i], [x] + b[i + 1..]);
      TotalSplit([x], b[i + 1..]);
      assert [x][..0] == [];
    }
  }

  // ---- any provider: the exact account ----

  predicate LinksAgree(rows: seq<Job>)
    requires AllDone(rows)
  {
    forall k :: 0 < k < |rows| ==> rows[k].page.processed == rows[k - 1].outcome.value.processedAfter
  }

  predicate EveryPrefixConserved(rows: seq<Job>)
    requires AllDone(rows)
  {
    forall k :: 0 <= k < |rows| ==> ConservedAt(rows, k)
  }

  /** The total up to a page is what the page says it has processed. */
  predicate ConservedAt(rows: seq<Job>, k: nat)
    requires AllDone(rows) && k < |rows|
  {
    Total(rows[..k + 1]) == rows[k].outcome.value.processedAfter
  }

  /** How far each page's own count is from where the page before it said it had got. */
  function Drift(rows: seq<Job>): int
    requires AllDone(rows)
  {
    if |rows| <= 1 then 0
    else
      var n := |rows| - 1;
      Drift(rows[..n]) + rows[n - 1].outcome.value.processedAfter - rows[n].page.processed
  }

  /** The report's total is the last page's count plus the drift. */
  lemma {:induction false} TotalIsLastPlusDrift(rows: seq<Job>)
    requires rows != [] && AllDone(rows) && rows[0].page.processed == 0
    ensures Total(rows) == rows[|rows| - 1].outcome.value.processedAfter + Drift(rows)
  {
    var n := |rows| - 1;
    if n == 0 {
      assert Total(rows[..0]) == 0;
    } else {
      TotalIsLastPlusDrift(rows[..n]);
    }
  }

  /** Every prefix of the pages adds up if and only if every page started where the one before it ended. */
  lemma {:induction false} ConservedIff(rows: seq<Job>)
    requires AllDone(rows) && (rows != [] ==> rows[0].page.processed == 0)
    ensures EveryPrefixConserved(rows) <==> LinksAgree(rows)
  {
    if |rows| > 1 {
      var n := |rows| - 1;
      var front := rows[..n];
      ConservedIff(front);
      forall k: nat | k < n ensures ConservedAt(front, k) == ConservedAt(rows, k) {
        assert front[..k + 1] == rows[..k + 1];
      }
      assert rows[..n + 1] == rows && front[..n - 1 + 1] == front;
      assert EveryPrefixConserved(rows) <==> EveryPrefixConserved(front) && ConservedAt(rows, n);
      assert EveryPrefixConserved(front) ==> ConservedAt(front, n - 1);
      assert LinksAgree(rows) <==>
             LinksAgree(front) && rows[n].page.processed == rows[n - 1].outcome.value.processedAfter;
    } else if |rows| == 1 {
      assert rows[..1] == rows && Total(rows[..0]) == 0;
    }
  }

  // ---- rows of a run ----

  lemma {:induction false} RowIsThere(jobs: seq<Job>, id: nat, i: nat)
    requires i < |jobs| && jobs[i].page.id == id
    ensures exists k :: 0 <= k < |Rows(jobs, id)| && Rows(jobs, id)[k] == jobs[i]
  {
    var n, rows := |jobs| - 1, Rows(jobs, id);
    if i < n {
      RowIsThere(jobs[..n], id, i);
      var k :| 0 <= k < |Rows(jobs[..n], id)| && Rows(jobs[..n], id)[k] == jobs[i];
      assert rows[k] == jobs[i];
    } else {
      assert rows[|rows| - 1] == jobs[i];
    }
  }

  lemma {:induction false} RowComesFrom(jobs: seq<Job>, id: nat, k: nat) returns (i: nat)
    requires k < |Rows(jobs, id)|
    ensures i < |jobs| && jobs[i] == Rows(jobs, id)[k] && jobs[i].page.id == id
  {
    var n := |jobs| - 1;
    if k < |Rows(jobs[..n], id)| {
      i := RowComesFrom(jobs[..n], id, k);
    } else {
      i := n;
    }
  }

  /** The first job of a backfill is its root. */
  lemma {:induction false} FirstRowIsRoot(jobs: seq<Job>, id: nat)
    requires Inv(jobs) && Rows(jobs, id) != []
    ensures Rows(jobs, id)[0].page.index == 0 && Rows(jobs, id)[0].page.processed == 0
  {
    var first := RowComesFrom(jobs, id, 0);
    var i := FirstOf(jobs, id, first);
    assert Linked(jobs, i);
    hide Inv, UniqueKeys, Checked, InBudget;
  }

  /** The earliest job of a backfill is its first row. */
  lemma {:induction false} FirstOf(jobs: seq<Job>, id: nat, some: nat) returns (i: nat)
    requires some < |jobs| && jobs[some].page.id == id
    ensures i < |jobs| && jobs[i].page.id == id && (forall k :: 0 <= k < i ==> jobs[k].page.id != id)
    ensures Rows(jobs, id) != [] && Rows(jobs, id)[0] == jobs[i]
  {
    var n := |jobs| - 1;
    if k :| 0 <= k < n && jobs[k].page.id == id {
      i := FirstOf(jobs[..n], id, k);
    } else {
      i := n;
      NoRows(jobs[..n], id);
    }
  }

  lemma {:induction false} NoRows(jobs: seq<Job>, id: nat)
    requires forall k :: 0 <= k < |jobs| ==> jobs[k].page.id != id
    ensures Rows(jobs, id) == []
  {
    if jobs != [] { NoRows(jobs[..|jobs| - 1], id); }
  }

  predicate AllCompleted(rows: seq<Job>) { forall k :: 0 <= k < |rows| ==> rows[k].status.Completed? }

  lemma CompletedIsDone(jobs: seq<Job>, id: nat)
    requires Inv(jobs) && AllCompleted(Rows(jobs, id))
    ensures AllDone(Rows(jobs, id))
  {
    hide UniqueKeys, Linked, InBudget, Rows, Follows;
    var rows := Rows(jobs, id);
    forall k | 0 <= k < |rows| ensures Done(rows[k]) {
      var i := RowComesFrom(jobs, id, k);
      assert Checked(jobs, i);
    }
  }

  /** In every run, for every provider: once all pages of a backfill are completed, the report's total is the
      last page's count plus the drift, and every prefix adds up exactly when the links agree. */
  lemma {:induction false} CompletedAccount(events: seq<Event>, id: nat)
    requires Rows(Run([], events), id) != [] && AllCompleted(Rows(Run([], events), id))
    ensures var rows := Rows(Run([], events), id);
            && AllDone(rows)
            && Total(rows) == rows[|rows| - 1].outcome.value.processedAfter + Drift(rows)
            && (EveryPrefixConserved(rows) <==> LinksAgree(rows))
  {
    hide Run, Inv, Rows, Total, Drift, EveryPrefixConserved, LinksAgree, Done;
    RunKeepsInv(events);
    var jobs := Run([], events);
    CompletedIsDone(jobs, id);
    FirstRowIsRoot(jobs, id);
    TotalIsLastPlusDrift(Rows(jobs, id));
    ConservedIff(Rows(jobs, id));
  }

  // ---- a page read twice with different answers ----

  function Reading(n: nat): Answer { Answer(PageResult(n, 0, 0, 0, 0, 0), Some("a")) }

  function LastReading(n: nat): Answer { Answer(PageResult(n, 0, 0, 0, 0, 0), None) }

  /** The first worker dies after enqueuing page 1, which a second one completes; a third one reads page 0 again. */
  function CrashRun(messages: int, first: nat, second: nat, last: nat): seq<Event> {
    [Root(1, 10, 5, messages, 0), Claim(1, 0), Continue(0, Reading(first), 1),
     Claim(2, 400), Checkpoint(1, 2, 1, LastReading(last)), Complete(1, 2, 1),
     Claim(3, 500), Continue(0, Reading(second), 501), Checkpoint(0, 3, 2, Reading(second)), Complete(0, 3, 2)]
  }

  /** What the provider may answer: no more than asked for, and something left to read after page 0. */
  predicate Readable(messages: int, first: nat, second: nat, last: nat) {
    && 1 <= messages <= MAX_MESSAGES && first < messages && second < messages
    && first <= 10 && second <= 10 && last <= 10 && first + last <= messages
  }

  lemma RunStep(jobs: seq<Job>, events: seq<Event>, n: nat)
    requires n < |events|
    ensures Run(jobs, events[..n + 1]) == Next(Run(jobs, events[..n]), events[n])
  {
    hide Next;
    assert events[..n + 1][..n] == events[..n];
  }

  lemma ClaimOf(jobs: seq<Job>, swept: seq<Job>, i: nat, w: nat, now: int)
    requires |swept| == |jobs| && i < |jobs| && forall k :: 0 <= k < |jobs| ==> swept[k] == Swept(now)(jobs[k])
    requires Claimable(swept[i], now)
    requires forall k :: 0 <= k < |jobs| && k != i && Claimable(swept[k], now) ==>
              swept[k].availableAt > swept[i].availableAt
    ensures Next(jobs, Claim(w, now)) == swept[i := Claimed(swept[i], w, now)]
  {
    hide Swept;
    assert MapSeq(Swept(now), jobs) == swept;
    PickIs(swept, i, now);
  }

  lemma {:induction false} PickIs(jobs: seq<Job>, i: nat, now: int)
    requires i < |jobs| && Claimable(jobs[i], now)
    requires forall k :: 0 <= k < |jobs| && k != i && Claimable(jobs[k], now) ==>
              jobs[k].availableAt > jobs[i].availableAt
    ensures Pick(jobs, now) == i
  {
    hide Claimable;
    var n := |jobs| - 1;
    if i < n { PickIs(jobs[..n], i, now); }
  }

  // The two rows along that run.
  function Root0(m: int): Job { NewJob(RootPage(1, 10, 5, m), 0) }
  function Held0(m: int): Job { Claimed(Root0(m), 1, 0) }
  function Child(m: int, a: nat): Job { NewJob(NextPage(Root0(m).page, Reading(a)), 1) }
  function Expired(m: int): Job { Held0(m).(status := Retrying, owner := None, availableAt := 400) }
  function Late(m: int, a: nat): Job { Claimed(Child(m, a), 2, 400) }
  function Noted(m: int, a: nat, c: nat): Job {
    Late(m, a).(outcome := Some(Outcome(a + c, LastReading(c).result, Finished, true, None)))
  }
  function Ended(m: int, a: nat, c: nat): Job { Noted(m, a, c).(status := Status.Completed, owner := None) }
  function Again(m: int): Job { Claimed(Expired(m), 3, 500) }
  function Renoted(m: int, b: nat): Job {
    Again(m).(outcome := Some(Outcome(b, Reading(b).result, Continued, false, Some(1))))
  }
  function Closed(m: int, b: nat): Job { Renoted(m, b).(status := Status.Completed, owner := None) }

  lemma RootStep(m: int, a: nat, b: nat, c: nat)
    requires Readable(m, a, b, c)
    ensures Next([], CrashRun(m, a, b, c)[0]) == [Root0(m)]
  {
    hide Run, Pick, First;
  }

  lemma FirstClaim(m: int, a: nat, b: nat, c: nat)
    ensures Next([Root0(m)], CrashRun(m, a, b, c)[1]) == [Held0(m)]
  {
    hide Run, Pick, RowOf, Next;
    ClaimOf([Root0(m)], [Root0(m)], 0, 1, 0);
    assert [Root0(m)][0 := Held0(m)] == [Held0(m)];
  }

  lemma FirstContinuation(m: int, a: nat, b: nat, c: nat)
    requires Readable(m, a, b, c)
    ensures Next([Held0(m)], CrashRun(m, a, b, c)[2]) == [Held0(m), Child(m, a)]
  {
    hide Run, Pick;
    var key := KeyOf(Child(m, a).page);
    assert KeyOf(Held0(m).page) != key;
    FirstIs((j: Job) => KeyOf(j.page) == key, [Held0(m)], 1);
  }

  lemma MiddleClaim(m: int, a: nat, b: nat, c: nat)
    ensures Next([Held0(m), Child(m, a)], CrashRun(m, a, b, c)[3]) == [Expired(m), Late(m, a)]
  {
    hide Run, Pick, RowOf, Next;
    ClaimOf([Held0(m), Child(m, a)], [Expired(m), Child(m, a)], 1, 2, 400);
    assert [Expired(m), Child(m, a)][1 := Late(m, a)] == [Expired(m), Late(m, a)];
  }

  lemma MiddleSteps(m: int, a: nat, b: nat, c: nat)
    requires Readable(m, a, b, c)
    ensures Next([Expired(m), Late(m, a)], CrashRun(m, a, b, c)[4]) == [Expired(m), Noted(m, a, c)]
    ensures Next([Expired(m), Noted(m, a, c)], CrashRun(m, a, b, c)[5]) == [Expired(m), Ended(m, a, c)]
  {
    hide Run, Pick, RowOf;
  }

  lemma LateClaim(m: int, a: nat, b: nat, c: nat)
    ensures Next([Expired(m), Ended(m, a, c)], CrashRun(m, a, b, c)[6]) == [Again(m), Ended(m, a, c)]
  {
    hide Run, Pick, RowOf, Next;
    ClaimOf([Expired(m), Ended(m, a, c)], [Expired(m), Ended(m, a, c)], 0, 3, 500);
    assert [Expired(m), Ended(m, a, c)][0 := Again(m)] == [Again(m), Ended(m, a, c)];
  }

  lemma LateSteps(m: int, a: nat, b: nat, c: nat)
    requires Readable(m, a, b, c)
    ensures Next([Again(m), Ended(m, a, c)], CrashRun(m, a, b, c)[7]) == [Again(m), Ended(m, a, c)]
    ensures Next([Again(m), Ended(m, a, c)], CrashRun(m, a, b, c)[8]) == [Renoted(m, b), Ended(m, a, c)]
    ensures Next([Renoted(m, b), Ended(m, a, c)], CrashRun(m, a, b, c)[9]) == [Closed(m, b), Ended(m, a, c)]
  {
    hide Run, Pick;
    var key := KeyOf(NextPage(Again(m).page, Reading(b)));
    FirstIs((j: Job) => KeyOf(j.page) == key, [Again(m), Ended(m, a, c)], 1);
  }

  lemma CrashRunEnds(m: int, a: nat, b: nat, c: nat)
    requires Readable(m, a, b, c)
    ensures Run([], CrashRun(m, a, b, c)) == [Closed(m, b), Ended(m, a, c)]
  {
    RootStep(m, a, b, c);
    FirstClaim(m, a, b, c);
    FirstContinuation(m, a, b, c);
    MiddleClaim(m, a, b, c);
    MiddleSteps(m, a, b, c);
    LateClaim(m, a, b, c);
    LateSteps(m, a, b, c);
    hide Next, Root0, Held0, Child, Expired, Late, Noted, Ended, Again, Renoted, Closed;
    var run := CrashRun(m, a, b, c);
    assert run[..10] == run && run[..0] == [];
    forall n | 0 <= n < 10 ensures Run([], run[..n + 1]) == Next(Run([], run[..n]), run[n]) {
      RunStep([], run, n);
    }
    assert Run([], run[..0 + 1]) == [Root0(m)];
    assert Run([], run[..1 + 1]) == [Held0(m)];
    assert Run([], run[..2 + 1]) == [Held0(m), Child(m, a)];
    assert Run([], run[..3 + 1]) == [Expired(m), Late(m, a)];
    assert Run([], run[..4 + 1]) == [Expired(m), Noted(m, a, c)];
    assert Run([], run[..5 + 1]) == [Expired(m), Ended(m, a, c)];
    assert Run([], run[..6 + 1]) == [Again(m), Ended(m, a, c)];
    assert Run([], run[..7 + 1]) == [Again(m), Ended(m, a, c)];
    assert Run([], run[..8 + 1]) == [Renoted(m, b), Ended(m, a, c)];
  }

  /** Whatever is read first, again, and last: both pages complete, the report adds up the second reading, and
      the last page's count starts from the first. */
  lemma {:induction false} CrashRunTotals(messages: int, first: nat, second: nat, last: nat)
    requires Readable(messages, first, second, last)
    ensures var rows := Rows(Run([], CrashRun(messages, first, second, last)), 1);
            && |rows| == 2 && AllDone(rows) && AllCompleted(rows) && rows[0].page.messages == messages
            && Total(rows) == second + last && rows[1].outcome.value.processedAfter == first + last
            && Drift(rows) == second - first
  {
    CrashRunEnds(messages, first, second, last);
    hide Run, CrashRun;
    var jobs := [Closed(messages, second), Ended(messages, first, last)];
    OneRow(jobs[0]);
    assert jobs[..1] == [jobs[0]];
    assert Rows(jobs, 1) == jobs;
  }

  lemma OneRow(j: Job)
    ensures Rows([j], j.page.id) == [j] && Total([j]) == Counted(j)
  {
    hide Counted;
    assert [j][..0] == [];
  }

  /** Five messages first and seven the second time: the report says 10, and the last page says 8. */
  lemma MismatchBreaksConservation()
    ensures var rows := Rows(Run([], CrashRun(100, 5, 7, 3)), 1);
            && |rows| == 2 && AllDone(rows) && Total(rows) == 10 && rows[1].outcome.value.processedAfter == 8
  {
    CrashRunTotals(100, 5, 7, 3);
    hide Run, CrashRun;
  }

  /** With a budget of ten messages, nine the second time: the report says 14. */
  lemma MismatchBreaksBudget()
    ensures var rows := Rows(Run([], CrashRun(10, 5, 9, 5)), 1);
            && |rows| == 2 && AllDone(rows) && rows[0].page.messages == 10 && Total(rows) == 14
  {
    CrashRunTotals(10, 5, 9, 5);
    hide Run, CrashRun;
  }

  // ---- the backfill's own message budget ----

  /** All jobs of a backfill carry their root's budgets. */
  lemma {:induction false} SameBudgets(jobs: seq<Job>, i: nat, k: nat)
    requires Inv(jobs) && i < |jobs| && k < |jobs| && jobs[i].page.id == jobs[k].page.id
    ensures jobs[i].page.messages == jobs[k].page.messages && jobs[i].page.pages == jobs[k].page.pages
    decreases i + k
  {
    hide InBudget, Checked, Effective;
    assert Linked(jobs, i) && Linked(jobs, k);
    if jobs[i].page.index != 0 {
      var p :| 0 <= p < i && Follows(jobs[p].page, jobs[i].page);
      SameBudgets(jobs, p, k);
    } else if jobs[k].page.index != 0 {
      var p :| 0 <= p < k && Follows(jobs[p].page, jobs[k].page);
      SameBudgets(jobs, i, p);
    } else if i != k {
      OneRoot(jobs, i, k);
    }
  }

  lemma OneRoot(jobs: seq<Job>, i: nat, k: nat)
    requires Inv(jobs) && i < |jobs| && k < |jobs| && jobs[i].page.id == jobs[k].page.id
    requires jobs[i].page.index == 0 && jobs[k].page.index == 0
    ensures i == k
  {
    hide InBudget, Checked, Follows;
    assert Linked(jobs, i) && Linked(jobs, k);
    assert KeyOf(jobs[i].page) == KeyOf(jobs[k].page);
  }

  /** In every run, for every provider: once all pages are completed the report's total is within the message
      budget up to the drift, and it keeps the budget exactly when the last page's count and the drift do. */
  lemma {:induction false} CompletedWithinBudget(events: seq<Event>, id: nat)
    requires Rows(Run([], events), id) != [] && AllCompleted(Rows(Run([], events), id))
    ensures var rows := Rows(Run([], events), id);
            && AllDone(rows)
            && Total(rows) <= rows[0].page.messages + Drift(rows)
            && (Total(rows) <= rows[0].page.messages <==>
                  Drift(rows) <= rows[0].page.messages - rows[|rows| - 1].outcome.value.processedAfter)
            && (LinksAgree(rows) ==> Total(rows) <= rows[0].page.messages)
  {
    hide Run, Inv, Rows, Total, Drift, EveryPrefixConserved, LinksAgree, Done;
    CompletedAccount(events, id);
    RunKeepsInv(events);
    var jobs := Run([], events);
    var rows := Rows(jobs, id);
    var first := RowComesFrom(jobs, id, 0);
    var last := RowComesFrom(jobs, id, |rows| - 1);
    SameBudgets(jobs, first, last);
    BudgetsHold(events, last);
    if LinksAgree(rows) { NoDrift(rows); }
    DoneHasOutcome(rows);
  }

  lemma DoneHasOutcome(rows: seq<Job>)
    requires AllDone(rows)
    ensures forall k :: 0 <= k < |rows| ==> rows[k].outcome.Some?
  {}

  lemma {:induction false} NoDrift(rows: seq<Job>)
    requires AllDone(rows) && LinksAgree(rows)
    ensures Drift(rows) == 0
  {
    if |rows| > 1 { NoDrift(rows[..|rows| - 1]); }
  }
}
