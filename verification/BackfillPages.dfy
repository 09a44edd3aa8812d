/** How many pages a backfill reads: one job a page exactly when the readings of a page agree on what comes next. */
module BackfillPages {
  import opened Prelude
  import opened Text
  import opened EmailBackfill
  import opened BackfillTotals

  /** The job table before event `n`. */
  function At(events: seq<Event>, n: nat): seq<Job>
    requires n <= |events|
  {
    Run([], events[..n])
  }

  /** Event `n` is a reading that is followed up. */
  predicate FollowsUp(events: seq<Event>, n: nat)
    requires n < |events|
  {
    events[n].Continue? && Enabled(At(events, n), events[n])
  }

  /** Every two readings of the same page that are followed up name the same next token. */
  ghost predicate ReadingsAgree(events: seq<Event>) {
    forall m, n ::
      0 <= m < n < |events| && FollowsUp(events, m) && FollowsUp(events, n) && events[m].row == events[n].row ==>
      events[m].answer.next == events[n].answer.next
  }

  /** No two jobs of a backfill are for the same page. */
  ghost predicate OneJobPerPage(jobs: seq<Job>) {
    forall i, k :: 0 <= i < k < |jobs| && jobs[i].page.id == jobs[k].page.id ==>
        jobs[i].page.index != jobs[k].page.index
  }

  // ---- where a page comes from ----

  /** Job `i` is the follow-up that event `n` made of job `p`. */
  predicate MadeBy(events: seq<Event>, jobs: seq<Job>, i: nat, n: nat, p: nat)
    requires i < |jobs|
  {
    && n < |events| && FollowsUp(events, n) && events[n].row == p && p < i
    && jobs[i].page == NextPage(jobs[p].page, events[n].answer)
  }

  lemma AppendedBy(jobs: seq<Job>, e: Event, i: nat)
    requires |jobs| <= i < |Next(jobs, e)| && Next(jobs, e)[i].page.index != 0
    ensures i == |jobs| && e.Continue? && Enabled(jobs, e) && e.row < i
    ensures Next(jobs, e)[i].page == NextPage(jobs[e.row].page, e.answer)
  {
    hide RowOf, OutcomeOf, KeyOf, Acceptable, Held, InBudget, Continues, Bounded, Pick, NextPage;
  }

  lemma {:induction false} ComesFrom(events: seq<Event>, i: nat) returns (n: nat, p: nat)
    requires i < |Run([], events)| && Run([], events)[i].page.index != 0
    ensures MadeBy(events, Run([], events), i, n, p)
    decreases |events|
  {
    hide Next, Enabled, NextPage;
    var last := |events| - 1;
    var before := Run([], events[..last]);
    StepExtends(before, events[last]);
    if i < |before| {
      n, p := ComesFrom(events[..last], i);
      assert events[..last][..n] == events[..n];
    } else {
      AppendedBy(before, events[last], i);
      n, p := last, events[last].row;
    }
  }

  // ---- both directions ----

  lemma SamePage(events: seq<Event>, i: nat, k: nat)
    requires ReadingsAgree(events)
    requires i < |Run([], events)| && k < |Run([], events)|
    requires Run([], events)[i].page.id == Run([], events)[k].page.id
    requires Run([], events)[i].page.index == Run([], events)[k].page.index
    ensures i == k
    decreases i + k
  {
    hide Run, InBudget, Checked, Follows;
    RunKeepsInv(events);
    var jobs := Run([], events);
    assert Linked(jobs, i) && Linked(jobs, k);
    if jobs[i].page.index == 0 {
      OneRoot(jobs, i, k);
    } else {
      var m, p := ComesFrom(events, i);
      var n, q := ComesFrom(events, k);
      SamePage(events, p, q);
      SameToken(events, m, n);
      assert KeyOf(jobs[i].page) == KeyOf(jobs[k].page);
    }
  }

  lemma SameToken(events: seq<Event>, m: nat, n: nat)
    requires ReadingsAgree(events) && m < |events| && n < |events|
    requires FollowsUp(events, m) && FollowsUp(events, n) && events[m].row == events[n].row
    ensures events[m].answer.next == events[n].answer.next
  {
    hide FollowsUp;
  }

  /** A reading that is followed up leaves a job for the next page under its token. */
  lemma FollowUpStays(events: seq<Event>, n: nat) returns (i: nat)
    requires n < |events| && FollowsUp(events, n)
    ensures var jobs := Run([], events);
            && events[n].row < |jobs| && i < |jobs|
            && KeyOf(jobs[i].page) == KeyOf(NextPage(jobs[events[n].row].page, events[n].answer))
    ensures events[n].answer.next.Some?
  {
    var before, e := At(events, n), events[n];
    var after := Next(before, e);
    FollowUpEnqueues(before, e);
    assert events == events[..n + 1] + events[n + 1..];
    RunConcat([], events[..n + 1], events[n + 1..]);
    RunStep([], events, n);
    hide Run, Next, Enabled, KeyOf, NextPage, RowOf;
    RunExtends(after, events[n + 1..]);
    StepExtends(before, e);
    var key := KeyOf(NextPage(before[e.row].page, e.answer));
    KeyStays(after, events[n + 1..], key);
    i := RowOf(after, key);
    RowHasKey(Run([], events), key);
  }

  lemma RowHasKey(jobs: seq<Job>, key: Key)
    requires RowOf(jobs, key) < |jobs|
    ensures KeyOf(jobs[RowOf(jobs, key)].page) == key
  {
    hide KeyOf;
  }

  lemma FollowUpEnqueues(jobs: seq<Job>, e: Event)
    requires e.Continue? && Enabled(jobs, e)
    ensures e.row < |jobs| && e.answer.next.Some?
    ensures RowOf(Next(jobs, e), KeyOf(NextPage(jobs[e.row].page, e.answer))) < |Next(jobs, e)|
  {
    hide KeyOf, InBudget, NextPage;
    var p := NextPage(jobs[e.row].page, e.answer);
    var after := Next(jobs, e);
    if RowOf(jobs, KeyOf(p)) == |jobs| {
      FirstIs((j: Job) => KeyOf(j.page) == KeyOf(p), after, |jobs|);
    }
  }

  /** In every run: there is one job for each page of each backfill if and only if the readings agree. */
  lemma {:induction false} OneJobPerPageIff(events: seq<Event>)
    ensures OneJobPerPage(Run([], events)) <==> ReadingsAgree(events)
  {
    var jobs := Run([], events);
    if ReadingsAgree(events) {
      forall i, k | 0 <= i < k < |jobs| && jobs[i].page.id == jobs[k].page.id
          ensures jobs[i].page.index != jobs[k].page.index
      {
        if jobs[i].page.index == jobs[k].page.index { SamePage(events, i, k); }
      }
    }
    if OneJobPerPage(jobs) {
      hide Run, FollowsUp;
      forall m: nat, n: nat | m < n < |events| && FollowsUp(events, m) && FollowsUp(events, n)
          && events[m].row == events[n].row
        ensures events[m].answer.next == events[n].answer.next
      {
        var i := FollowUpStays(events, m);
        var k := FollowUpStays(events, n);
        assert i == k;
      }
    }
  }

  // ---- the page limit ----

  /** The page numbers of a backfill's jobs. */
  function Indexes(rows: seq<Job>): set<int> { set k | 0 <= k < |rows| :: rows[k].page.index }

  predicate DistinctPages(rows: seq<Job>) {
    forall i, k :: 0 <= i < k < |rows| ==> rows[i].page.index != rows[k].page.index
  }

  lemma {:induction false} DistinctCount(rows: seq<Job>)
    requires DistinctPages(rows)
    ensures |Indexes(rows)| == |rows|
  {
    if rows != [] {
      var n := |rows| - 1;
      DistinctCount(rows[..n]);
      assert Indexes(rows) == Indexes(rows[..n]) + {rows[n].page.index};
    }
  }

  lemma {:induction false} BelowCount(xs: set<int>, n: nat)
    requires forall x :: x in xs ==> 0 <= x < n
    ensures |xs| <= n
  {
    if n > 0 {
      BelowCount(xs - {n - 1}, n - 1);
      assert |xs| <= |xs - {n - 1}| + 1;
    } else {
      assert forall x :: x !in xs;
    }
  }

  lemma {:induction false} RowsDistinct(jobs: seq<Job>, id: nat)
    requires OneJobPerPage(jobs)
    ensures DistinctPages(Rows(jobs, id))
  {
    if jobs != [] {
      var n := |jobs| - 1;
      RowsDistinct(jobs[..n], id);
      var front := Rows(jobs[..n], id);
      if jobs[n].page.id == id {
        forall k | 0 <= k < |front| ensures front[k].page.index != jobs[n].page.index {
          var i := RowComesFrom(jobs[..n], id, k);
          assert jobs[i] == front[k];
        }
        var rows := Rows(jobs, id);
        forall i, k | 0 <= i < k < |rows| ensures rows[i].page.index != rows[k].page.index {
          assert rows[i] == front[i] && rows[k] == if k < |front| then front[k] else jobs[n];
        }
      }
    }
  }

  /** So as long as the readings of a page agree on the next token, whatever they count, a backfill never has
      more jobs than its page limit. */
  lemma {:induction false} WithinPageLimit(events: seq<Event>, id: nat)
    requires ReadingsAgree(events) && Rows(Run([], events), id) != []
    ensures var rows := Rows(Run([], events), id); |rows| <= rows[0].page.pages
  {
    OneJobPerPageIff(events);
    hide Run, Rows, Inv, ReadingsAgree;
    RunKeepsInv(events);
    var jobs := Run([], events);
    var rows := Rows(jobs, id);
    RowsDistinct(jobs, id);
    DistinctCount(rows);
    var first := RowComesFrom(jobs, id, 0);
    forall k: nat | k < |rows| ensures 0 <= rows[k].page.index < rows[0].page.pages {
      var i := RowComesFrom(jobs, id, k);
      SameBudgets(jobs, i, first);
      BudgetsHold(events, i);
    }
    BelowCount(Indexes(rows), rows[0].page.pages);
  }

  // ---- a page read twice with different tokens ----

  function Token(t: string): Answer { Answer(PageResult(5, 0, 0, 0, 0, 0), Some(t)) }

  /** Page 0 of two is read once with next token "a" and, after its worker has died, once with "b". */
  const TokenRun: seq<Event> :=
    [Root(1, 10, 2, 100, 0), Claim(1, 0), Continue(0, Token("a"), 1), Claim(2, 400), Claim(3, 401),
        Continue(0, Token("b"), 402)]

  const Start := NewJob(RootPage(1, 10, 2, 100), 0)
  const Taken := Claimed(Start, 1, 0)
  const ChildA := NewJob(NextPage(Start.page, Token("a")), 1)
  const Back := Taken.(status := Retrying, owner := None, availableAt := 400)
  const HeldA := Claimed(ChildA, 2, 400)
  const Retaken := Claimed(Back, 3, 401)
  const ChildB := NewJob(NextPage(Start.page, Token("b")), 402)

  lemma TokenRoot()
    ensures Next([], TokenRun[0]) == [Start]
  {
    hide Run, Pick, First;
  }

  lemma TokenClaims()
    ensures Next([Start], TokenRun[1]) == [Taken]
    ensures Next([Taken, ChildA], TokenRun[3]) == [Back, HeldA]
    ensures Next([Back, HeldA], TokenRun[4]) == [Retaken, HeldA]
  {
    hide Run, Pick, RowOf, Next;
    ClaimOf([Start], [Start], 0, 1, 0);
    ClaimOf([Taken, ChildA], [Back, ChildA], 1, 2, 400);
    ClaimOf([Back, HeldA], [Back, HeldA], 0, 3, 401);
    assert [Start][0 := Taken] == [Taken] && [Back, ChildA][1 := HeldA] == [Back, HeldA];
    assert [Back, HeldA][0 := Retaken] == [Retaken, HeldA];
  }

  lemma TokenFirst()
    ensures Next([Taken], TokenRun[2]) == [Taken, ChildA]
  {
    hide Run, Pick;
    var key := KeyOf(ChildA.page);
    assert KeyOf(Taken.page) != key;
    FirstIs((j: Job) => KeyOf(j.page) == key, [Taken], 1);
  }

  lemma TokenSecond()
    ensures Next([Retaken, HeldA], TokenRun[5]) == [Retaken, HeldA, ChildB]
  {
    hide Run, Pick;
    var key := KeyOf(ChildB.page);
    assert KeyOf(Retaken.page) != key && KeyOf(HeldA.page) != key;
    FirstIs((j: Job) => KeyOf(j.page) == key, [Retaken, HeldA], 2);
  }

  /** A backfill limited to two pages ends up with three jobs. */
  lemma {:induction false} TokensBreakPageLimit()
    ensures var rows := Rows(Run([], TokenRun), 1); |rows| == 3 && rows[0].page.pages == 2
  {
    TokenRoot();
    TokenClaims();
    TokenFirst();
    TokenSecond();
    hide Next;
    assert TokenRun[..6] == TokenRun && TokenRun[..0] == [];
    forall n | 0 <= n < 6 ensures Run([], TokenRun[..n + 1]) == Next(Run([], TokenRun[..n]), TokenRun[n]) {
      RunStep([], TokenRun, n);
    }
    assert Run([], TokenRun[..0 + 1]) == [Start];
    assert Run([], TokenRun[..1 + 1]) == [Taken];
    assert Run([], TokenRun[..2 + 1]) == [Taken, ChildA];
    assert Run([], TokenRun[..3 + 1]) == [Back, HeldA];
    assert Run([], TokenRun[..4 + 1]) == [Retaken, HeldA];
    var jobs := [Retaken, HeldA, ChildB];
    assert Run([], TokenRun) == jobs;
    assert jobs[..2] == [Retaken, HeldA] && [Retaken, HeldA][..1] == [Retaken] && [Retaken][..0] == [];
    assert Rows([Retaken], 1) == [Retaken];
    assert Rows([Retaken, HeldA], 1) == [Retaken, HeldA];
    assert Rows(jobs, 1) == jobs;
  }
}
