/** With a provider that answers the same page the same way, retries and crashes never break the totals. */
module BackfillProvider {
  import opened Prelude
  import opened Text
  import opened EmailBackfill
  import opened BackfillTotals

  /** What the mailbox answers to a page token and a page size. */
  type Provider = (Option<string>, int) -> Answer

  function Ask(provider: Provider, p: Page): Answer { provider(p.token, Effective(p)) }

  predicate Repeated(jobs: seq<Job>, e: Event, provider: Provider) {
    match e
    case Continue(i, a, _) => i < |jobs| ==> a == Ask(provider, jobs[i].page)
    case Checkpoint(i, _, _, a) => i < |jobs| ==> a == Ask(provider, jobs[i].page)
    case _ => true
  }

  /** Every reading in the run is the provider's answer for that page. */
  ghost predicate RepeatedRun(events: seq<Event>, provider: Provider) {
    forall n :: 0 <= n < |events| ==> Repeated(Run([], events[..n]), events[n], provider)
  }

  /** The pages of one backfill are a single chain, each page fixed by the one before it. */
  predicate Chained(rows: seq<Job>, provider: Provider) {
    forall k :: 0 <= k < |rows| ==> ChainedAt(rows, k, provider)
  }

  predicate ChainedAt(rows: seq<Job>, k: nat, provider: Provider)
    requires k < |rows|
  {
    var p := rows[k].page;
    && p.index == k
    && if k == 0 then p.processed == 0 && p.token == None
       else
         var before := rows[k - 1].page;
         Acceptable(before, Ask(provider, before)) && Continues(before, Ask(provider, before))
         && p == NextPage(before, Ask(provider, before))
  }

  /** A checkpoint holds the provider's answer. */
  predicate HonestRow(j: Job, provider: Provider) {
    j.outcome.Some? ==>
      j.outcome.value.result == Ask(provider, j.page).result
          && j.outcome.value.state == StateOf(j.page, Ask(provider, j.page))
  }

  ghost predicate ProviderInv(jobs: seq<Job>, provider: Provider) {
    && (forall id :: Chained(Rows(jobs, id), provider))
    && (forall i :: 0 <= i < |jobs| ==> HonestRow(jobs[i], provider))
  }

  // ---- rewriting rows in place ----

  lemma {:induction false} SamePagesSameRows(jobs: seq<Job>, jobs': seq<Job>, id: nat)
    requires |jobs'| == |jobs| && forall i :: 0 <= i < |jobs| ==> jobs'[i].page == jobs[i].page
    ensures |Rows(jobs', id)| == |Rows(jobs, id)|
    ensures forall k :: 0 <= k < |Rows(jobs, id)| ==> Rows(jobs', id)[k].page == Rows(jobs, id)[k].page
  {
    if jobs != [] { SamePagesSameRows(jobs[..|jobs| - 1], jobs'[..|jobs| - 1], id); }
  }

  lemma RewriteKeepsChains(jobs: seq<Job>, jobs': seq<Job>, provider: Provider)
    requires ProviderInv(jobs, provider)
    requires |jobs'| == |jobs| && forall i :: 0 <= i < |jobs| ==> jobs'[i].page == jobs[i].page
    requires forall i :: 0 <= i < |jobs| ==> jobs'[i].outcome == jobs[i].outcome || HonestRow(jobs'[i], provider)
    ensures ProviderInv(jobs', provider)
  {
    hide Rows, Acceptable, Continues, NextPage, Ask, StateOf;
    forall id ensures Chained(Rows(jobs', id), provider) {
      SamePagesSameRows(jobs, jobs', id);
      var rows, rows' := Rows(jobs, id), Rows(jobs', id);
      forall k: nat | k < |rows'| ensures ChainedAt(rows', k, provider) {
        assert ChainedAt(rows, k, provider);
      }
    }
    forall i | 0 <= i < |jobs'| ensures HonestRow(jobs'[i], provider) {
      assert HonestRow(jobs[i], provider);
    }
  }

  // ---- adding a page ----

  lemma AddedRows(jobs: seq<Job>, j: Job, id: nat)
    ensures Rows(jobs + [j], id) == if j.page.id == id then Rows(jobs, id) + [j] else Rows(jobs, id)
  {
    assert (jobs + [j])[..|jobs|] == jobs;
  }

  lemma AppendKeepsChains(jobs: seq<Job>, j: Job, provider: Provider)
    requires ProviderInv(jobs, provider) && j.outcome.None?
    requires var rows := Rows(jobs, j.page.id); ChainedAt(rows + [j], |rows|, provider)
    ensures ProviderInv(jobs + [j], provider)
  {
    hide Rows, Acceptable, Continues, NextPage, Ask, StateOf;
    forall id ensures Chained(Rows(jobs + [j], id), provider) {
      AddedRows(jobs, j, id);
      var rows, rows' := Rows(jobs, id), Rows(jobs + [j], id);
      forall k: nat | k < |rows'| ensures ChainedAt(rows', k, provider) {
        if k < |rows| { assert ChainedAt(rows, k, provider); }
      }
    }
    forall i | 0 <= i < |jobs + [j]| ensures HonestRow((jobs + [j])[i], provider) {
      if i < |jobs| { assert HonestRow(jobs[i], provider); }
    }
  }

  /** A row's place in its backfill is its page index. */
  lemma PlaceOfRow(jobs: seq<Job>, i: nat, provider: Provider)
    requires i < |jobs| && ProviderInv(jobs, provider)
    ensures var rows := Rows(jobs, jobs[i].page.id);
            0 <= jobs[i].page.index < |rows| && rows[jobs[i].page.index] == jobs[i]
  {
    hide Rows, Acceptable, Continues, NextPage, Ask, StateOf, HonestRow;
    RowIsThere(jobs, jobs[i].page.id, i);
    var rows := Rows(jobs, jobs[i].page.id);
    var k: nat :| k < |rows| && rows[k] == jobs[i];
    assert Chained(rows, provider) && ChainedAt(rows, k, provider);
  }

  lemma KeyTaken(jobs: seq<Job>, id: nat, k: nat, key: Key)
    requires k < |Rows(jobs, id)| && KeyOf(Rows(jobs, id)[k].page) == key
    ensures RowOf(jobs, key) < |jobs|
  {
    hide Rows, KeyOf;
    var i := RowComesFrom(jobs, id, k);
    assert KeyOf(jobs[i].page) == key;
  }

  /** A continuation either exists already or extends the chain at its end. */
  lemma ContinueKeepsChains(jobs: seq<Job>, i: nat, now: int, provider: Provider)
    requires ProviderInv(jobs, provider) && i < |jobs|
    requires Acceptable(jobs[i].page, Ask(provider, jobs[i].page))
              && Continues(jobs[i].page, Ask(provider, jobs[i].page))
    ensures ProviderInv(Enqueued(jobs, NextPage(jobs[i].page, Ask(provider, jobs[i].page)), now), provider)
  {
    hide Rows, Acceptable, Continues, Ask, StateOf, HonestRow, RowOf, KeyOf, ProviderInv;
    var p := jobs[i].page;
    var next := NextPage(p, Ask(provider, p));
    PlaceOfRow(jobs, i, provider);
    var rows, k := Rows(jobs, p.id), p.index + 1;
    if k < |rows| {
      ChainOf(jobs, p.id, k, provider);
      KeyTaken(jobs, p.id, k, KeyOf(next));
    } else {
      AppendKeepsChains(jobs, NewJob(next, now), provider);
    }
  }

  lemma ChainOf(jobs: seq<Job>, id: nat, k: nat, provider: Provider)
    requires ProviderInv(jobs, provider) && k < |Rows(jobs, id)|
    ensures ChainedAt(Rows(jobs, id), k, provider)
  {
    hide Rows, ChainedAt, HonestRow;
    assert Chained(Rows(jobs, id), provider);
  }

  lemma RootKeepsChains(jobs: seq<Job>, id: nat, size: int, pages: int, messages: int, now: int, provider: Provider)
    requires ProviderInv(jobs, provider)
    ensures ProviderInv(Enqueued(jobs, RootPage(id, size, pages, messages), now), provider)
  {
    hide Rows, Acceptable, Continues, Ask, StateOf, HonestRow, RowOf, ProviderInv;
    var root, rows := RootPage(id, size, pages, messages), Rows(jobs, id);
    if rows != [] {
      ChainOf(jobs, id, 0, provider);
      RowComesFromId(jobs, id, 0);
      KeyTaken(jobs, id, 0, KeyOf(root));
    } else {
      AppendKeepsChains(jobs, NewJob(root, now), provider);
    }
  }

  lemma RowComesFromId(jobs: seq<Job>, id: nat, k: nat)
    requires k < |Rows(jobs, id)|
    ensures Rows(jobs, id)[k].page.id == id
  {
    var i := RowComesFrom(jobs, id, k);
  }

  // ---- every step ----

  lemma StepKeepsChains(jobs: seq<Job>, e: Event, provider: Provider)
    requires ProviderInv(jobs, provider) && Repeated(jobs, e, provider)
    ensures ProviderInv(Next(jobs, e), provider)
  {
    hide ProviderInv, Acceptable, Continues, NextPage, Ask, KeyOf, RowOf, StateOf, Held, Claimable, InBudget;
    if Enabled(jobs, e) {
      match e {
        case Root(id, size, pages, messages, now) => RootKeepsChains(jobs, id, size, pages, messages, now, provider);
        case Continue(i, a, now) => ContinueKeepsChains(jobs, i, now, provider);
        case _ => RewriteKeepsChains(jobs, Next(jobs, e), provider);
      }
    }
  }

  lemma {:induction false} RunKeepsChains(events: seq<Event>, provider: Provider)
    requires RepeatedRun(events, provider)
    ensures ProviderInv(Run([], events), provider)
  {
    hide Next, Repeated, ProviderInv;
    if events == [] {
      NoJobs(provider);
    } else {
      var n := |events| - 1;
      forall k | 0 <= k < n ensures Repeated(Run([], events[..n][..k]), events[..n][k], provider) {
        assert events[..n][..k] == events[..k];
      }
      RunKeepsChains(events[..n], provider);
      StepKeepsChains(Run([], events[..n]), events[n], provider);
    }
  }

  lemma NoJobs(provider: Provider)
    ensures ProviderInv([], provider)
  {}

  // ---- conservation ----

  lemma ChainAgrees(rows: seq<Job>, provider: Provider)
    requires AllDone(rows) && Chained(rows, provider) && forall k :: 0 <= k < |rows| ==> HonestRow(rows[k], provider)
    ensures LinksAgree(rows)
  {
    hide Acceptable, Continues, Ask, StateOf;
    forall k: nat | 0 < k < |rows| ensures rows[k].page.processed == rows[k - 1].outcome.value.processedAfter {
      assert ChainedAt(rows, k, provider) && HonestRow(rows[k - 1], provider);
    }
  }

  /** In every run with a provider that repeats itself, whatever crashes and is retried: a backfill's pages are
      numbered from 0 without gap or repetition and stay within its page limit, and once all are completed the
      report's total is exactly the last page's count, within the message budget, and nothing is left to read. */
  lemma {:induction false} RepeatableProviderConserves(events: seq<Event>, id: nat, provider: Provider)
    requires RepeatedRun(events, provider) && Rows(Run([], events), id) != []
    ensures var rows := Rows(Run([], events), id);
            && (forall k :: 0 <= k < |rows| ==> rows[k].page.index == k)
            && |rows| <= rows[0].page.pages
            && (AllCompleted(rows) ==>
                  && AllDone(rows) && EveryPrefixConserved(rows)
                  && Total(rows) == rows[|rows| - 1].outcome.value.processedAfter <= rows[0].page.messages
                  && !rows[|rows| - 1].outcome.value.state.Continued?)
  {
    hide Run, Inv, Total, Drift, EveryPrefixConserved, LinksAgree, Done, RepeatedRun, ProviderInv, Rows;
    var jobs := Run([], events);
    var rows := Rows(jobs, id);
    RunKeepsInv(events);
    RunKeepsChains(events, provider);
    RowsHonest(jobs, id, provider);
    RowsBudget(jobs, id);
    SameBudgets(rows, provider);
    if AllCompleted(rows) {
      CompletedAccount(events, id);
      ChainAgrees(rows, provider);
      LastPrefix(rows);
      RowsChecked(jobs, id);
    }
  }

  lemma LastPrefix(rows: seq<Job>)
    requires rows != [] && AllDone(rows) && EveryPrefixConserved(rows)
    ensures Total(rows) == rows[|rows| - 1].outcome.value.processedAfter
  {
    var n := |rows| - 1;
    assert ConservedAt(rows, n) && rows[..n + 1] == rows;
  }

  lemma RowsHonest(jobs: seq<Job>, id: nat, provider: Provider)
    requires ProviderInv(jobs, provider)
    ensures Chained(Rows(jobs, id), provider)
    ensures forall k :: 0 <= k < |Rows(jobs, id)| ==>
              HonestRow(Rows(jobs, id)[k], provider) && Rows(jobs, id)[k].page.index == k
  {
    hide Rows, HonestRow, Acceptable, Continues, NextPage;
    forall k: nat | k < |Rows(jobs, id)|
      ensures HonestRow(Rows(jobs, id)[k], provider) && Rows(jobs, id)[k].page.index == k
    {
      var i := RowComesFrom(jobs, id, k);
      ChainOf(jobs, id, k, provider);
    }
  }

  lemma RowsBudget(jobs: seq<Job>, id: nat)
    requires Inv(jobs)
    ensures forall k :: 0 <= k < |Rows(jobs, id)| ==> InBudget(Rows(jobs, id)[k].page)
  {
    hide Rows, InBudget, UniqueKeys, Linked, Checked;
    forall k: nat | k < |Rows(jobs, id)| ensures InBudget(Rows(jobs, id)[k].page) {
      var i := RowComesFrom(jobs, id, k);
    }
  }

  /** The last of the completed pages leaves nothing behind: a continuation would be one more row. */
  lemma RowsChecked(jobs: seq<Job>, id: nat)
    requires Inv(jobs) && Rows(jobs, id) != [] && AllCompleted(Rows(jobs, id))
    requires forall k :: 0 <= k < |Rows(jobs, id)| ==> Rows(jobs, id)[k].page.index == k
    ensures var last := Rows(jobs, id)[|Rows(jobs, id)| - 1];
            && last.outcome.Some? && last.outcome.value.processedAfter <= last.page.messages
            && !last.outcome.value.state.Continued?
  {
    hide Rows, InBudget, UniqueKeys, Linked, Done;
    var rows := Rows(jobs, id);
    var i := RowComesFrom(jobs, id, |rows| - 1);
    assert Checked(jobs, i) && jobs[i].outcome.Some?;
    var next := jobs[i].outcome.value.continuation;
    if next.Some? { RowIsThere(jobs, id, next.value); }
  }

  lemma SameBudgets(rows: seq<Job>, provider: Provider)
    requires Chained(rows, provider) && forall k :: 0 <= k < |rows| ==> InBudget(rows[k].page)
    ensures forall k :: 0 <= k < |rows| ==>
              rows[k].page.pages == rows[0].page.pages && rows[k].page.messages == rows[0].page.messages
    ensures rows != [] ==> |rows| <= rows[0].page.pages
  {
    hide Acceptable, Continues, Ask;
    if rows != [] {
      SameBudgetsUpto(rows, |rows|, provider);
      assert ChainedAt(rows, |rows| - 1, provider);
    }
  }

  lemma {:induction false} SameBudgetsUpto(rows: seq<Job>, n: nat, provider: Provider)
    requires n <= |rows| && Chained(rows, provider)
    ensures forall k :: 0 <= k < n ==>
              rows[k].page.pages == rows[0].page.pages && rows[k].page.messages == rows[0].page.messages
  {
    hide Acceptable, Continues, Ask;
    if n > 0 {
      SameBudgetsUpto(rows, n - 1, provider);
      assert ChainedAt(rows, n - 1, provider);
    }
  }
}
