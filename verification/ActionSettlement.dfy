/** What becomes of a proposal, by what the tool really reported. */
module ActionSettlement {
  import opened Prelude
  import opened Text
  import opened Values
  import opened ActionLedger
  import opened Reauthorization
  import opened ActionExecution

  // ---- one settlement ----

  /** The reported status, blanks around it and letter case aside. */
  predicate Says(r: ToolResult, status: string) { r.Reported? && Lower(Strip(r.status)) == status }

  /** The tool reported success and said what it did. */
  predicate ReportsSuccess(r: ToolResult) {
    (Says(r, "ok") || Says(r, "queued")) && r.receipt.Some?
  }

  predicate ReportsRefusal(r: ToolResult) { Says(r, "policy_denied") || Says(r, "denied") }

  predicate ReportsNoEffect(r: ToolResult) { Says(r, "retryable_error") && !r.committedFlag }

  /** The row is still claimed by this very delivery, whose job lease is alive. */
  predicate OwnLiveClaim(s: Store, d: Delivery) {
    && d.token >= 0 && s.proposal.state == Executing && s.proposal.terms.proposalId == ProposalIdOf(d)
    && s.proposal.jobId == Strip(d.jobId) && s.proposal.fencing == d.token
    && s.job.status == Running && s.job.owner == Strip(d.worker) && s.job.fencing == d.token
  }

  /** What is stored and reported after a dispatch with this result. */
  predicate SettledAs(before: Proposal, after: Proposal, r: ToolResult, pc: Pc) {
    && after.terms == before.terms
    && (r.Threw? ==>
          after.state == FailedTerminal && after.receipt == None && after.reason == STATE_UNCERTAIN
          && pc == Finished(OutFailed(STATE_UNCERTAIN)))
    && (ReportsRefusal(r) ==>
          && after.state == Denied && after.receipt == None
          && after.reason == Cut(if r.denialReason == "" then DISPATCH_DENIED else r.denialReason)
          && pc == Finished(OutDenied(after.reason)))
    && (ReportsNoEffect(r) ==>
          after.state == Approved && after.arguments == before.arguments && pc == Finished(OutRetryable))
    && (ReportsSuccess(r) ==>
          after.state == Executed && after.receipt == r.receipt && pc == Finished(OutExecuted(r.receipt)))
    && (r.Reported? && !ReportsRefusal(r) && !ReportsNoEffect(r) && !ReportsSuccess(r) ==>
          after.state == FailedTerminal && after.receipt == None && after.reason == RECEIPT_MISSING
          && pc == Finished(OutFailed(RECEIPT_MISSING)))
    && (after.state != Approved ==> after.arguments == None)
  }

  /** The first 120 characters. */
  function Cut(s: string): (r: string)
    ensures r <= s && |r| <= 120 && (|s| <= 120 ==> r == s) && (|s| > 120 ==> |r| == 120)
  {
    if |s| <= 120 then s else s[..120]
  }

  lemma StatusesDiffer()
    ensures "ok" != "queued" && "ok" != "policy_denied" && "ok" != "denied" && "ok" != "retryable_error"
    ensures "queued" != "policy_denied" && "queued" != "denied" && "queued" != "retryable_error"
    ensures "policy_denied" != "retryable_error" && "denied" != "retryable_error"
  {
    assert |"ok"| == 2 && |"queued"| == 6 && |"policy_denied"| == 13 && |"denied"| == 6 && |"retryable_error"| == 15;
    assert "queued"[0] != "denied"[0];
  }

  /** Settled under its own live claim, a dispatch leaves exactly what its result calls for. */
  lemma {:induction false} SettlementMeans(sys: Sys, i: nat, now: int)
    requires i < |sys.invocations| && sys.invocations[i].pc.Dispatched?
    requires OwnLiveClaim(sys.store, sys.invocations[i].delivery)
    ensures var after := Next(sys, MakeCall(i, now));
            SettledAs(sys.store.proposal, after.store.proposal, sys.invocations[i].pc.result, after.invocations[i].pc)
  {
    var inv := sys.invocations[i];
    var c := NextCall(inv, now).value;
    StatusesDiffer();
    MakeCallShape(sys, i, now);
    SettleReply(sys.store, inv, c);
    hide Next, Transact, Strip, Lower, ProposalIdOf, SettleCall;
  }

  /** The transaction of a settlement under a live claim is accepted. */
  lemma SettleReply(s: Store, inv: Invocation, c: Call)
    requires inv.pc.Dispatched? && OwnLiveClaim(s, inv.delivery) && c == SettleCall(inv.delivery, inv.pc.result)
    ensures var (after, reply) := Transact(s, c);
            reply.Returned? && reply.proposal == after.proposal
            && SettledAs(s.proposal, after.proposal, inv.pc.result, AfterCall(inv.pc, reply))
  {
    hide Strip, Lower, ProposalIdOf, Transact, OwnLiveClaim, STATE_UNCERTAIN, RECEIPT_MISSING, DISPATCH_DENIED,
        COMMITTED,
      EXECUTION_DENIED, Cut, Truncate;
    StatusesDiffer();
    CodesNotEmpty();
    if inv.pc.result.Reported? { CutTwice(DenialReason(inv.pc.result)); }
    if c.RetryNoEffect? { RetryAccepted(s, c, inv.delivery); } else { FinishAccepted(s, c, inv.delivery); }
  }

  lemma CodesNotEmpty()
    ensures STATE_UNCERTAIN != "" && RECEIPT_MISSING != "" && DISPATCH_DENIED != "" && COMMITTED != ""
    ensures Cut(STATE_UNCERTAIN) == STATE_UNCERTAIN && Cut(RECEIPT_MISSING) == RECEIPT_MISSING
    ensures Cut(COMMITTED) == COMMITTED
    ensures |STATE_UNCERTAIN| <= 120 && |RECEIPT_MISSING| <= 120 && |COMMITTED| <= 120 && EXECUTION_DENIED != ""
  {
    assert |STATE_UNCERTAIN| < 120 && |RECEIPT_MISSING| < 120 && |COMMITTED| < 120;
  }

  /** Cutting twice is cutting once. */
  lemma CutTwice(s: string)
    ensures Cut(Cut(s)) == Cut(s) == Truncate(s, 120)
  {}

  lemma FinishAccepted(s: Store, c: Call, d: Delivery)
    requires OwnLiveClaim(s, d) && c.Finish? && c == FinishCall(d, c.target, c.reason, c.receipt)
    requires (c.target == Executed && c.receipt.Some?) || c.target == Denied || c.target == FailedTerminal
    ensures var p := s.proposal.(state := c.target, arguments := None, receipt := c.receipt,
                                 reason := if c.reason == "" then "action_execution_terminal" else Cut(c.reason));
            Transact(s, c) == (s.(proposal := p), Returned(p))
  {
    hide Strip, Lower, ProposalIdOf;
  }

  lemma RetryAccepted(s: Store, c: Call, d: Delivery)
    requires OwnLiveClaim(s, d)
    requires c == RetryNoEffect(ProposalIdOf(d), Strip(d.jobId), Strip(d.worker), if d.token < 0 then 0 else d.token)
    ensures var p := s.proposal.(state := Approved, fencing := 0); Transact(s, c) == (s.(proposal := p), Returned(p))
  {
    hide Strip, Lower, ProposalIdOf;
  }

  // ---- over a run ----

  /** Some call of the tool in the run had this result. */
  ghost predicate Called(sys: Sys, events: seq<Event>, r: ToolResult) {
    exists n :: 0 <= n < |events| && CallsWith(sys, events, n, r)
  }

  predicate CallsWith(sys: Sys, events: seq<Event>, n: nat, r: ToolResult)
    requires n < |events|
  {
    events[n].CallTool? && events[n].result == r && Dispatches(Run(sys, events[..n]), events[n])
  }

  /** Where a result may be: with an invocation that has called the tool, and behind an executed row. */
  ghost predicate ResultsCalled(sys: Sys, events: seq<Event>) {
    var at := Run(sys, events);
    && (forall i :: 0 <= i < |at.invocations| ==> StageCalled(sys, events, at.invocations[i].pc))
    && (at.store.proposal.state == Executed ==>
          exists r :: Called(sys, events, r) && ReportsSuccess(r) && at.store.proposal.receipt == r.receipt)
  }

  ghost predicate StageCalled(sys: Sys, events: seq<Event>, pc: Pc) {
    pc.Dispatched? ==> Called(sys, events, pc.result)
  }

  lemma CalledEarlier(sys: Sys, events: seq<Event>, e: Event, r: ToolResult)
    requires Called(sys, events, r)
    ensures Called(sys, events + [e], r)
  {
    hide Run, Dispatches;
    var n :| 0 <= n < |events| && CallsWith(sys, events, n, r);
    assert (events + [e])[..n] == events[..n];
    assert CallsWith(sys, events + [e], n, r);
  }

  lemma CalledNow(sys: Sys, events: seq<Event>, e: Event)
    requires e.CallTool? && Dispatches(Run(sys, events), e)
    ensures Called(sys, events + [e], e.result)
  {
    hide Run, Dispatches;
    assert (events + [e])[..|events|] == events;
    assert CallsWith(sys, events + [e], |events|, e.result);
  }

  /** Only a call of the tool puts an invocation where its result is, and it is the event's own. */
  lemma OnlyCallsDispatch(sys: Sys, e: Event, i: nat)
    requires i < |Next(sys, e).invocations| && Next(sys, e).invocations[i].pc.Dispatched?
    ensures (i < |sys.invocations| && Next(sys, e).invocations[i].pc == sys.invocations[i].pc)
         || (Dispatches(sys, e) && Next(sys, e).invocations[i].pc.result == e.result)
  {
    hide Transact, Gate, Reauthorize, SettleCall, BeginCall, DenyCall;
    if e.ReadGate? && e.i < |sys.invocations| { GateStages(sys.invocations[e.i].delivery, sys.store.proposal); }
  }

  /** Only a settled success makes the row executed. */
  lemma {:induction false} OnlySuccessExecutes(sys: Sys, e: Event)
    requires RowInv(sys.store)
    requires Next(sys, e).store.proposal.state == Executed
    ensures (sys.store.proposal.state == Executed && Next(sys, e).store.proposal.receipt == sys.store.proposal.receipt)
         || (e.MakeCall? && e.i < |sys.invocations| && sys.invocations[e.i].pc.Dispatched?
             && ReportsSuccess(sys.invocations[e.i].pc.result)
             && Next(sys, e).store.proposal.receipt == sys.invocations[e.i].pc.result.receipt)
  {
    hide Gate, Authorize, AfterCall, NextCall, RowInv, Transact;
    match e {
      case Elsewhere(c) =>
        TransactKeepsRow(sys.store, c);
        OnlyFinishExecutes(sys.store, c);
      case MakeCall(i, now) =>
        if i < |sys.invocations| && NextCall(sys.invocations[i], now).Some? {
          MakeCallShape(sys, i, now);
          var c := NextCall(sys.invocations[i], now).value;
          TransactKeepsRow(sys.store, c);
          OnlyFinishExecutes(sys.store, c);
          FinishesExecuted(sys.invocations[i], now);
        }
      case _ =>
    }
  }

  lemma OnlyFinishExecutes(s: Store, c: Call)
    ensures Transact(s, c).0.proposal.state == Executed ==>
              s.proposal.state == Executed
              || (c.Finish? && c.target == Executed && Transact(s, c).0.proposal.receipt == c.receipt)
  {}

  lemma FinishesExecuted(inv: Invocation, now: int)
    requires NextCall(inv, now).Some?
    ensures var c := NextCall(inv, now).value;
            c.Finish? && c.target == Executed ==>
              inv.pc.Dispatched? && ReportsSuccess(inv.pc.result) && c.receipt == inv.pc.result.receipt
  {
    hide Strip, Lower, ProposalIdOf;
  }

  lemma {:induction false} StepKeepsResults(sys: Sys, events: seq<Event>, e: Event)
    requires RowInv(Run(sys, events).store) && ResultsCalled(sys, events)
    ensures ResultsCalled(sys, events + [e])
  {
    hide Run, Next, RowInv, Called, Dispatches, Lower, Strip;
    var at := Run(sys, events);
    var after := Next(at, e);
    OneMore(sys, events, e);
    forall i | 0 <= i < |after.invocations| ensures StageCalled(sys, events + [e], after.invocations[i].pc) {
      if after.invocations[i].pc.Dispatched? {
        OnlyCallsDispatch(at, e, i);
        if i < |at.invocations| && after.invocations[i].pc == at.invocations[i].pc {
          assert StageCalled(sys, events, at.invocations[i].pc);
          CalledEarlier(sys, events, e, at.invocations[i].pc.result);
        } else {
          DispatchIsCall(at, e);
          CalledNow(sys, events, e);
        }
      }
    }
    if after.store.proposal.state == Executed {
      OnlySuccessExecutes(at, e);
      var r :| Called(sys, events, r) && ReportsSuccess(r) && r.Reported?
          && after.store.proposal.receipt == r.receipt by {
        if at.store.proposal.state != Executed || after.store.proposal.receipt != at.store.proposal.receipt {
          assert StageCalled(sys, events, at.invocations[e.i].pc);
        }
      }
      CalledEarlier(sys, events, e, r);
    }
  }

  lemma DispatchIsCall(sys: Sys, e: Event)
    requires Dispatches(sys, e)
    ensures e.CallTool?
  {
    hide Next;
  }

  lemma OneMore(sys: Sys, events: seq<Event>, e: Event)
    ensures Run(sys, events + [e]) == Next(Run(sys, events), e)
  {
    hide Next;
    RunAppend(sys, events, [e]);
    assert [e][1..] == [];
  }

  lemma {:induction false} RunKeepsResults(sys: Sys, events: seq<Event>)
    requires Initial(sys) && sys.store.proposal.state != Executed
    ensures RowInv(Run(sys, events).store) && ResultsCalled(sys, events)
  {
    hide Next, RowInv, ResultsCalled, Initial;
    if events == [] {
      NothingYet(sys);
    } else {
      var front, e := events[..|events| - 1], events[|events| - 1];
      RunKeepsResults(sys, front);
      StepKeepsResults(sys, front, e);
      StepKeepsRow(Run(sys, front), e);
      OneMore(sys, front, e);
      assert events == front + [e];
    }
  }

  lemma NothingYet(sys: Sys)
    requires Initial(sys) && sys.store.proposal.state != Executed
    ensures RowInv(Run(sys, []).store) && ResultsCalled(sys, [])
  {
    hide RowInv;
  }

  lemma StepKeepsRow(sys: Sys, e: Event)
    requires RowInv(sys.store)
    ensures RowInv(Next(sys, e).store)
  {
    hide Transact, RowInv, NextCall, Gate, Authorize, AfterCall;
    if e.Elsewhere? { TransactKeepsRow(sys.store, e.call); }
    if e.MakeCall? && e.i < |sys.invocations| && NextCall(sys.invocations[e.i], e.now).Some? {
      TransactKeepsRow(sys.store, NextCall(sys.invocations[e.i], e.now).value);
    }
  }

  /** In every run the row is executed only if some call of the tool in it reported "ok" or "queued" with a
      receipt, and the stored receipt is that call's. */
  lemma ExecutedOnlyBySuccess(sys: Sys, events: seq<Event>)
    requires Initial(sys) && sys.store.proposal.state != Executed
    requires Run(sys, events).store.proposal.state == Executed
    ensures exists r :: Called(sys, events, r) && ReportsSuccess(r)
              && Run(sys, events).store.proposal.receipt == r.receipt
  {
    hide Run, Called, ReportsSuccess, Initial;
    RunKeepsResults(sys, events);
  }

  // ---- the gate and the claim ----

  /** What a delivery that matches its proposal gets to hear before any claim, by the row's state. */
  lemma GateMeans(d: Delivery, p: Proposal)
    requires ProposalIdOf(d) == p.terms.proposalId && PayloadMatches(d, p.terms)
    ensures p.state == Executed ==> Gate(d, p) == Finished(OutAlreadyExecuted(p.receipt))
    ensures p.state == Executing ==> Gate(d, p) == Finished(OutReconciliation)
    ensures p.state != Executed && p.state != Executing && p.state != Approved ==>
              Gate(d, p).Finished? && Gate(d, p).outcome.OutDenied?
    ensures p.state == Approved ==>
              if Strip(d.jobId) != "" && Strip(d.worker) != "" && d.token >= 1 then Gate(d, p) == Gated
              else Gate(d, p) == Finished(OutDenied(LEASE_MISSING))
  {
    hide PayloadMatches, Strip, Lower, ProposalIdOf, StateName;
  }

  /** A delivery that names anything else is turned away. */
  lemma GateRefusesOthers(d: Delivery, p: Proposal)
    requires ProposalIdOf(d) != p.terms.proposalId || !PayloadMatches(d, p.terms)
    ensures Gate(d, p) == Finished(OutDenied(BINDING_MISMATCH))
  {
    hide PayloadMatches, Strip, ProposalIdOf;
  }

  /** The claim succeeds for an approved, unexpired row and the job's live lease, and moves it to executing
      under the delivery's token. */
  lemma {:induction false} ClaimMeans(sys: Sys, i: nat, now: int)
    requires i < |sys.invocations| && sys.invocations[i].pc.Gated?
    requires var d, s := sys.invocations[i].delivery, sys.store;
             && d.token >= 1 && s.proposal.state == Approved && s.proposal.expiresAt > now
             && s.proposal.terms.proposalId == ProposalIdOf(d) && s.proposal.jobId == Strip(d.jobId)
             && s.job.status == Running && s.job.owner == Strip(d.worker) && s.job.fencing == d.token
    ensures var after := Next(sys, MakeCall(i, now));
            && after.store.proposal == sys.store.proposal.(state := Executing,
                fencing := sys.invocations[i].delivery.token)
            && after.invocations[i].pc == Claimed(after.store.proposal) && after.store.job == sys.store.job
  {
    hide Strip, Lower, ProposalIdOf;
  }

  /** A check that fails is stored as a denial with its reason, under the claim's own live lease. */
  lemma {:induction false} DenialMeans(sys: Sys, i: nat, now: int)
    requires i < |sys.invocations| && sys.invocations[i].pc.Denying?
              && OwnLiveClaim(sys.store, sys.invocations[i].delivery)
    ensures var after, reason := Next(sys, MakeCall(i, now)), sys.invocations[i].pc.reason;
            && after.store.proposal.state == Denied && after.store.proposal.arguments == None
            && (reason != "" ==> after.store.proposal.reason == Cut(reason))
            && after.invocations[i].pc == Finished(OutDenied(Cut(reason)))
  {
    hide Strip, Lower, ProposalIdOf;
  }

  /** A settlement or denial of the service may be sent twice: its reason is always stored unchanged. */
  lemma SettlementRepeats(s: Store, c: Call, d: Delivery, r: ToolResult, reason: string)
    requires c == SettleCall(d, r) || c == DenyCall(d, reason)
    requires c.Finish? && s.proposal.state == Executing && Transact(s, c).1.Returned?
    ensures Transact(Transact(s, c).0, c) == Transact(s, c)
  {
    hide Strip, Lower, ProposalIdOf, Transact, Refuses, DeclaresNoEffect, Succeeds, STATE_UNCERTAIN, RECEIPT_MISSING,
      DISPATCH_DENIED, COMMITTED, EXECUTION_DENIED;
    CodesNotEmpty();
    if c == DenyCall(d, reason) {
      CutTwice(if reason == "" then EXECUTION_DENIED else reason);
    } else if r.Reported? {
      CutTwice(DenialReason(r));
    }
    assert c.reason != "" && |c.reason| <= 120;
    SettledTwice(s, c);
  }

  // ---- one delivery that nobody disturbs ----

  /** The delivery's payload is the one written for this proposal. */
  predicate Names(d: Delivery, t: Terms) {
    && d.payload.Some? && d.payload.value.Keys == PAYLOAD_KEYS
    && var m := d.payload.value;
       && m["proposal_id"] == Some(t.proposalId) && m["review_id"] == Some(t.reviewId)
       && m["operation_id"] == Some(t.operationId) && m["authorization_binding"] == Some(t.authorization)
       && m["batch_manifest_hash"] == t.batchHash && m["transfer_binding_hash"] == t.transferHash
  }

  /** The gate knows its proposal's own payload, and nothing else gets past it. */
  lemma NamesIff(d: Delivery, t: Terms)
    requires Stripped(t.proposalId)
    requires t.proposalId != "" && t.reviewId != "" && t.operationId != "" && t.authorization != ""
    ensures ProposalIdOf(d) == t.proposalId && PayloadMatches(d, t) <==> Names(d, t)
  {
    hide Strip, Stripped;
    StripFixed(t.proposalId);
  }

  /** The row is approved and unexpired, and the delivery is its own, under its job's live lease. */
  predicate Due(s: Store, d: Delivery, now: int) {
    && s.proposal.state == Approved && s.proposal.expiresAt > now && s.proposal.arguments.Some?
    && Names(d, s.proposal.terms) && Stripped(s.proposal.terms.proposalId)
    && d.token >= 1 && s.proposal.jobId == Strip(d.jobId) != "" && Strip(d.worker) != ""
    && s.job.status == Running && s.job.owner == Strip(d.worker) && s.job.fencing == d.token
  }

  /** The call prepared now is the one approved, and it can be made. */
  predicate Approvable(p: Proposal, w: World) {
    p.arguments.Some? && w.canPrepare && w.canDispatch && CallAsApproved(p.terms, p.arguments.value, w)
  }

  /** A delivery that is due calls the tool, once, exactly when the call prepared is the one approved. What the tool
      reports is then settled; otherwise the proposal is denied. */
  lemma {:induction false} DueDelivery(sys: Sys, d: Delivery, now: int, w: World, r: ToolResult, later: int)
    requires Due(sys.store, d, now)
    ensures var i := |sys.invocations|;
            var after := Run(sys, [Deliver(d), ReadGate(i), MakeCall(i, now), Check(i, w), CallTool(i, r),
                MakeCall(i, later)]);
            && i < |after.invocations|
            && (if Approvable(sys.store.proposal, w)
                then && after.dispatches == sys.dispatches + [i]
                     && SettledAs(sys.store.proposal, after.store.proposal, r, after.invocations[i].pc)
                else && after.dispatches == sys.dispatches && after.store.proposal.state == Denied
                     && after.store.proposal.arguments == None && after.invocations[i].pc.Finished?
                     && after.invocations[i].pc.outcome.OutDenied?)
  {
    hide Names, CallAsApproved, Next, SettledAs, Gate, NextCall, Transact, PayloadMatches, ProposalIdOf, Strip;
    var i := |sys.invocations|;
    var s1 := Next(sys, Deliver(d));
    var s2 := Next(s1, ReadGate(i));
    var s3 := Next(s2, MakeCall(i, now));
    ToTheClaim(sys, d, now);
    var s4 := Next(s3, Check(i, w));
    var s5 := Next(s4, CallTool(i, r));
    SixSteps(sys, Deliver(d), ReadGate(i), MakeCall(i, now), Check(i, w), CallTool(i, r), MakeCall(i, later));
    FromTheClaim(s3, i, w, r);
    if Approvable(sys.store.proposal, w) {
      SettlementMeans(s5, i, later);
      NoNewDispatch(s5, i, later);
      ClaimedMatters(sys.store.proposal, s3.store.proposal, Next(s5, MakeCall(i, later)), i, r);
    } else {
      DenialMeans(s5, i, later);
      NoNewDispatch(s5, i, later);
    }
  }

  lemma NamesMatch(d: Delivery, t: Terms)
    requires Names(d, t) && Stripped(t.proposalId)
    ensures ProposalIdOf(d) == t.proposalId && PayloadMatches(d, t)
  {
    hide Strip, Stripped;
    StripFixed(t.proposalId);
  }

  lemma SixSteps(sys: Sys, a: Event, b: Event, c: Event, d: Event, e: Event, f: Event)
    ensures Run(sys, [a, b, c, d, e, f]) == Next(Next(Next(Next(Next(Next(sys, a), b), c), d), e), f)
  {
    hide Next;
    RunAppend(sys, [a, b, c], [d, e, f]);
    assert [a, b, c] + [d, e, f] == [a, b, c, d, e, f];
    ThreeSteps(sys, a, b, c);
    ThreeSteps(Run(sys, [a, b, c]), d, e, f);
  }

  lemma ThreeSteps(sys: Sys, a: Event, b: Event, c: Event)
    ensures Run(sys, [a, b, c]) == Next(Next(Next(sys, a), b), c)
  {
    hide Next;
    assert [a, b, c][1..] == [b, c] && [b, c][1..] == [c] && [c][1..] == [];
    assert Run(Next(Next(sys, a), b), [c]) == Next(Next(Next(sys, a), b), c);
  }

  /** Through the gate to the claim. */
  lemma ToTheClaim(sys: Sys, d: Delivery, now: int)
    requires Due(sys.store, d, now)
    ensures var i, p := |sys.invocations|, sys.store.proposal;
            var after := Next(Next(Next(sys, Deliver(d)), ReadGate(i)), MakeCall(i, now));
            && |after.invocations| == i + 1 && after.dispatches == sys.dispatches
            && after.store == sys.store.(proposal := p.(state := Executing, fencing := d.token))
            && after.invocations[i] == Invocation(d, Claimed(after.store.proposal))
            && OwnLiveClaim(after.store, d)
  {
    NamesMatch(d, sys.store.proposal.terms);
    hide Transact, PayloadMatches, ProposalIdOf, Strip, Lower, Gate, Names;
    var i := |sys.invocations|;
    GateMeans(d, sys.store.proposal);
    var gated := Next(Next(sys, Deliver(d)), ReadGate(i));
    assert gated.invocations[i] == Invocation(d, Gated);
    ClaimMeans(gated, i, now);
    NoNewDispatch(gated, i, now);
  }

  lemma NoNewDispatch(sys: Sys, i: nat, now: int)
    requires i < |sys.invocations|
    ensures var after := Next(sys, MakeCall(i, now));
            && after.dispatches == sys.dispatches && |after.invocations| == |sys.invocations|
            && after.invocations[i].delivery == sys.invocations[i].delivery
  {
    hide Transact, AfterCall, NextCall;
  }

  /** From the claim to the call of the tool, or to a denial. */
  lemma FromTheClaim(sys: Sys, i: nat, w: World, r: ToolResult)
    requires i < |sys.invocations| && sys.invocations[i].pc == Claimed(sys.store.proposal)
    ensures var after := Next(Next(sys, Check(i, w)), CallTool(i, r));
            && |after.invocations| == |sys.invocations| && after.store == sys.store
            && after.invocations[i].delivery == sys.invocations[i].delivery
            && (if Approvable(sys.store.proposal, w)
                then after.invocations[i].pc == Dispatched(r) && after.dispatches == sys.dispatches + [i]
                else after.invocations[i].pc.Denying? && after.dispatches == sys.dispatches)
  {
    hide Reauthorize, CallAsApproved;
    ReauthorizeIff(sys.store.proposal, w);
  }

  /** The claim changes neither terms nor arguments. */
  lemma ClaimedMatters(before: Proposal, claimed: Proposal, after: Sys, i: nat, r: ToolResult)
    requires i < |after.invocations| && claimed.terms == before.terms && claimed.arguments == before.arguments
    requires SettledAs(claimed, after.store.proposal, r, after.invocations[i].pc)
    ensures SettledAs(before, after.store.proposal, r, after.invocations[i].pc)
  {
    hide Strip, Lower;
  }
}
