/** `ApprovedActionExecutionService.execute` in its own form, over the review repository's rows, with any
    other deliveries and components interfering between its calls. */
module ActionService {
  import opened Prelude
  import opened Text
  import opened ActionLedger
  import opened Reauthorization
  import opened ActionExecution

  class ExecutionService {
    // the two durable rows
    var proposal: Proposal
    var job: Job
    // the other running deliveries and the tool's own history
    var invocations: seq<Invocation>
    var dispatches: seq<nat>
    var effects: nat
    var retries: nat

    function Value(): Sys
      reads this
    {
      Sys(Store(proposal, job), invocations, dispatches, effects, retries)
    }

    constructor (proposal: Proposal, job: Job)
      ensures Value() == Sys(Store(proposal, job), [], [], 0, 0)
    {
      this.proposal, this.job := proposal, job;
      invocations, dispatches, effects, retries := [], [], 0, 0;
    }

    // ---- the review repository ----

    method ExpireDueRows(now: int)
      modifies this`proposal, this`job
      ensures Store(proposal, job) == ExpireIfDue(old(Store(proposal, job)), now)
    {
      if proposal.expiresAt <= now && proposal.state == Pending {
        proposal := proposal.(state := Expired, arguments := None, reason := "approval_expired");
      } else if proposal.expiresAt <= now && proposal.state == Approved {
        proposal := proposal.(state := Expired, arguments := None, reason := "approval_expired");
        if job.status == Waiting || job.status == Retrying {
          job := job.(status := Cancelled, owner := "");
        }
      }
    }

    method BeginActionExecution(proposalId: string, jobId: string, worker: string, token: nat, now: int)
      returns (r: Result<Proposal, CallError>)
      modifies this`proposal, this`job
      ensures (Store(proposal, job), (match r case Ok(p) => Returned(p) case Err(e) => Raised(e)))
           == Transact(old(Store(proposal, job)), Begin(now, proposalId, jobId, worker, token))
    {
      ExpireDueRows(now);
      if proposal.terms.proposalId != proposalId { return Err(NotFound); }
      if proposal.state == Executed { return Ok(proposal); }
      if proposal.state == Expired { return Err(Refused("action_proposal_expired")); }
      if proposal.state != Approved { return Err(Refused("action_proposal_not_approved")); }
      if job.status != Running || job.owner != worker || job.fencing != token || proposal.jobId != jobId {
        return Err(Refused("action_execution_lease_mismatch"));
      }
      proposal := proposal.(state := Executing, fencing := token);
      return Ok(proposal);
    }

    method FinishActionExecution(proposalId: string, jobId: string, worker: string, token: nat,
                                 target: ProposalState, reason: string, receipt: Option<string>)
      returns (r: Result<Proposal, CallError>)
      modifies this`proposal, this`job
      ensures (Store(proposal, job), (match r case Ok(p) => Returned(p) case Err(e) => Raised(e)))
           == Transact(old(Store(proposal, job)), Finish(proposalId, jobId, worker, token, target, reason, receipt))
    {
      hide Truncate;
      if target != Executed && target != Denied && target != FailedTerminal {
        return Err(Refused("action_execution_outcome_invalid"));
      }
      if target == Executed && receipt == None { return Err(Refused("action_execution_receipt_required")); }
      if proposal.terms.proposalId != proposalId { return Err(NotFound); }
      if proposal.state == target {
        if proposal.receipt != receipt || proposal.reason != reason {
          return Err(Refused("action_execution_terminal_conflict"));
        }
        return Ok(proposal);
      }
      if proposal.state != Executing || proposal.jobId != jobId || proposal.fencing != token {
        return Err(Refused("action_execution_state_mismatch"));
      }
      if job.status != Running || job.owner != worker || job.fencing != token {
        return Err(Refused("action_execution_lease_mismatch"));
      }
      proposal := proposal.(state := target, arguments := None, receipt := receipt,
                            reason := Truncate(if reason == "" then "action_execution_terminal" else reason, 120));
      return Ok(proposal);
    }

    method RetryAfterNoEffect(proposalId: string, jobId: string, worker: string, token: nat)
      returns (r: Result<Proposal, CallError>)
      modifies this`proposal, this`job
      ensures (Store(proposal, job), (match r case Ok(p) => Returned(p) case Err(e) => Raised(e)))
           == Transact(old(Store(proposal, job)), RetryNoEffect(proposalId, jobId, worker, token))
    {
      if proposal.terms.proposalId == proposalId && proposal.state == Executing && proposal.jobId == jobId
         && proposal.fencing == token && job.status == Running && job.owner == worker && job.fencing == token
      {
        proposal := proposal.(state := Approved, fencing := 0);
        return Ok(proposal);
      }
      return Err(Refused("action_execution_recovery_mismatch"));
    }

    // ---- interference ----

    /** Any steps of other deliveries and components. */
    method Interfere(i: nat, events: seq<Event>)
      requires i < |invocations| && forall e :: e in events ==> SparesInvocation(e, i)
      modifies this
      ensures Value() == Run(old(Value()), events)
      ensures i < |invocations| && invocations[i] == old(invocations[i])
    {
      hide Next, SparesInvocation;
      for k := 0 to |events|
        invariant Value() == Run(old(Value()), events[..k])
        invariant i < |invocations| && invocations[i] == old(invocations[i])
      {
        ghost var before := Value();
        assert events[k] in events;
        OthersSpare(before, events[k], i);
        var after := Next(Value(), events[k]);
        proposal, job := after.store.proposal, after.store.job;
        invocations, dispatches, effects, retries := after.invocations, after.dispatches, after.effects, after.retries;
        assert events[..k + 1] == events[..k] + [events[k]];
        RunAppend(old(Value()), events[..k], [events[k]]);
        RunSingle(before, events[k]);
      }
      assert events[..|events|] == events;
    }

    /** Record where invocation `i` has got to. */
    method Reach(i: nat, pc: Pc)
      requires i < |invocations|
      modifies this`invocations
      ensures Value() == At(old(Value()), i, pc)
    {
      invocations := invocations[i := invocations[i].(pc := pc)];
    }

    // ---- execute ----

    /** One delivery from its arrival to its end. `quiet` are the stretches of interference before the
        read, the claim, the checks, the tool call and the settlement. No outcome: an exception left. */
    method Execute(d: Delivery, now: int, world: World, result: ToolResult, quiet: seq<seq<Event>>)
      returns (i: nat, outcome: Option<Outcome>, ghost end: Stage, ghost trace: seq<Event>)
      requires |quiet| == 5
      requires forall q, e :: q in quiet && e in q ==> SparesInvocation(e, |invocations|)
      modifies this
      ensures i == old(|invocations|) < |invocations|
      ensures trace == TraceOf(end, i, d, now, world, result, quiet)
      ensures Value() == Run(old(Value()), trace)
      ensures invocations[i].pc == (match outcome case Some(o) => Finished(o) case None => Escaped)
    {
      hide Next, Run, SparesInvocation, Gate, Reauthorize, At, NextCall;
      ghost var start := Value();
      i := |invocations|;
      assert forall k :: 0 <= k < 5 ==> quiet[k] in quiet;
      trace := [Deliver(d)];
      RunSingle(start, Deliver(d));
      Arrive(d);

      RunAppend(start, trace, quiet[0]);
      Interfere(i, quiet[0]);
      RunOneMore(start, trace + quiet[0], ReadGate(i));
      end, trace := StoppedAtGate, trace + quiet[0] + [ReadGate(i)];
      outcome := CheckGate(i, d);
      if outcome.Some? { return; }

      RunAppend(start, trace, quiet[1]);
      Interfere(i, quiet[1]);
      RunOneMore(start, trace + quiet[1], MakeCall(i, now));
      end, trace := ClaimRefused, trace + quiet[1] + [MakeCall(i, now)];
      var claimed := Claim(i, d, now);
      if claimed == None { return i, Some(OutDenied(CLAIM_DENIED)), end, trace; }

      ghost var rest: seq<Event>;
      outcome, end, rest := CheckAndSettle(i, d, claimed.value, now, world, result, quiet[2..]);
      RunAppend(start, trace, rest);
      trace := trace + rest;
    }

    /** From the claim on: check everything again, call the tool if it may be called, and settle. */
    method CheckAndSettle(i: nat, d: Delivery, claimed: Proposal, now: int, world: World, result: ToolResult,
                          quiet: seq<seq<Event>>)
      returns (outcome: Option<Outcome>, ghost end: Stage, ghost trace: seq<Event>)
      requires |quiet| == 3 && i < |invocations| && invocations[i] == Invocation(d, Claimed(claimed))
      requires forall q, e :: q in quiet && e in q ==> SparesInvocation(e, i)
      modifies this
      ensures end == CheckFailed || end == Settled
      ensures trace == AfterClaim(end, i, now, world, result, quiet) && Value() == Run(old(Value()), trace)
      ensures i < |invocations| && invocations[i].pc == (match outcome case Some(o) => Finished(o) case None => Escaped)
    {
      hide Next, Run, SparesInvocation, Gate, Reauthorize, At, NextCall;
      ghost var start := Value();
      assert forall k :: 0 <= k < 3 ==> quiet[k] in quiet;
      Interfere(i, quiet[0]);
      RunOneMore(start, quiet[0], Check(i, world));
      trace := quiet[0] + [Check(i, world)];
      var failure := Verify(i, claimed, world);

      RunAppend(start, trace, quiet[1]);
      Interfere(i, quiet[1]);
      end, trace := CheckFailed, trace + quiet[1];
      if failure.None? {
        RunOneMore(start, trace, CallTool(i, result));
        CallTheTool(i, result);
        RunAppend(start, trace + [CallTool(i, result)], quiet[2]);
        Interfere(i, quiet[2]);
        end, trace := Settled, trace + [CallTool(i, result)] + quiet[2];
      }
      RunOneMore(start, trace, MakeCall(i, now));
      trace := trace + [MakeCall(i, now)];
      if failure.None? { outcome := Settle(i, d, now); } else { outcome := SettleDenial(i, d, now); }
    }

    method Arrive(d: Delivery)
      modifies this`invocations
      ensures Value() == Next(old(Value()), Deliver(d))
      ensures invocations == old(invocations) + [Invocation(d, Fresh)]
    {
      invocations := invocations + [Invocation(d, Fresh)];
    }

    method Verify(i: nat, claimed: Proposal, world: World) returns (failure: Option<string>)
      requires i < |invocations| && invocations[i].pc == Claimed(claimed)
      modifies this`invocations
      ensures Value() == Next(old(Value()), Check(i, world))
      ensures |invocations| == old(|invocations|) && invocations[i].delivery == old(invocations[i].delivery)
      ensures invocations[i].pc ==
                (match failure case Some(reason) => Denying(reason) case None => Ready(claimed, world))
    {
      hide CallFailure;
      CheckShape(Value(), i, world);
      failure := Recheck(claimed, world);
      Reach(i, match failure case Some(reason) => Denying(reason) case None => Ready(claimed, world));
    }

    /** The checks between the claim and the dispatch, in the source's order. */
    method Recheck(p: Proposal, w: World) returns (failure: Option<string>)
      ensures failure == Reauthorize(p, w)
    {
      hide CallFailure;
      if p.arguments == None || !p.arguments.value.VDict? { return Some(ARGUMENTS_UNAVAILABLE); }
      if w.identity == None || !w.identity.value.active || w.identity.value.userId != p.terms.requesterId
         || w.identity.value.agentId != p.terms.agentId
      {
        return Some(IDENTITY_REVOKED);
      }
      if !w.canPrepare { return Some(EXECUTOR_UNAVAILABLE); }
      failure := FindCallFailure(p.terms, p.arguments.value, w);
      if failure == None && !w.canDispatch { failure := Some(EXECUTOR_UNAVAILABLE); }
    }

    method CallTheTool(i: nat, result: ToolResult)
      requires i < |invocations| && invocations[i].pc.Ready?
      modifies this
      ensures Value() == Next(old(Value()), CallTool(i, result))
      ensures |invocations| == old(|invocations|)
      ensures invocations[i] == old(invocations[i]).(pc := Dispatched(result))
    {
      CallToolShape(Value(), i, result);
      Reach(i, Dispatched(result));
      dispatches := dispatches + [i];
      effects := effects + (if result.effect then 1 else 0);
    }

    method CheckGate(i: nat, d: Delivery) returns (outcome: Option<Outcome>)
      requires i < |invocations| && invocations[i] == Invocation(d, Fresh)
      modifies this`invocations
      ensures Value() == Next(old(Value()), ReadGate(i))
      ensures |invocations| == old(|invocations|)
      ensures invocations[i] == Invocation(d, match outcome case Some(o) => Finished(o) case None => Gated)
    {
      hide Strip;
      ReadGateShape(Value(), i);
      if ProposalIdOf(d) != proposal.terms.proposalId || !PayloadMatches(d, proposal.terms) {
        outcome := Some(OutDenied(BINDING_MISMATCH));
      } else if proposal.state == Executed {
        outcome := Some(OutAlreadyExecuted(proposal.receipt));
      } else if proposal.state == Executing {
        outcome := Some(OutReconciliation);
      } else if proposal.state != Approved {
        outcome := Some(OutDenied("approval_state_" + StateName(proposal.state)));
      } else if Strip(d.jobId) == "" || Strip(d.worker) == "" || d.token < 1 {
        outcome := Some(OutDenied(LEASE_MISSING));
      } else {
        outcome := None;
      }
      Reach(i, match outcome case Some(o) => Finished(o) case None => Gated);
    }

    method Claim(i: nat, d: Delivery, now: int) returns (claimed: Option<Proposal>)
      requires i < |invocations| && invocations[i] == Invocation(d, Gated)
      modifies this
      ensures Value() == Next(old(Value()), MakeCall(i, now))
      ensures i < |invocations| && invocations[i].delivery == d
      ensures invocations[i].pc == (match claimed
                                    case Some(p) => Claimed(p)
                                    case None => Finished(OutDenied(CLAIM_DENIED)))
    {
      hide Transact, ProposalIdOf, Strip;
      MakeCallShape(Value(), i, now);
      var token := if d.token < 0 then 0 else d.token;
      var r := BeginActionExecution(ProposalIdOf(d), Strip(d.jobId), Strip(d.worker), token, now);
      match r {
        case Ok(p) =>
          claimed := Some(p);
          Reach(i, Claimed(p));
        case Err(_) =>
          claimed := None;
          Reach(i, Finished(OutDenied(CLAIM_DENIED)));
      }
    }

    /** The denial is written before the invocation ends. */
    method SettleDenial(i: nat, d: Delivery, now: int) returns (outcome: Option<Outcome>)
      requires i < |invocations| && invocations[i].delivery == d && invocations[i].pc.Denying?
      modifies this
      ensures Value() == Next(old(Value()), MakeCall(i, now))
      ensures i < |invocations|
      ensures invocations[i].pc == (match outcome case Some(o) => Finished(o) case None => Escaped)
    {
      hide Transact, ProposalIdOf, Strip, Lower, Truncate;
      MakeCallShape(Value(), i, now);
      var token := if d.token < 0 then 0 else d.token;
      var reason := invocations[i].pc.reason;
      var r := FinishActionExecution(ProposalIdOf(d), Strip(d.jobId), Strip(d.worker), token, Denied,
                                     Truncate(if reason == "" then EXECUTION_DENIED else reason, 120), None);
      outcome := if r.Ok? then Some(OutDenied(Truncate(reason, 120))) else None;
      Reach(i, match outcome case Some(o) => Finished(o) case None => Escaped);
    }

    /** What the tool reported decides how the claim is settled. */
    method Settle(i: nat, d: Delivery, now: int) returns (outcome: Option<Outcome>)
      requires i < |invocations| && invocations[i].delivery == d && invocations[i].pc.Dispatched?
      modifies this
      ensures Value() == Next(old(Value()), MakeCall(i, now))
      ensures i < |invocations|
      ensures invocations[i].pc == (match outcome case Some(o) => Finished(o) case None => Escaped)
    {
      hide Transact, ProposalIdOf, Strip, Lower, Refuses, DeclaresNoEffect, Succeeds;
      MakeCallShape(Value(), i, now);
      var id, jobId, worker := ProposalIdOf(d), Strip(d.jobId), Strip(d.worker);
      var token := if d.token < 0 then 0 else d.token;
      var result := invocations[i].pc.result;
      var r: Result<Proposal, CallError>;
      if result.Threw? {
        r := FinishActionExecution(id, jobId, worker, token, FailedTerminal, STATE_UNCERTAIN, None);
        outcome := Some(OutFailed(STATE_UNCERTAIN));
      } else if Refuses(result) {
        r := FinishActionExecution(id, jobId, worker, token, Denied, Truncate(DenialReason(result), 120), None);
        outcome := Some(OutDenied(Truncate(DenialReason(result), 120)));
      } else if DeclaresNoEffect(result) {
        r := RetryAfterNoEffect(id, jobId, worker, token);
        retries := retries + (if r.Ok? then 1 else 0);
        outcome := Some(OutRetryable);
      } else if !Succeeds(result) {
        r := FinishActionExecution(id, jobId, worker, token, FailedTerminal, RECEIPT_MISSING, None);
        outcome := Some(OutFailed(RECEIPT_MISSING));
      } else {
        r := FinishActionExecution(id, jobId, worker, token, Executed, COMMITTED, result.receipt);
        outcome := Some(OutExecuted(if r.Ok? then r.value.receipt else None));
      }
      if r.Err? { outcome := None; }
      Reach(i, match outcome case Some(o) => Finished(o) case None => Escaped);
    }
  }

  /** The event is not a step of invocation `i` and does not create it. */
  predicate SparesInvocation(e: Event, i: nat) {
    match e
    case Deliver(_) => true
    case Elsewhere(_) => true
    case ReadGate(k) => k != i
    case MakeCall(k, _) => k != i
    case Check(k, _) => k != i
    case CallTool(k, _) => k != i
  }

  /** Where a run of `execute` ends. */
  datatype Stage = StoppedAtGate | ClaimRefused | CheckFailed | Settled

  function GateTrace(i: nat, d: Delivery, quiet: seq<seq<Event>>): seq<Event>
    requires |quiet| == 5
  {
    [Deliver(d)] + quiet[0] + [ReadGate(i)]
  }

  function ClaimTrace(i: nat, d: Delivery, now: int, quiet: seq<seq<Event>>): seq<Event>
    requires |quiet| == 5
  {
    GateTrace(i, d, quiet) + quiet[1] + [MakeCall(i, now)]
  }

  function AfterClaim(end: Stage, i: nat, now: int, world: World, result: ToolResult,
      quiet: seq<seq<Event>>): seq<Event>
    requires |quiet| == 3
  {
    quiet[0] + [Check(i, world)] + quiet[1]
    + (if end.Settled? then [CallTool(i, result)] + quiet[2] else []) + [MakeCall(i, now)]
  }

  /** The worker's own steps, each once and in this order, with the others' stretches between them. */
  function TraceOf(end: Stage, i: nat, d: Delivery, now: int, world: World, result: ToolResult, quiet: seq<seq<Event>>)
    : seq<Event>
    requires |quiet| == 5
  {
    match end
    case StoppedAtGate => GateTrace(i, d, quiet)
    case ClaimRefused => ClaimTrace(i, d, now, quiet)
    case _ => ClaimTrace(i, d, now, quiet) + AfterClaim(end, i, now, world, result, quiet[2..])
  }

  lemma OthersSpare(sys: Sys, e: Event, i: nat)
    requires i < |sys.invocations| && SparesInvocation(e, i)
    ensures i < |Next(sys, e).invocations| && Next(sys, e).invocations[i] == sys.invocations[i]
  {
    hide Transact, NextCall, Gate, Authorize, AfterCall;
  }

  lemma RunSingle(sys: Sys, e: Event)
    ensures Run(sys, [e]) == Next(sys, e)
  {
    hide Next;
    assert [e][1..] == [];
  }

  lemma RunOneMore(sys: Sys, events: seq<Event>, e: Event)
    ensures Run(sys, events + [e]) == Next(Run(sys, events), e)
  {
    hide Next;
    RunAppend(sys, events, [e]);
    RunSingle(Run(sys, events), e);
  }

  /** So a worker's whole run keeps at-most-once, whatever interfered: its steps are steps of the system. */
  lemma ExecuteKeepsSafety(sys: Sys, end: Stage, i: nat, d: Delivery, now: int, world: World, result: ToolResult,
                           quiet: seq<seq<Event>>)
    requires |quiet| == 5 && SafetyInv(sys)
    requires Honest(CallTool(i, result)) && forall q, e :: q in quiet && e in q ==> Honest(e)
    ensures var after := Run(sys, TraceOf(end, i, d, now, world, result, quiet));
            SafetyInv(after) && |after.dispatches| <= 1 + after.retries && after.effects <= 1
  {
    hide Run, SafetyInv;
    var trace := TraceOf(end, i, d, now, world, result, quiet);
    assert forall k :: 0 <= k < 5 ==> quiet[k] in quiet;
    RunKeepsSafety(sys, trace);
    SafeCounts(Run(sys, trace));
  }

  lemma SafeCounts(sys: Sys)
    requires SafetyInv(sys)
    ensures |sys.dispatches| <= 1 + sys.retries && sys.effects <= 1
  {}

  lemma ReadGateShape(sys: Sys, i: nat)
    requires i < |sys.invocations| && sys.invocations[i].pc.Fresh?
    ensures Next(sys, ReadGate(i)) == At(sys, i, Gate(sys.invocations[i].delivery, sys.store.proposal))
  {}

  lemma CheckShape(sys: Sys, i: nat, world: World)
    requires i < |sys.invocations| && sys.invocations[i].pc.Claimed?
    ensures Next(sys, Check(i, world)) == At(sys, i, Authorize(sys.invocations[i].pc.proposal, world))
  {}

  lemma CallToolShape(sys: Sys, i: nat, result: ToolResult)
    requires i < |sys.invocations| && sys.invocations[i].pc.Ready?
    ensures Next(sys, CallTool(i, result)) ==
            At(sys, i, Dispatched(result)).(dispatches := sys.dispatches + [i],
                                            effects := sys.effects + (if result.effect then 1 else 0))
  {}
}
