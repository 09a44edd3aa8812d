/** The approved-action worker as small steps, so that any number of invocations, redeliveries and
    crashes can interleave over one proposal. An invocation that crashes simply takes no further step. */
module ActionExecution {
  import opened Prelude
  import opened Text
  import opened Values
  import opened ActionLedger
  import opened JsonPointer
  import opened Reauthorization

  // ---- reason codes ----

  const BINDING_MISMATCH := "approval_execution_binding_mismatch"
  const LEASE_MISSING := "approval_execution_lease_missing"
  const CLAIM_DENIED := "approval_execution_claim_denied"
  const EXECUTION_DENIED := "approval_execution_denied"
  const STATE_UNCERTAIN := "approval_dispatch_state_uncertain"
  const DISPATCH_DENIED := "approval_dispatch_denied"
  const RECEIPT_MISSING := "approval_dispatch_receipt_missing"
  const COMMITTED := "approval_execution_committed"

  // ---- one invocation of execute() ----

  /** A claimed job as `execute` receives it; the payload is a mapping from names to strings or nulls. */
  datatype Delivery = Delivery(payload: Option<map<string, Option<string>>>, jobId: string, worker: string, token: int)

  /** What the tool reported. `effect` is whether it really changed anything, which the code cannot see. */
  datatype ToolResult =
    | Threw(effect: bool)
    | Reported(status: string, committedFlag: bool, receipt: Option<string>, denialReason: string, effect: bool)

  datatype Outcome =
    | OutDenied(reason: string)
    | OutAlreadyExecuted(receipt: Option<string>)
    | OutReconciliation
    | OutFailed(reason: string)
    | OutRetryable
    | OutExecuted(receipt: Option<string>)

  datatype Pc =
    | Fresh
    | Gated
    | Claimed(proposal: Proposal)
    | Denying(reason: string)
    | Ready(proposal: Proposal, world: World)
    | Dispatched(result: ToolResult)
    | Finished(outcome: Outcome)
    | Escaped // an exception left execute()

  datatype Invocation = Invocation(delivery: Delivery, pc: Pc)

  const PAYLOAD_KEYS := {"proposal_id", "review_id", "operation_id", "authorization_binding",
                         "batch_manifest_hash", "transfer_binding_hash"}

  /** `str(payload.get(k) or "")`. */
  function TextAt(m: map<string, Option<string>>, k: string): string {
    if k in m && m[k].Some? then m[k].value else ""
  }

  predicate PayloadMatches(d: Delivery, t: Terms) {
    && d.payload.Some?
    && var m := d.payload.value;
       && m.Keys == PAYLOAD_KEYS
       && TextAt(m, "proposal_id") == t.proposalId
       && TextAt(m, "review_id") == t.reviewId
       && TextAt(m, "operation_id") == t.operationId
       && TextAt(m, "authorization_binding") == t.authorization
       && m["batch_manifest_hash"] == t.batchHash
       && m["transfer_binding_hash"] == t.transferHash
  }

  function ProposalIdOf(d: Delivery): string {
    if d.payload.Some? then Strip(TextAt(d.payload.value, "proposal_id")) else ""
  }

  function StateName(s: ProposalState): string {
    match s
    case Pending => "pending"
    case Approved => "approved"
    case Executing => "executing"
    case Executed => "executed"
    case Rejected => "rejected"
    case Expired => "expired"
    case Superseded => "superseded"
    case Canceled => "canceled"
    case Denied => "denied"
    case FailedTerminal => "failed_terminal"
  }

  /** Everything before the claim: binding, state gate, lease fields. */
  function Gate(d: Delivery, p: Proposal): Pc {
    if ProposalIdOf(d) != p.terms.proposalId || !PayloadMatches(d, p.terms)
    then Finished(OutDenied(BINDING_MISMATCH))
    else if p.state == Executed then Finished(OutAlreadyExecuted(p.receipt))
    else if p.state == Executing then Finished(OutReconciliation)
    else if p.state != Approved then Finished(OutDenied("approval_state_" + StateName(p.state)))
    else if Strip(d.jobId) == "" || Strip(d.worker) == "" || d.token < 1
    then Finished(OutDenied(LEASE_MISSING))
    else Gated
  }

  function BeginCall(d: Delivery, now: int): Call {
    Begin(now, ProposalIdOf(d), Strip(d.jobId), Strip(d.worker), if d.token < 0 then 0 else d.token)
  }

  function FinishCall(d: Delivery, target: ProposalState, reason: string, receipt: Option<string>): Call {
    Finish(ProposalIdOf(d), Strip(d.jobId), Strip(d.worker), if d.token < 0 then 0 else d.token,
           target, reason, receipt)
  }

  function DenyCall(d: Delivery, reason: string): Call {
    FinishCall(d, Denied, Truncate(if reason == "" then EXECUTION_DENIED else reason, 120), None)
  }

  function Folded(status: string): string { Lower(Strip(status)) }

  /** A tool that declares a retryable error without a committed effect. */
  predicate DeclaresNoEffect(r: ToolResult) {
    r.Reported? && Folded(r.status) == "retryable_error" && !r.committedFlag
  }

  predicate Refuses(r: ToolResult) {
    r.Reported? && (Folded(r.status) == "policy_denied" || Folded(r.status) == "denied")
  }

  predicate Succeeds(r: ToolResult) {
    r.Reported? && (Folded(r.status) == "ok" || Folded(r.status) == "queued") && r.receipt.Some?
  }

  function DenialReason(r: ToolResult): string
    requires r.Reported?
  {
    if r.denialReason == "" then DISPATCH_DENIED else r.denialReason
  }

  /** The transaction that settles a dispatch. */
  function SettleCall(d: Delivery, r: ToolResult): Call {
    if r.Threw? then FinishCall(d, FailedTerminal, STATE_UNCERTAIN, None)
    else if Refuses(r) then DenyCall(d, DenialReason(r))
    else if DeclaresNoEffect(r)
    then RetryNoEffect(ProposalIdOf(d), Strip(d.jobId), Strip(d.worker), if d.token < 0 then 0 else d.token)
    else if Succeeds(r) then FinishCall(d, Executed, COMMITTED, r.receipt)
    else FinishCall(d, FailedTerminal, RECEIPT_MISSING, None)
  }

  function SettledOutcome(r: ToolResult, stored: Proposal): Outcome {
    if r.Threw? then OutFailed(STATE_UNCERTAIN)
    else if Refuses(r) then OutDenied(Truncate(DenialReason(r), 120))
    else if DeclaresNoEffect(r) then OutRetryable
    else if Succeeds(r) then OutExecuted(stored.receipt)
    else OutFailed(RECEIPT_MISSING)
  }

  /** Where a repository call's reply takes the invocation. */
  function AfterCall(pc: Pc, reply: Reply): Pc {
    match pc
    case Gated =>
      if reply.Returned? then Claimed(reply.proposal) else Finished(OutDenied(CLAIM_DENIED))
    case Denying(reason) =>
      if reply.Returned? then Finished(OutDenied(Truncate(reason, 120))) else Escaped
    case Dispatched(r) =>
      if reply.Returned? then Finished(SettledOutcome(r, reply.proposal)) else Escaped
    case _ => pc
  }

  /** The repository call an invocation makes next, if its next step is one. */
  function NextCall(inv: Invocation, now: int): Option<Call> {
    match inv.pc
    case Gated => Some(BeginCall(inv.delivery, now))
    case Denying(reason) => Some(DenyCall(inv.delivery, reason))
    case Dispatched(r) => Some(SettleCall(inv.delivery, r))
    case _ => None
  }

  /** The checks between the claim and the dispatch touch nothing shared. */
  function Authorize(p: Proposal, world: World): Pc {
    match Reauthorize(p, world)
    case Some(reason) => Denying(reason)
    case None => Ready(p, world)
  }

  // ---- the whole system ----

  /** `dispatches` lists the invocations that called the tool; `effects` and `retries` count. */
  datatype Sys = Sys(store: Store, invocations: seq<Invocation>, dispatches: seq<nat>, effects: nat, retries: nat)

  datatype Event =
    | Deliver(delivery: Delivery)
    | ReadGate(i: nat)
    | MakeCall(i: nat, now: int)
    | Check(i: nat, world: World)
    | CallTool(i: nat, result: ToolResult)
    | Elsewhere(call: Call)

  /** Calls that other components make. */
  predicate Foreign(c: Call) {
    !c.Begin? && !c.Finish? && !c.RetryNoEffect?
  }

  function At(sys: Sys, i: nat, pc: Pc): Sys
    requires i < |sys.invocations|
  {
    sys.(invocations := sys.invocations[i := sys.invocations[i].(pc := pc)])
  }

  /** One step; an event that does not apply changes nothing. */
  function Next(sys: Sys, e: Event): Sys {
    match e
    case Deliver(d) => sys.(invocations := sys.invocations + [Invocation(d, Fresh)])
    case Elsewhere(c) => if Foreign(c) then sys.(store := Transact(sys.store, c).0) else sys
    case ReadGate(i) =>
      if i < |sys.invocations| && sys.invocations[i].pc.Fresh?
      then At(sys, i, Gate(sys.invocations[i].delivery, sys.store.proposal)) else sys
    case Check(i, world) =>
      if i < |sys.invocations| && sys.invocations[i].pc.Claimed?
      then At(sys, i, Authorize(sys.invocations[i].pc.proposal, world)) else sys
    case CallTool(i, result) =>
      if i < |sys.invocations| && sys.invocations[i].pc.Ready?
      then At(sys, i, Dispatched(result)).(dispatches := sys.dispatches + [i],
                                          effects := sys.effects + (if result.effect then 1 else 0))
      else sys
    case MakeCall(i, now) =>
      if i >= |sys.invocations| then sys
      else
        match NextCall(sys.invocations[i], now)
        case None => sys
        case Some(c) =>
          var (store, reply) := Transact(sys.store, c);
          var sys' := At(sys, i, AfterCall(sys.invocations[i].pc, reply));
          sys'.(store := store, retries := sys.retries + (if c.RetryNoEffect? && reply.Returned? then 1 else 0))
  }

  function Run(sys: Sys, events: seq<Event>): Sys
    decreases |events|
  {
    if events == [] then sys else Run(Next(sys, events[0]), events[1..])
  }

  lemma {:induction false} RunAppend(sys: Sys, a: seq<Event>, b: seq<Event>)
    ensures Run(sys, a + b) == Run(Run(sys, a), b)
    decreases |a|
  {
    hide Next;
    if a == [] {
      assert a + b == b;
    } else {
      assert (a + b)[1..] == a[1..] + b;
      RunAppend(Next(sys, a[0]), a[1..], b);
    }
  }

  // ---- at-most-once ----

  /** A tool that says "no effect" has had none. */
  predicate Honest(e: Event) {
    e.CallTool? && DeclaresNoEffect(e.result) ==> !e.result.effect
  }

  /** The invocation holds the claim: it moved the proposal to Executing and has not settled. */
  predicate Holds(pc: Pc) {
    || (pc.Claimed? && pc.proposal.state != Executed)
    || pc.Ready? || pc.Dispatched?
  }

  /** A pending denial holds it too, unless the row was already executed when it claimed. */
  predicate Active(sys: Sys, pc: Pc) {
    Holds(pc) || (pc.Denying? && sys.store.proposal.state == Executing)
  }

  /** A claim answered with an already executed row; it can only be denied. */
  predicate Hollow(pc: Pc) {
    pc.Claimed? && pc.proposal.state == Executed
  }

  ghost predicate SafetyInv(sys: Sys) {
    && RowInv(sys.store)
    && (forall i :: 0 <= i < |sys.invocations| ==> PcInv(sys, sys.invocations[i].pc))
    && (forall i, j :: 0 <= i < j < |sys.invocations| ==>
          !(Active(sys, sys.invocations[i].pc) && Active(sys, sys.invocations[j].pc)))
    && CountInv(sys)
  }

  ghost predicate PcInv(sys: Sys, pc: Pc) {
    && (Holds(pc) ==> sys.store.proposal.state == Executing)
    && (Hollow(pc) ==> pc.proposal.arguments == None && sys.store.proposal.state == Executed)
    && (pc.Denying? ==> sys.store.proposal.state == Executing || sys.store.proposal.state == Executed)
    && (pc.Claimed? || pc.Ready? ==> (Holds(pc) ==> |sys.dispatches| <= sys.retries && sys.effects == 0))
    && (pc.Dispatched? && DeclaresNoEffect(pc.result) ==> sys.effects == 0)
    && (pc.Finished? && pc.outcome.OutExecuted? ==>
          sys.store.proposal.state == Executed && sys.store.proposal.receipt == pc.outcome.receipt)
  }

  ghost predicate CountInv(sys: Sys) {
    && |sys.dispatches| <= 1 + sys.retries
    && sys.effects <= 1
    && (sys.store.proposal.state == Approved || sys.store.proposal.state == Pending ==>
          |sys.dispatches| <= sys.retries && sys.effects == 0)
  }

  /** Hollow claims are denied: their arguments are gone. */
  lemma HollowIsDenied(p: Proposal, world: World)
    requires p.arguments == None
    ensures Authorize(p, world).Denying?
  {}

  lemma LocalStepKeepsSafety(sys: Sys, e: Event)
    requires SafetyInv(sys) && Honest(e) && !e.MakeCall? && !e.Elsewhere?
    ensures SafetyInv(Next(sys, e))
  {
    hide SafetyInv;
    match e {
      case Deliver(_) => DeliverKeepsSafety(sys, e);
      case ReadGate(_) => GateKeepsSafety(sys, e);
      case Check(_, _) => CheckKeepsSafety(sys, e);
      case CallTool(_, _) => ToolKeepsSafety(sys, e);
    }
  }

  lemma DeliverKeepsSafety(sys: Sys, e: Event)
    requires SafetyInv(sys) && e.Deliver?
    ensures SafetyInv(Next(sys, e))
  {
    hide RowInv;
  }

  lemma GateKeepsSafety(sys: Sys, e: Event)
    requires SafetyInv(sys) && e.ReadGate?
    ensures SafetyInv(Next(sys, e))
  {
    hide RowInv, Gate;
    if e.i < |sys.invocations| { GateStages(sys.invocations[e.i].delivery, sys.store.proposal); }
  }

  /** The gate ends the delivery or lets it on to the claim; it reports no execution of its own. */
  lemma GateStages(d: Delivery, p: Proposal)
    ensures var pc := Gate(d, p); pc.Gated? || pc.Escaped? || (pc.Finished? && !pc.outcome.OutExecuted?)
  {
    hide PayloadMatches;
  }

  lemma CheckKeepsSafety(sys: Sys, e: Event)
    requires SafetyInv(sys) && e.Check?
    ensures SafetyInv(Next(sys, e))
  {
    hide RowInv, Reauthorize;
    if e.i < |sys.invocations| && Hollow(sys.invocations[e.i].pc) {
      HollowIsDenied(sys.invocations[e.i].pc.proposal, e.world);
    }
  }

  lemma ToolKeepsSafety(sys: Sys, e: Event)
    requires SafetyInv(sys) && Honest(e) && e.CallTool?
    ensures SafetyInv(Next(sys, e))
  {
    hide RowInv, Strip, Lower;
  }

  lemma ForeignCallKeepsSafety(sys: Sys, c: Call)
    requires SafetyInv(sys) && Foreign(c)
    ensures SafetyInv(sys.(store := Transact(sys.store, c).0))
  {
    TransactKeepsRow(sys.store, c);
    ExecutingGate(sys.store, c);
    OpensOnlyBy(sys.store, c);
    hide Transact;
  }

  /** Nothing returns to Pending, and only a decision or a settled retry reaches Approved. */
  lemma OpensOnlyBy(s: Store, c: Call)
    ensures var after := Transact(s, c).0.proposal.state;
            && (after == Pending ==> s.proposal.state == Pending)
            && (after == Approved && s.proposal.state != Approved && s.proposal.state != Pending ==> c.RetryNoEffect?)
  {}

  /** What the three worker calls do, by the row they find. */
  lemma WorkerCall(s: Store, c: Call)
    requires RowInv(s) && !Foreign(c)
    ensures var (after, reply) := Transact(s, c);
            && (c.Begin? && reply.Returned? ==>
                  || (after.proposal == reply.proposal && reply.proposal.state == Executing
                      && s.proposal.state == Approved)
                  || (after == s && reply.proposal == s.proposal && s.proposal.state == Executed))
            && (c.Begin? && !reply.Returned? ==>
                  after.proposal.state == s.proposal.state
                  || (s.proposal.state == Approved && after.proposal.state == Expired)
                  || (s.proposal.state == Pending && after.proposal.state == Expired))
            && (c.Finish? && reply.Returned? ==>
                  after.proposal == reply.proposal && after.proposal.state == c.target && Closed(c.target)
                  && after.proposal.receipt == c.receipt)
            && (c.RetryNoEffect? && reply.Returned? ==>
                s.proposal.state == Executing && after.proposal.state == Approved)
            && (!c.Begin? && !reply.Returned? ==> after == s)
  {}

  /** Whoever makes a call, the other invocations keep their invariant if the row allows it. */
  lemma OthersKeep(sys: Sys, next: Sys, i: nat)
    requires SafetyInv(sys) && i < |sys.invocations| == |next.invocations|
    requires forall j :: 0 <= j < |sys.invocations| && j != i ==> next.invocations[j] == sys.invocations[j]
    requires next.dispatches == sys.dispatches && next.effects == sys.effects && next.retries >= sys.retries
    requires RowInv(next.store) && CountInv(next) && PcInv(next, next.invocations[i].pc)
    requires sys.store.proposal.state == Executed ==> next.store.proposal == sys.store.proposal
    requires || next.store.proposal.state == sys.store.proposal.state
             || (sys.store.proposal.state == Approved && next.store.proposal.state == Executing)
             || (sys.store.proposal.state == Approved && next.store.proposal.state == Expired)
             || (sys.store.proposal.state == Pending && next.store.proposal.state == Expired)
             || Active(sys, sys.invocations[i].pc)
    requires Active(next, next.invocations[i].pc) ==>
               Active(sys, sys.invocations[i].pc) || sys.store.proposal.state == Approved
    ensures SafetyInv(next)
  {
    hide RowInv;
    forall j | 0 <= j < |next.invocations| ensures PcInv(next, next.invocations[j].pc) {
      if j != i { assert PcInv(sys, sys.invocations[j].pc); }
    }
    forall j, k | 0 <= j < k < |next.invocations|
      ensures !(Active(next, next.invocations[j].pc) && Active(next, next.invocations[k].pc))
    {
      assert PcInv(sys, sys.invocations[j].pc) && PcInv(sys, sys.invocations[k].pc);
    }
  }

  lemma MakeCallShape(sys: Sys, i: nat, now: int)
    requires i < |sys.invocations| && NextCall(sys.invocations[i], now).Some?
    ensures var inv := sys.invocations[i];
            var c := NextCall(inv, now).value;
            var (store, reply) := Transact(sys.store, c);
            Next(sys, MakeCall(i, now)) ==
            Sys(store, sys.invocations[i := inv.(pc := AfterCall(inv.pc, reply))], sys.dispatches, sys.effects,
                sys.retries + (if c.RetryNoEffect? && reply.Returned? then 1 else 0))
  {
    hide Transact, NextCall, AfterCall;
  }

  /** A claim, a denial or a settlement, accepted or refused. */
  lemma {:induction false} StageKeepsSafety(sys: Sys, i: nat, now: int)
    requires SafetyInv(sys) && i < |sys.invocations| && NextCall(sys.invocations[i], now).Some?
    ensures SafetyInv(Next(sys, MakeCall(i, now)))
  {
    hide Next, Transact, RowInv, NextCall, DeclaresNoEffect, Refuses, Succeeds;
    var inv := sys.invocations[i];
    var c := NextCall(inv, now).value;
    StagesOfCalls(inv, now);
    CallShape(inv, now);
    TransactKeepsRow(sys.store, c);
    ExecutingGate(sys.store, c);
    WorkerCall(sys.store, c);
    MakeCallShape(sys, i, now);
    assert PcInv(sys, inv.pc);
    OthersKeep(sys, Next(sys, MakeCall(i, now)), i);
  }

  lemma {:induction false} CallKeepsSafety(sys: Sys, i: nat, now: int)
    requires SafetyInv(sys)
    ensures SafetyInv(Next(sys, MakeCall(i, now)))
  {
    hide SafetyInv, Transact, NextCall;
    if i < |sys.invocations| && NextCall(sys.invocations[i], now).Some? { StageKeepsSafety(sys, i, now); }
  }

  lemma CallShape(inv: Invocation, now: int)
    requires NextCall(inv, now).Some?
    ensures var c := NextCall(inv, now).value;
            && !Foreign(c)
            && (inv.pc.Gated? ==> c.Begin?)
            && (inv.pc.Denying? ==> c.Finish? && c.target == Denied)
            && (inv.pc.Dispatched? ==>
                  (DeclaresNoEffect(inv.pc.result) <==> c.RetryNoEffect?) && (c.RetryNoEffect? || c.Finish?)
                  && (Succeeds(inv.pc.result) && !Refuses(inv.pc.result) && !DeclaresNoEffect(inv.pc.result) ==>
                        c.Finish? && c.target == Executed))
  {
    hide Strip, Lower, ProposalIdOf;
  }

  ghost predicate Initial(sys: Sys) {
    && RowInv(sys.store) && sys.invocations == [] && sys.dispatches == [] && sys.effects == 0 && sys.retries == 0
  }

  lemma {:induction false} StepKeepsSafety(sys: Sys, e: Event)
    requires SafetyInv(sys) && Honest(e)
    ensures SafetyInv(Next(sys, e))
  {
    if e.MakeCall? {
      hide SafetyInv;
      CallKeepsSafety(sys, e.i, e.now);
    } else if e.Elsewhere? {
      hide SafetyInv;
      if Foreign(e.call) { ForeignCallKeepsSafety(sys, e.call); }
    } else {
      hide SafetyInv;
      LocalStepKeepsSafety(sys, e);
    }
  }

  lemma {:induction false} RunKeepsSafety(sys: Sys, events: seq<Event>)
    requires SafetyInv(sys) && forall e :: e in events ==> Honest(e)
    ensures SafetyInv(Run(sys, events))
    decreases |events|
  {
    hide Next, SafetyInv, Honest;
    if events != [] {
      assert events[0] in events;
      StepKeepsSafety(sys, events[0]);
      RunKeepsSafety(Next(sys, events[0]), events[1..]);
    }
  }

  /** At-most-once: however deliveries, crashes and other components interleave, the tool is called at
      most once more than it declared "no effect", and at most one call has had an effect. */
  lemma AtMostOnce(sys: Sys, events: seq<Event>)
    requires Initial(sys) && forall e :: e in events ==> Honest(e)
    ensures |Run(sys, events).dispatches| <= 1 + Run(sys, events).retries
    ensures Run(sys, events).effects <= 1
  {
    hide Next;
    RunKeepsSafety(sys, events);
  }

  lemma InitialIsSafe(sys: Sys)
    requires Initial(sys)
    ensures SafetyInv(sys)
  {}

  lemma EffectIsFinal(sys: Sys, e: Event)
    requires SafetyInv(sys) && Honest(e) && sys.effects == 1
    ensures Next(sys, e).effects == 1 && Next(sys, e).dispatches == sys.dispatches
  {
    hide Transact, Reauthorize, RowInv, NextCall, PayloadMatches, Strip, Lower, DeclaresNoEffect;
    if e.CallTool? && e.i < |sys.invocations| { assert PcInv(sys, sys.invocations[e.i].pc); }
  }

  lemma {:induction false} SettledStays(sys: Sys, events: seq<Event>)
    requires SafetyInv(sys) && sys.effects == 1 && forall e :: e in events ==> Honest(e)
    ensures Run(sys, events).dispatches == sys.dispatches
    decreases |events|
  {
    hide Next, SafetyInv, Honest;
    if events != [] {
      assert events[0] in events;
      EffectIsFinal(sys, events[0]);
      StepKeepsSafety(sys, events[0]);
      SettledStays(Next(sys, events[0]), events[1..]);
    }
  }

  /** An effect is final: once there has been one the proposal is never approved again, so no invocation,
      old or new, calls the tool from then on. */
  lemma NoDispatchAfterEffect(sys: Sys, events: seq<Event>, more: seq<Event>)
    requires Initial(sys) && forall e :: e in events + more ==> Honest(e)
    requires Run(sys, events).effects == 1
    ensures Run(sys, events + more).dispatches == Run(sys, events).dispatches
  {
    hide Next, SafetyInv, Honest, Initial;
    forall e | e in events ensures Honest(e) { assert e in events + more; }
    forall e | e in more ensures Honest(e) { assert e in events + more; }
    InitialIsSafe(sys);
    RunKeepsSafety(sys, events);
    RunAppend(sys, events, more);
    SettledStays(Run(sys, events), more);
  }

  // ---- what is dispatched ----

  /** From the gate on the delivery names the proposal's own terms, and what is ready was authorized. */
  ghost predicate BindingInv(sys: Sys) {
    forall i :: 0 <= i < |sys.invocations| ==> Bound(sys.invocations[i], sys.store.proposal.terms)
  }

  ghost predicate Bound(inv: Invocation, t: Terms) {
    && (!inv.pc.Fresh? && !inv.pc.Finished? && !inv.pc.Escaped? ==> PayloadMatches(inv.delivery, t))
    && (inv.pc.Claimed? || inv.pc.Ready? ==> inv.pc.proposal.terms == t)
    && (inv.pc.Ready? ==> Reauthorize(inv.pc.proposal, inv.pc.world) == None)
  }

  lemma {:induction false} StepKeepsBinding(sys: Sys, e: Event)
    requires RowInv(sys.store) && BindingInv(sys)
    ensures RowInv(Next(sys, e).store) && BindingInv(Next(sys, e))
    ensures Next(sys, e).store.proposal.terms == sys.store.proposal.terms
  {
    hide Transact, Reauthorize, RowInv, PayloadMatches, Strip, Lower, NextCall;
    if e.Elsewhere? { TransactKeepsRow(sys.store, e.call); }
    if e.MakeCall? && e.i < |sys.invocations| && NextCall(sys.invocations[e.i], e.now).Some? {
      var c := NextCall(sys.invocations[e.i], e.now).value;
      TransactKeepsRow(sys.store, c);
      ReplyKeepsTerms(sys.store, c);
      StagesOfCalls(sys.invocations[e.i], e.now);
    }
  }

  lemma StagesOfCalls(inv: Invocation, now: int)
    requires NextCall(inv, now).Some?
    ensures inv.pc.Gated? || inv.pc.Denying? || inv.pc.Dispatched?
  {}

  lemma ReplyKeepsTerms(s: Store, c: Call)
    ensures Transact(s, c).1.Returned? ==> Transact(s, c).1.proposal.terms == s.proposal.terms
  {}

  lemma {:induction false} RunKeepsBinding(sys: Sys, events: seq<Event>)
    requires RowInv(sys.store) && BindingInv(sys)
    ensures BindingInv(Run(sys, events)) && Run(sys, events).store.proposal.terms == sys.store.proposal.terms
    decreases |events|
  {
    hide Next, BindingInv, RowInv;
    if events != [] {
      StepKeepsBinding(sys, events[0]);
      RunKeepsBinding(Next(sys, events[0]), events[1..]);
    }
  }

  /** Whenever the tool is called, in any run, the caller's delivery names this proposal's terms and the
      prepared call passed every check against them. */
  lemma EveryDispatchAuthorized(sys: Sys, events: seq<Event>, call: Event)
    requires Initial(sys) && call.CallTool?
    requires Next(Run(sys, events), call).dispatches != Run(sys, events).dispatches
    ensures var at := Run(sys, events);
            && call.i < |at.invocations| && at.invocations[call.i].pc.Ready?
            && var inv := at.invocations[call.i];
               && PayloadMatches(inv.delivery, sys.store.proposal.terms)
               && inv.pc.proposal.terms == sys.store.proposal.terms
               && Reauthorize(inv.pc.proposal, inv.pc.world) == None
  {
    hide RowInv, Reauthorize, PayloadMatches;
    RunKeepsBinding(sys, events);
  }

  // ---- the arguments ----

  /** Wherever arguments are still kept, in the row or by an invocation, they are the ones approved. */
  ghost predicate ArgumentsInv(sys: Sys, approved: Option<Value>) {
    && ArgumentsKept(sys.store.proposal, approved)
    && forall i :: 0 <= i < |sys.invocations| ==> StageKeepsArguments(sys.invocations[i].pc, approved)
  }

  predicate ArgumentsKept(p: Proposal, approved: Option<Value>) { p.arguments == None || p.arguments == approved }

  predicate StageKeepsArguments(pc: Pc, approved: Option<Value>) {
    pc.Claimed? || pc.Ready? ==> ArgumentsKept(pc.proposal, approved)
  }

  lemma TransactKeepsArguments(s: Store, c: Call)
    ensures ArgumentsKept(Transact(s, c).0.proposal, s.proposal.arguments)
    ensures Transact(s, c).1.Returned? ==> ArgumentsKept(Transact(s, c).1.proposal, s.proposal.arguments)
  {}

  lemma {:induction false} StepKeepsArguments(sys: Sys, e: Event, approved: Option<Value>)
    requires ArgumentsInv(sys, approved)
    ensures ArgumentsInv(Next(sys, e), approved)
  {
    hide Transact, Reauthorize, PayloadMatches, Strip, Lower, NextCall;
    if e.Elsewhere? { TransactKeepsArguments(sys.store, e.call); }
    if e.MakeCall? && e.i < |sys.invocations| && NextCall(sys.invocations[e.i], e.now).Some? {
      TransactKeepsArguments(sys.store, NextCall(sys.invocations[e.i], e.now).value);
      StagesOfCalls(sys.invocations[e.i], e.now);
    }
  }

  lemma {:induction false} RunKeepsArguments(sys: Sys, events: seq<Event>, approved: Option<Value>)
    requires ArgumentsInv(sys, approved)
    ensures ArgumentsInv(Run(sys, events), approved)
    decreases |events|
  {
    hide Next, ArgumentsInv;
    if events != [] {
      StepKeepsArguments(sys, events[0], approved);
      RunKeepsArguments(Next(sys, events[0]), events[1..], approved);
    }
  }

  /** The event calls the tool. */
  predicate Dispatches(sys: Sys, e: Event) { e.CallTool? && Next(sys, e).dispatches != sys.dispatches }

  /** Every call of the tool, in every run, is the one that was approved: its operation, arguments hash,
      authorization, descriptor and resource version, its user and agent, its batch, and every value and
      source transferred, against the terms and the arguments the proposal had at the start. */
  lemma {:induction false} EveryDispatchAsApproved(sys: Sys, events: seq<Event>, call: Event)
    requires Initial(sys) && Dispatches(Run(sys, events), call)
    ensures var at := Run(sys, events);
            && call.i < |at.invocations| && at.invocations[call.i].pc.Ready?
            && PayloadMatches(at.invocations[call.i].delivery, sys.store.proposal.terms)
            && sys.store.proposal.arguments.Some?
            && CallAsApproved(sys.store.proposal.terms, sys.store.proposal.arguments.value,
                at.invocations[call.i].pc.world)
  {
    EveryDispatchAuthorized(sys, events, call);
    InitialKeepsArguments(sys);
    hide Run, Next, Initial, PayloadMatches, Reauthorize, CallAsApproved;
    RunKeepsArguments(sys, events, sys.store.proposal.arguments);
    var pc := Run(sys, events).invocations[call.i].pc;
    ReauthorizeIff(pc.proposal, pc.world);
    assert StageKeepsArguments(pc, sys.store.proposal.arguments);
  }

  lemma InitialKeepsArguments(sys: Sys)
    requires Initial(sys)
    ensures ArgumentsInv(sys, sys.store.proposal.arguments)
  {}

  /** And wherever the approval recorded the hash of a value for a destination, the arguments dispatched hold
      that value there, up to key order. */
  lemma {:induction false} EveryTransferAsApproved(sys: Sys, events: seq<Event>, call: Event, entry: Value,
      approved: Value)
    requires Initial(sys) && Dispatches(Run(sys, events), call)
    requires var at := Run(sys, events);
             call.i < |at.invocations| && at.invocations[call.i].pc.Ready? ==>
               Injective(at.invocations[call.i].pc.world.sha) && entry.VDict?
               && Get(entry.d, "value_hash") == VStr(at.invocations[call.i].pc.world.sha(approved))
    requires var manifest := sys.store.proposal.terms.transferManifest;
             manifest.Some? && manifest.value.VDict? && Get(manifest.value.d, "destination_values").VList?
             && entry in Get(manifest.value.d, "destination_values").items
    ensures sys.store.proposal.arguments.Some? && entry.VDict?
    ensures var found := Evaluate(sys.store.proposal.arguments.value, TextOf(Get(entry.d, "destination_pointer")));
            found.Some? && Content(found.value) == Content(approved)
  {
    EveryDispatchAsApproved(sys, events, call);
    hide Run, Next, Initial, PayloadMatches, Evaluate, SourceAsApproved, GoesTo, FromRequest;
    assert ValueAsApproved(entry, sys.store.proposal.arguments.value, Run(sys, events).invocations[call.i].pc.world);
  }
}
