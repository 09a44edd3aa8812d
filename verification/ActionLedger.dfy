/** One action proposal and the durable job that executes it: every repository call as one transaction. */
module ActionLedger {
  import opened Prelude
  import opened Values

  datatype ProposalState =
    | Pending | Approved | Executing | Executed | Rejected | Expired | Superseded | Canceled | Denied | FailedTerminal

  /** What was approved. These columns never change. */
  datatype Terms = Terms(
    proposalId: string, reviewId: string, operationId: string, authorization: string,
    batchManifest: Option<Value>, batchHash: Option<string>,
    transferManifest: Option<Value>, transferHash: Option<string>,
    argumentsHash: string, descriptorHash: string, resourceVersion: string,
    requesterId: string, agentId: string)

  datatype Proposal = Proposal(
    terms: Terms, state: ProposalState, jobId: string, fencing: nat, arguments: Option<Value>,
    receipt: Option<string>, reason: string, expiresAt: int)

  datatype JobStatus = Waiting | Running | Retrying | Completed | DeadLetter | Cancelled

  datatype Job = Job(status: JobStatus, owner: string, fencing: nat, attempts: nat, maxAttempts: nat)

  /** The job is the one the proposal names; no other job passes the checks below. */
  datatype Store = Store(proposal: Proposal, job: Job)

  datatype Call =
    | Decide(approve: bool, jobId: string)
    | ExpireDue(now: int)
    | CancelApproved(reason: string)
    | Begin(now: int, proposalId: string, jobId: string, worker: string, token: nat)
    | Finish(proposalId: string, jobId: string, worker: string, token: nat,
             target: ProposalState, reason: string, receipt: Option<string>)
    | RetryNoEffect(proposalId: string, jobId: string, worker: string, token: nat)
    | ClaimJob(worker: string)
    | LoseLease
    | CompleteJob(worker: string, token: nat)
    | RetryJob(worker: string, token: nat)
    | DeadLetterJob(worker: string, token: nat)

  datatype CallError = NotFound | Refused(code: string)

  datatype Reply = Returned(proposal: Proposal) | Raised(error: CallError) | Void

  /** Executed, denied, failed, expired, canceled, rejected: a proposal never leaves these. */
  predicate Closed(s: ProposalState) {
    !s.Pending? && !s.Approved? && !s.Executing?
  }

  predicate HoldsLease(job: Job, worker: string, token: nat) {
    job.status == Running && job.owner == worker && job.fencing == token
  }

  function Close(p: Proposal, state: ProposalState, reason: string, receipt: Option<string>): Proposal {
    p.(state := state, arguments := None, reason := reason, receipt := receipt)
  }

  function ReleaseWaiting(job: Job): Job {
    if job.status == Waiting || job.status == Retrying then job.(status := Cancelled, owner := "") else job
  }

  function ExpireIfDue(s: Store, now: int): Store {
    if s.proposal.expiresAt > now then s
    else if s.proposal.state == Pending then s.(proposal := Close(s.proposal, Expired, "approval_expired",
        s.proposal.receipt))
    else if s.proposal.state == Approved then
      Store(Close(s.proposal, Expired, "approval_expired", s.proposal.receipt), ReleaseWaiting(s.job))
    else s
  }

  function BeginExecution(s0: Store, c: Call): (Store, Reply)
    requires c.Begin?
  {
    var s := ExpireIfDue(s0, c.now);
    var p := s.proposal;
    if p.terms.proposalId != c.proposalId then (s, Raised(NotFound))
    else if p.state == Executed then (s, Returned(p))
    else if p.state == Expired then (s, Raised(Refused("action_proposal_expired")))
    else if p.state != Approved then (s, Raised(Refused("action_proposal_not_approved")))
    else if p.jobId != c.jobId || !HoldsLease(s.job, c.worker, c.token)
    then (s, Raised(Refused("action_execution_lease_mismatch")))
    else
      var p' := p.(state := Executing, fencing := c.token);
      (s.(proposal := p'), Returned(p'))
  }

  function Truncate(s: string, n: nat): string { if |s| <= n then s else s[..n] }

  function FinishExecution(s: Store, c: Call): (Store, Reply)
    requires c.Finish?
  {
    var p := s.proposal;
    if c.target != Executed && c.target != Denied && c.target != FailedTerminal
    then (s, Raised(Refused("action_execution_outcome_invalid")))
    else if c.target == Executed && c.receipt == None then (s, Raised(Refused("action_execution_receipt_required")))
    else if p.terms.proposalId != c.proposalId then (s, Raised(NotFound))
    else if p.state == c.target then
      if p.receipt != c.receipt || p.reason != c.reason
      then (s, Raised(Refused("action_execution_terminal_conflict"))) else (s, Returned(p))
    else if p.state != Executing || p.jobId != c.jobId || p.fencing != c.token
    then (s, Raised(Refused("action_execution_state_mismatch")))
    else if !HoldsLease(s.job, c.worker, c.token) then (s, Raised(Refused("action_execution_lease_mismatch")))
    else
      var p' := Close(p, c.target, Truncate(if c.reason == "" then "action_execution_terminal" else c.reason, 120),
          c.receipt);
      (s.(proposal := p'), Returned(p'))
  }

  function RetryExecution(s: Store, c: Call): (Store, Reply)
    requires c.RetryNoEffect?
  {
    var p := s.proposal;
    if p.terms.proposalId == c.proposalId && p.state == Executing && p.jobId == c.jobId && p.fencing == c.token
       && HoldsLease(s.job, c.worker, c.token)
    then
      var p' := p.(state := Approved, fencing := 0);
      (s.(proposal := p'), Returned(p'))
    else (s, Raised(Refused("action_execution_recovery_mismatch")))
  }

  function JobCall(job: Job, c: Call): Job {
    match c
    case ClaimJob(worker) =>
      if (job.status == Waiting || job.status == Retrying) && job.attempts < job.maxAttempts
      then Job(Running, worker, job.fencing + 1, job.attempts + 1, job.maxAttempts) else job
    case LoseLease =>
      if job.status == Running
      then job.(status := if job.attempts >= job.maxAttempts then DeadLetter else Retrying, owner := "") else job
    case CompleteJob(w, t) => if HoldsLease(job, w, t) then job.(status := Completed, owner := "") else job
    case RetryJob(w, t) =>
      if job.owner == w && job.fencing == t
      then job.(status := if job.attempts >= job.maxAttempts then DeadLetter else Retrying, owner := "") else job
    case DeadLetterJob(w, t) => if HoldsLease(job, w, t) then job.(status := DeadLetter, owner := "") else job
    case _ => job
  }

  /** One transaction. */
  function Transact(s: Store, c: Call): (Store, Reply) {
    match c
    case Decide(approve, jobId) =>
      if s.proposal.state != Pending then (s, Raised(Refused("action_proposal_not_pending")))
      else if approve then
        (Store(s.proposal.(state := Approved, jobId := jobId), Job(Waiting, "", 0, 0, 3)), Void)
      else (s.(proposal := Close(s.proposal, Rejected, "human_rejected", s.proposal.receipt)), Void)
    case ExpireDue(now) => (ExpireIfDue(s, now), Void)
    case CancelApproved(reason) =>
      if s.proposal.state == Approved &&
         (s.job.status == Waiting || s.job.status == Retrying || s.job.status == Cancelled)
      then
        (Store(Close(s.proposal, Canceled, Truncate(if reason == "" then "operator_canceled" else reason, 120),
            s.proposal.receipt),
               ReleaseWaiting(s.job)), Void)
      else (s, Raised(Refused("action_proposal_not_cancelable")))
    case Begin(_, _, _, _, _) => BeginExecution(s, c)
    case Finish(_, _, _, _, _, _, _) => FinishExecution(s, c)
    case RetryNoEffect(_, _, _, _) => RetryExecution(s, c)
    case _ => (s.(job := JobCall(s.job, c)), Void)
  }

  /** What every transaction keeps of the proposal row. */
  ghost predicate RowInv(s: Store) {
    && (Closed(s.proposal.state) ==> s.proposal.arguments == None)
    && (s.proposal.state == Executed ==> s.proposal.receipt.Some?)
  }

  lemma TransactKeepsRow(s: Store, c: Call)
    requires RowInv(s)
    ensures RowInv(Transact(s, c).0)
    ensures Transact(s, c).0.proposal.terms == s.proposal.terms
    ensures Closed(s.proposal.state) ==> Transact(s, c).0.proposal == s.proposal
  {}

  /** The only way into Executing is a claim from Approved; the only ways out are its own settlements. */
  lemma ExecutingGate(s: Store, c: Call)
    ensures var after := Transact(s, c).0.proposal;
            && (s.proposal.state != Executing && after.state == Executing ==>
                  c.Begin? && s.proposal.state == Approved && Transact(s, c).1 == Returned(after)
                  && HoldsLease(Transact(s, c).0.job, c.worker, c.token))
            && (s.proposal.state == Executing && after.state != Executing ==>
                  (c.Finish? || c.RetryNoEffect?) && c.token == s.proposal.fencing
                      && Transact(s, c).1 == Returned(after))
  {}

  /** A job's token counts its claims, which are at most as many as it may have. */
  predicate JobInv(job: Job) { job.fencing == job.attempts <= job.maxAttempts }

  lemma TransactKeepsJob(s: Store, c: Call)
    requires JobInv(s.job)
    ensures JobInv(Transact(s, c).0.job)
    ensures c.ClaimJob? && Transact(s, c).0.job != s.job ==>
              HoldsLease(Transact(s, c).0.job, c.worker, s.job.fencing + 1)
    ensures HoldsLease(Transact(s, c).0.job, s.job.owner, s.job.fencing) ==>
              HoldsLease(s.job, s.job.owner, s.job.fencing)
  {
    hide BeginExecution, FinishExecution, RetryExecution, Close;
    if c.Begin? || c.Finish? || c.RetryNoEffect? { CallsSpareJob(s, c); }
  }

  lemma CallsSpareJob(s: Store, c: Call)
    requires c.Begin? || c.Finish? || c.RetryNoEffect?
    ensures var job := Transact(s, c).0.job; job == s.job || job == s.job.(status := Cancelled, owner := "")
  {
    hide Close, Truncate;
  }

  /** A row past its expiry is closed by the next call that looks, unless it is being executed; its job is withdrawn
      if it waits. Any other row and job stay as they are. */
  lemma ExpiryMeans(s: Store, now: int)
    ensures var t := Transact(s, ExpireDue(now)).0;
            if s.proposal.expiresAt <= now && (s.proposal.state == Pending || s.proposal.state == Approved)
            then && t.proposal.state == Expired && t.proposal.arguments == None
                && t.proposal.receipt == s.proposal.receipt
                 && (s.proposal.state == Approved && (s.job.status == Waiting || s.job.status == Retrying) ==>
                       t.job.status == Cancelled)
                 && (s.proposal.state == Pending || s.job.status == Running || Ended(s.job) ==> t.job == s.job)
            else t == s
  {}

  predicate Ended(job: Job) { job.status == Completed || job.status == DeadLetter || job.status == Cancelled }

  /** A settlement sent again changes nothing, and is answered as before exactly if its reason was stored unchanged. */
  lemma SettledTwice(s: Store, c: Call)
    requires c.Finish? && s.proposal.state == Executing && Transact(s, c).1.Returned?
    ensures var t := Transact(s, c).0;
            && Transact(t, c).0 == t && t.proposal.state == c.target
            && (Transact(t, c).1 == Transact(s, c).1 <==> c.reason != "" && |c.reason| <= 120)
            && (Transact(t, c).1 != Transact(s, c).1 ==> Transact(t, c).1.Raised?)
  {}
}
