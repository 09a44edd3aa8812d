/** The bounded plan, execute, evaluate loop. */
module AgentLoop {
  import opened Prelude
  import opened Text
  import opened AgentEvaluator

  /** Everything around one run: the planner's decision at each step, the content gate if there is one,
      the backend, and the plan's number of commands if it lists any. */
  datatype World = World(
    planner: int -> Decision, gate: Option<Decision -> bool>, backend: Decision -> Reply, commands: Option<nat>,
        limits: Limits)

  // ---- one step ----

  /** One iteration: what was decided, whether the gate stopped it, what came of it, and the failures in a row since. */
  datatype Step = Step(number: int, decision: Decision, blocked: bool, outcome: Outcome, failures: nat,
      evaluation: Evaluation)

  /** The gate only sees commands whose text is not blank. */
  predicate Gated(w: World, d: Decision) { w.gate.Some? && d.action.ExecuteCommand? && Strip(d.commandText) != "" }

  predicate StoppedByGate(w: World, d: Decision) { Gated(w, d) && !w.gate.value(d) }

  function OutcomeOf(w: World, d: Decision): Outcome {
    if StoppedByGate(w, d) then BlockedOutcome else Executed(d, w.backend)
  }

  function FailuresAfter(before: nat, d: Decision, o: Outcome): nat {
    if o.success then 0 else if d.action.ExecuteCommand? then before + 1 else before
  }

  predicate MoreCommands(w: World, number: int) { w.commands.Some? && number < w.commands.value }

  function StepOf(w: World, number: int, before: nat): Step {
    var d := w.planner(number);
    var o := OutcomeOf(w, d);
    var failures := FailuresAfter(before, d, o);
    Step(number, d, StoppedByGate(w, d), o, failures, Evaluate(d, o, MoreCommands(w, number), failures, w.limits))
  }

  // ---- a whole run ----

  function FailuresAt(steps: seq<Step>, k: nat): nat
    requires k <= |steps|
  {
    if k == 0 then 0 else steps[k - 1].failures
  }

  predicate StepAt(w: World, steps: seq<Step>, k: nat)
    requires k < |steps|
  {
    steps[k] == StepOf(w, k + 1, FailuresAt(steps, k))
  }

  /** Each step follows from the one before, and every one but perhaps the last went on. */
  predicate Follows(w: World, steps: seq<Step>) {
    && (forall k :: 0 <= k < |steps| ==> StepAt(w, steps, k))
    && (forall k :: 0 <= k < |steps| - 1 ==> steps[k].evaluation.Continues())
  }

  predicate Stopped(steps: seq<Step>) { steps != [] && !steps[|steps| - 1].evaluation.Continues() }

  /** The steps of a run: it ends where a step does not go on, or at the step limit. */
  predicate IsRun(w: World, steps: seq<Step>) {
    && Follows(w, steps) && |steps| <= MaxInt(0, w.limits.maxSteps)
    && (Stopped(steps) || |steps| == MaxInt(0, w.limits.maxSteps))
  }

  function Successes(steps: seq<Step>): nat {
    if steps == [] then 0 else Successes(steps[..|steps| - 1]) + if steps[|steps| - 1].outcome.success then 1 else 0
  }

  /** Steps whose decision carries a command text: those that leave a result. */
  function Attempts(steps: seq<Step>): nat {
    if steps == [] then 0
    else Attempts(steps[..|steps| - 1]) + if steps[|steps| - 1].decision.commandText != "" then 1 else 0
  }

  datatype Overall = OverallOk | OverallPartial | OverallNeedsInput | OverallError

  /** `_overall_status`. */
  function OverallStatus(state: LoopState, terminal: Terminal, requested: nat, success: nat, attempted: nat): Overall {
    if state == Completed then
      if requested > 0 && success == requested then OverallOk else if success > 0 then OverallPartial else OverallError
    else if state == WaitingForApproval || state == WaitingForUser then OverallNeedsInput
    else if terminal == TerminalOk then OverallOk
    else if terminal == Blocked then OverallNeedsInput
    else if success > 0 && attempted > success then OverallPartial
    else OverallError
  }

  function FinalState(steps: seq<Step>): LoopState {
    if Stopped(steps) then steps[|steps| - 1].evaluation.next else Failed
  }

  function FinalTerminal(steps: seq<Step>): Terminal {
    if Stopped(steps) then steps[|steps| - 1].evaluation.terminal.value else TerminalError
  }

  function Requested(w: World): nat { match w.commands case Some(n) => n case None => 0 }

  function StatusOf(w: World, steps: seq<Step>): Overall {
    OverallStatus(FinalState(steps), FinalTerminal(steps), Requested(w), Successes(steps), Attempts(steps))
  }

  /** The entries of the trace: one a step, and a guard entry when the step limit ended the run. */
  datatype Entry = StepEntry(step: Step) | GuardEntry

  datatype RunResult = RunResult(
    status: Overall, requested: nat, attempted: nat, success: nat, failed: nat, state: LoopState, terminal: Terminal,
    trace: seq<Entry>, policyDecisions: nat)

  function StepEntries(steps: seq<Step>): (es: seq<Entry>)
    ensures |es| == |steps| && forall k :: 0 <= k < |steps| ==> es[k] == StepEntry(steps[k])
  {
    seq(|steps|, k requires 0 <= k < |steps| => StepEntry(steps[k]))
  }

  function GatedCount(w: World, steps: seq<Step>): nat {
    if steps == [] then 0
    else GatedCount(w, steps[..|steps| - 1]) + if Gated(w, steps[|steps| - 1].decision) then 1 else 0
  }

  /** The body of the loop: gate, execute, count, evaluate. */
  method TakeStep(w: World, number: int, before: nat) returns (step: Step, gated: bool)
    ensures step == StepOf(w, number, before) && gated == Gated(w, step.decision)
  {
    hide Evaluate, Executed, Strip, BlockedOutcome;
    var decision := w.planner(number);
    var outcome: Outcome;
    var blocked, failures := false, before;
    gated := w.gate.Some? && decision.action.ExecuteCommand? && Strip(decision.commandText) != "";
    if gated {
      var allowed := w.gate.value(decision);
      if !allowed {
        blocked := true;
        outcome := BlockedOutcome;
      } else {
        outcome := Executed(decision, w.backend);
      }
    } else {
      outcome := Executed(decision, w.backend);
    }
    if outcome.success {
      failures := 0;
    } else if decision.action.ExecuteCommand? {
      failures := failures + 1;
    }
    var more := w.commands.Some? && number < w.commands.value;
    step := Step(number, decision, blocked, outcome, failures, Evaluate(decision, outcome, more, failures, w.limits));
  }

  /** `MainAgentLoop.run`. */
  method Run(w: World) returns (r: RunResult, steps: seq<Step>)
    ensures IsRun(w, steps)
    ensures r.status == StatusOf(w, steps) && r.state == FinalState(steps) && r.terminal == FinalTerminal(steps)
    ensures r.requested == Requested(w) && r.attempted == Attempts(steps) && r.success == Successes(steps)
    ensures r.failed == MaxInt(0, Requested(w) - Successes(steps))
    ensures r.trace == StepEntries(steps) + if Stopped(steps) then [] else [GuardEntry]
    ensures |r.trace| <= MaxInt(0, w.limits.maxSteps) + 1
    ensures r.policyDecisions == GatedCount(w, steps)
  {
    hide StepOf, Gated, OverallStatus, Follows;
    var success: nat, attempted: nat, failures: nat, decisions: nat := 0, 0, 0, 0;
    var state, terminal := Ready, TerminalError;
    steps := [];
    NothingFollows(w);
    var number, stopped := 1, false;
    while number < w.limits.maxSteps + 1 && !stopped
      invariant |steps| == number - 1 <= MaxInt(0, w.limits.maxSteps) && Follows(w, steps)
      invariant failures == FailuresAt(steps, |steps|)
      invariant success == Successes(steps) && attempted == Attempts(steps) && decisions == GatedCount(w, steps)
      invariant stopped == Stopped(steps)
      invariant stopped ==> state == FinalState(steps) && terminal == FinalTerminal(steps)
      decreases w.limits.maxSteps + 1 - number
    {
      var step, gated := TakeStep(w, number, failures);
      FollowsOn(w, steps, step);
      assert (steps + [step])[..|steps|] == steps;
      steps := steps + [step];
      failures := step.failures;
      if gated { decisions := decisions + 1; }
      if step.decision.commandText != "" { attempted := attempted + 1; }
      if step.outcome.success { success := success + 1; }
      state := step.evaluation.next;
      if !step.evaluation.Continues() {
        terminal := step.evaluation.terminal.value;
        stopped := true;
      }
      number := number + 1;
    }
    var trace := StepEntries(steps);
    if !stopped {
      state, terminal := Failed, TerminalError;
      trace := trace + [GuardEntry];
    }
    var requested: nat := if w.commands.Some? then w.commands.value else 0;
    r := RunResult(OverallStatus(state, terminal, requested, success, attempted), requested, attempted, success,
                   MaxInt(0, requested - success), state, terminal, trace, decisions);
  }

  lemma NothingFollows(w: World)
    ensures Follows(w, [])
  {}

  lemma FollowsOn(w: World, steps: seq<Step>, step: Step)
    requires Follows(w, steps) && !Stopped(steps) && step == StepOf(w, |steps| + 1, FailuresAt(steps, |steps|))
    ensures Follows(w, steps + [step])
  {
    hide StepOf;
    var all := steps + [step];
    forall k: nat | k < |all| ensures StepAt(w, all, k) {
      if k < |steps| { assert StepAt(w, steps, k); }
    }
  }

  // ---- what holds for every planner, gate and backend ----

  /** The failure budget: a step after which the loop goes on executed a command, with fewer failures in a
      row than the limit; a limit below 1 counts as 1. */
  lemma FailureBudget(w: World, steps: seq<Step>, k: nat)
    requires IsRun(w, steps) && k < |steps| && steps[k].evaluation.Continues()
    ensures steps[k].decision.action.ExecuteCommand? && steps[k].failures < MaxInt(1, w.limits.maxFailures)
    ensures MoreCommands(w, k + 1)
  {
    hide Evaluate, Executed, Strip, BlockedOutcome;
    var s := steps[k];
    assert StepAt(w, steps, k);
    ContinuesIff(s.decision, s.outcome, MoreCommands(w, k + 1), s.failures, w.limits);
  }

  /** A command the gate refuses is not executed, ends the run, and asks the user. */
  lemma {:induction false} RefusedIsLast(w: World, steps: seq<Step>, k: nat)
    requires IsRun(w, steps) && k < |steps| && StoppedByGate(w, steps[k].decision)
    ensures k == |steps| - 1 && steps[k].blocked && steps[k].outcome == BlockedOutcome
    ensures FinalState(steps) == WaitingForUser && FinalTerminal(steps) == Blocked
              && StatusOf(w, steps) == OverallNeedsInput
  {
    hide Classify, Executed, Strip, BlockedOutcome, FailureMessage, Gated;
    var s := steps[k];
    assert StepAt(w, steps, k);
    BlockedIsPolicyBlock();
    BlockedFails();
    assert s.evaluation == JudgeFailure(s.outcome, MoreCommands(w, k + 1), s.failures, w.limits) by {
      RefusedExecutes(w, s.decision);
    }
    assert !s.evaluation.Continues();
  }

  lemma BlockedFails()
    ensures !BlockedOutcome.success
  {}

  lemma RefusedExecutes(w: World, d: Decision)
    requires StoppedByGate(w, d)
    ensures d.action.ExecuteCommand?
  {
    hide Strip;
  }

  /** The failures counted at a step are the steps in a row, up to it, that did not succeed; before them a step
      succeeded or the run began. */
  lemma {:induction false} FailuresInARow(w: World, steps: seq<Step>, k: nat)
    requires IsRun(w, steps) && k < |steps| && steps[k].decision.action.ExecuteCommand?
    ensures var m := steps[k].failures;
            && m <= k + 1 && (m <= k ==> steps[k - m].outcome.success)
            && forall j :: k - m < j <= k ==> !steps[j].outcome.success
  {
    hide Evaluate, OutcomeOf, Follows;
    FailuresStep(w, steps, k);
    if k > 0 {
      EarlierExecutes(w, steps, k - 1);
      FailuresInARow(w, steps, k - 1);
    }
  }

  lemma FailuresStep(w: World, steps: seq<Step>, k: nat)
    requires IsRun(w, steps) && k < |steps| && steps[k].decision.action.ExecuteCommand?
    ensures steps[k].failures == if steps[k].outcome.success then 0 else FailuresAt(steps, k) + 1
  {
    hide Evaluate, OutcomeOf;
    assert StepAt(w, steps, k);
  }

  lemma EarlierExecutes(w: World, steps: seq<Step>, k: nat)
    requires IsRun(w, steps) && k < |steps| - 1
    ensures steps[k].decision.action.ExecuteCommand?
  {
    hide StepOf;
    FailureBudget(w, steps, k);
  }

  /** So a run that goes on has had a success among its latest `maxFailures` steps, or is not that long. */
  lemma SuccessWithinBudget(w: World, steps: seq<Step>, k: nat)
    requires IsRun(w, steps) && k < |steps| && steps[k].evaluation.Continues()
    requires k + 1 >= MaxInt(1, w.limits.maxFailures)
    ensures exists j :: k - MaxInt(1, w.limits.maxFailures) < j <= k && steps[j].outcome.success
  {
    hide IsRun;
    FailureBudget(w, steps, k);
    FailuresInARow(w, steps, k);
    assert steps[k - steps[k].failures].outcome.success;
  }

  /** The backend is asked exactly for what `CallsBackend` says: otherwise its answer makes no difference. */
  lemma BackendAskedIff(d: Decision)
    ensures CallsBackend(d) <==> exists a: Decision -> Reply, b: Decision -> Reply :: Executed(d, a) != Executed(d, b)
  {
    hide Classified, Strip;
    if CallsBackend(d) {
      var yes, no := (x: Decision) => Reply("ok", ""), (x: Decision) => Reply("error", "");
      ErrorIsNotOk();
      assert Executed(d, yes).success && !Executed(d, no).success;
    }
  }

  /** The policy decisions counted are the steps that were put to the gate. */
  lemma {:induction false} GatedCountIs(w: World, steps: seq<Step>)
    ensures GatedCount(w, steps) == |set k | 0 <= k < |steps| && Gated(w, steps[k].decision)|
  {
    hide Gated;
    var all := set k | 0 <= k < |steps| && Gated(w, steps[k].decision);
    if steps != [] {
      var n := |steps| - 1;
      var front := steps[..n];
      GatedCountIs(w, front);
      var before := set k | 0 <= k < |front| && Gated(w, front[k].decision);
      assert all == if Gated(w, steps[n].decision) then before + {n} else before;
    } else {
      assert all == {};
    }
  }

  /** The run is bounded: at most one step a command when there are any, and one entry more in the trace than steps. */
  lemma {:induction false} RunIsBounded(w: World, steps: seq<Step>)
    requires IsRun(w, steps)
    ensures |steps| <= MaxInt(1, Requested(w)) && |steps| <= MaxInt(0, w.limits.maxSteps)
  {
    hide StepOf;
    if |steps| > 1 { FailureBudget(w, steps, |steps| - 2); }
  }

  // ---- the verdict ----

  /** The planner answers each of the plan's commands with a command to execute, or with a stop that is not
      "complete". */
  predicate Covers(w: World) {
    forall number :: 1 <= number <= Requested(w) ==>
      var d := w.planner(number);
      !d.action.Complete? && (d.action.ExecuteCommand? ==> d.commandText != "")
  }

  predicate AllSucceeded(steps: seq<Step>) {
    forall k :: 0 <= k < |steps| ==> steps[k].decision.action.ExecuteCommand? && steps[k].outcome.success
  }

  lemma {:induction false} Counts(steps: seq<Step>)
    requires forall k :: 0 <= k < |steps| && steps[k].outcome.success ==>
               steps[k].decision.action.ExecuteCommand? && steps[k].decision.commandText != ""
    ensures Successes(steps) <= Attempts(steps) <= |steps|
    ensures Successes(steps) == |steps| <==> AllSucceeded(steps)
  {
    if steps != [] { Counts(steps[..|steps| - 1]); }
  }

  /** Only "complete" and executed commands succeed. */
  lemma SuccessMeans(w: World, d: Decision)
    ensures OutcomeOf(w, d).success ==> d.action.ExecuteCommand? || d.action.Complete?
    ensures OutcomeOf(w, d).success && d.action.ExecuteCommand? ==>
              CallsBackend(d) && w.backend(d).status == "ok" && !StoppedByGate(w, d)
  {
    hide Classified, Strip;
  }

  /** The verdict for a plan of n >= 1 commands: at most min(n, limit) steps, no more successes than attempts
      and no more attempts than commands, and "ok" exactly when all n commands were executed and succeeded. */
  lemma {:induction false} Verdict(w: World, steps: seq<Step>)
    requires IsRun(w, steps) && Requested(w) >= 1 && Covers(w)
    ensures |steps| <= MinInt(Requested(w), MaxInt(0, w.limits.maxSteps))
    ensures Successes(steps) <= Attempts(steps) <= Requested(w)
    ensures StatusOf(w, steps) == OverallOk <==> |steps| == Requested(w) && AllSucceeded(steps)
    ensures StatusOf(w, steps) == OverallPartial ==> 0 < Successes(steps) < Requested(w)
    ensures StatusOf(w, steps) == OverallNeedsInput <==> FinalState(steps) in {WaitingForUser, WaitingForApproval}
    ensures StatusOf(w, steps) == OverallError ==> FinalState(steps) == Failed
  {
    hide IsRun, Covers, AllSucceeded, Successes, Attempts, FinalState, FinalTerminal;
    RunIsBounded(w, steps);
    CoveredCounts(w, steps);
    if steps != [] { LastStep(w, steps); } else { NoSteps(); }
  }

  lemma {:induction false} CoveredCounts(w: World, steps: seq<Step>)
    requires IsRun(w, steps) && Requested(w) >= 1 && Covers(w)
    ensures Successes(steps) <= Attempts(steps) <= |steps|
    ensures Successes(steps) == |steps| <==> AllSucceeded(steps)
  {
    hide IsRun, OutcomeOf, Successes, Attempts, AllSucceeded;
    RunIsBounded(w, steps);
    forall k: nat | k < |steps| && steps[k].outcome.success
      ensures steps[k].decision.action.ExecuteCommand? && steps[k].decision.commandText != ""
    {
      StepIs(w, steps, k);
      SuccessMeans(w, steps[k].decision);
    }
    Counts(steps);
  }

  lemma NoSteps()
    ensures FinalState([]) == Failed && FinalTerminal([]) == TerminalError && Successes([]) == 0
  {}

  /** A run that has taken every step there is ends completed exactly when its last command succeeded. */
  lemma {:induction false} LastStep(w: World, steps: seq<Step>)
    requires IsRun(w, steps) && steps != []
    ensures FinalTerminal(steps) == TerminalOk ==> FinalState(steps) == Completed
    ensures FinalTerminal(steps) == Blocked ==> FinalState(steps) == WaitingForUser
    ensures FinalState(steps) in {Completed, Failed, WaitingForUser, WaitingForApproval}
    ensures FinalState(steps) == Completed && Covers(w) && Requested(w) >= 1 ==> Successes(steps) > 0
    ensures AllSucceeded(steps) && |steps| >= Requested(w) ==> FinalState(steps) == Completed
  {
    hide IsRun, OutcomeOf, Evaluate;
    RunIsBounded(w, steps);
    var n := |steps|;
    var s := steps[n - 1];
    StepIs(w, steps, n - 1);
    assert s.decision == w.planner(n);
    ContinuesIff(s.decision, s.outcome, MoreCommands(w, n), s.failures, w.limits);
  }

  lemma StepIs(w: World, steps: seq<Step>, k: nat)
    requires IsRun(w, steps) && k < |steps|
    ensures var s := steps[k];
            && s.decision == w.planner(k + 1) && s.outcome == OutcomeOf(w, s.decision)
            && s.evaluation == Evaluate(s.decision, s.outcome, MoreCommands(w, k + 1), s.failures, w.limits)
  {
    hide Evaluate, OutcomeOf;
    assert StepAt(w, steps, k);
  }

  predicate EverySuccess(steps: seq<Step>) { forall k :: 0 <= k < |steps| ==> steps[k].outcome.success }

  lemma {:induction false} SuccessCount(steps: seq<Step>)
    ensures Successes(steps) <= |steps|
    ensures Successes(steps) == |steps| <==> EverySuccess(steps)
  {
    if steps != [] { SuccessCount(steps[..|steps| - 1]); }
  }

  /** What "ok" means for any planner: as many steps as commands, each a success. They are executed commands
      exactly when the planner does not answer the last command with "complete", which counts as a success. */
  lemma {:induction false} OkIff(w: World, steps: seq<Step>)
    requires IsRun(w, steps) && Requested(w) >= 1
    ensures StatusOf(w, steps) == OverallOk <==> |steps| == Requested(w) && EverySuccess(steps)
    ensures StatusOf(w, steps) == OverallOk ==> (AllSucceeded(steps) <==> !w.planner(Requested(w)).action.Complete?)
  {
    hide IsRun, Successes, FinalState, FinalTerminal, OutcomeOf;
    RunIsBounded(w, steps);
    SuccessCount(steps);
    if steps == [] {
      NoSteps();
    } else {
      LastStep(w, steps);
      LastAnswer(w, steps);
      forall k: nat | k < |steps| - 1 ensures steps[k].decision.action.ExecuteCommand? { GoesOn(w, steps, k); }
    }
  }

  lemma GoesOn(w: World, steps: seq<Step>, k: nat)
    requires IsRun(w, steps) && k < |steps| - 1
    ensures steps[k].decision.action.ExecuteCommand?
  {
    hide StepOf;
    FailureBudget(w, steps, k);
  }

  /** The last step answers the last command when there are as many steps as commands. */
  lemma LastAnswer(w: World, steps: seq<Step>)
    requires IsRun(w, steps) && steps != []
    ensures var last := steps[|steps| - 1];
            && last.decision == w.planner(|steps|)
            && (last.outcome.success ==> last.decision.action.ExecuteCommand? || last.decision.action.Complete?)
            && (last.outcome.success && |steps| >= Requested(w) ==> FinalState(steps) == Completed)
  {
    hide IsRun, OutcomeOf, Evaluate;
    var n := |steps|;
    var s := steps[n - 1];
    StepIs(w, steps, n - 1);
    SuccessMeans(w, s.decision);
    ContinuesIff(s.decision, s.outcome, MoreCommands(w, n), s.failures, w.limits);
  }

  /** So the verdict "ok exactly when all commands were executed and succeeded" is right for a run of n commands
      if and only if the run did not reach its last command with all earlier ones done and a planner that
      answers it with "complete". */
  lemma {:induction false} VerdictRightIff(w: World, steps: seq<Step>)
    requires IsRun(w, steps) && Requested(w) >= 1
    ensures (StatusOf(w, steps) == OverallOk <==> |steps| == Requested(w) && AllSucceeded(steps))
       <==> !(|steps| == Requested(w) && AllSucceeded(steps[..|steps| - 1]) && w.planner(Requested(w)).action.Complete?)
  {
    hide IsRun, StatusOf, OutcomeOf;
    OkIff(w, steps);
    if |steps| == Requested(w) {
      LastAnswer(w, steps);
      var last := steps[|steps| - 1];
      if last.decision.action.Complete? { CompleteSucceeds(w, steps); }
      assert EverySuccess(steps) <==> EverySuccess(steps[..|steps| - 1]) && last.outcome.success;
      forall k: nat | k < |steps| - 1 ensures steps[k].decision.action.ExecuteCommand? { GoesOn(w, steps, k); }
    }
  }

  lemma CompleteSucceeds(w: World, steps: seq<Step>)
    requires IsRun(w, steps) && steps != [] && steps[|steps| - 1].decision.action.Complete?
    ensures steps[|steps| - 1].outcome.success
  {
    hide IsRun, Evaluate, Strip, Classified;
    StepIs(w, steps, |steps| - 1);
  }

  /** The one-command instance: a planner that answers it with "complete" ends "ok" with nothing executed. */
  lemma {:induction false} EarlyCompleteIsOk(w: World, steps: seq<Step>)
    requires IsRun(w, steps) && w.limits.maxSteps >= 1 && Requested(w) == 1
    requires w.planner(1).action.Complete? && w.planner(1).commandText == ""
    ensures StatusOf(w, steps) == OverallOk && Attempts(steps) == 0 && !AllSucceeded(steps)
  {
    RunIsBounded(w, steps);
    assert |steps| == 1;
    hide IsRun, StatusOf, OutcomeOf;
    LastAnswer(w, steps);
    CompleteSucceeds(w, steps);
    OkIff(w, steps);
    assert steps[..0] == [];
  }

  /** Each overall status by how the run ended and what it counted, for any planner. */
  lemma {:induction false} StatusMeans(w: World, steps: seq<Step>)
    requires IsRun(w, steps)
    ensures var state, n, ok, tried := FinalState(steps), Requested(w), Successes(steps), Attempts(steps);
            && state in {Completed, Failed, WaitingForUser, WaitingForApproval}
            && (StatusOf(w, steps) == OverallOk <==> state == Completed && n > 0 && ok == n)
            && (StatusOf(w, steps) == OverallNeedsInput <==> state == WaitingForUser || state == WaitingForApproval)
            && (StatusOf(w, steps) == OverallPartial <==>
                  (state == Completed && ok > 0 && !(n > 0 && ok == n)) || (state == Failed && 0 < ok < tried))
            && (StatusOf(w, steps) == OverallError <==>
                  (state == Completed && ok == 0) || (state == Failed && !(0 < ok < tried)))
  {
    hide IsRun, Successes, Attempts;
    if steps != [] { LastStep(w, steps); } else { NoSteps(); }
  }

  // ---- the verdict over the world alone ----

  /** The backend is asked for an executed command of an allowed kind, and its status alone is the success. */
  lemma BackendDecides(d: Decision, backend: Decision -> Reply)
    requires d.action.ExecuteCommand?
    ensures var o := Executed(d, backend);
            var typed := Strip(d.intent) in ALLOWED_INTENTS && d.hasEntities;
            && (typed ==> (o.success <==> backend(d).status == "ok"))
            && (typed && backend(d).status != "" ==> o.status == backend(d).status)
            && (typed ==> o.resultStatus == backend(d).status && o.resultMessage == backend(d).message)
            && (typed && Strip(backend(d).message) != "" ==> o.summary == Strip(backend(d).message))
            && (!typed ==> !o.success && o.summary == MISSING_CONTRACT && o.status == "error")
  {
    hide Strip, ALLOWED_INTENTS, MISSING_CONTRACT, Classified;
    ClassifiedIff(d);
    ErrorIsNotOk();
  }

  lemma ErrorIsNotOk()
    ensures "error" != "ok" && "" != "ok"
  {
    assert |"error"| == 5 && |"ok"| == 2;
  }

  /** Command `number` of the plan goes through: the planner executes it as an allowed command, the gate, if it is
      asked, allows it, and the backend answers "ok". */
  predicate GoesThrough(w: World, number: int) {
    var d := w.planner(number);
    && d.action.ExecuteCommand? && Strip(d.intent) in ALLOWED_INTENTS && d.hasEntities
    && (w.gate.Some? && Strip(d.commandText) != "" ==> w.gate.value(d))
    && w.backend(d).status == "ok"
  }

  lemma GoesThroughIff(w: World, number: int)
    ensures GoesThrough(w, number) <==>
              w.planner(number).action.ExecuteCommand? && OutcomeOf(w, w.planner(number)).success
  {
    var d := w.planner(number);
    if d.action.ExecuteCommand? { BackendDecides(d, w.backend); }
    BlockedFails();
    hide Strip, ALLOWED_INTENTS, Executed, BlockedOutcome;
  }

  /** Where every command goes through, the loop takes them all. */
  lemma {:induction false} TakesThemAll(w: World, steps: seq<Step>)
    requires IsRun(w, steps) && Requested(w) >= 1 && w.limits.maxSteps >= Requested(w)
    requires forall number :: 1 <= number <= Requested(w) ==> GoesThrough(w, number)
    ensures |steps| == Requested(w)
  {
    RunIsBounded(w, steps);
    hide GoesThrough, StepOf, Evaluate, OutcomeOf;
    var n := |steps|;
    if 0 < n < Requested(w) {
      StepIs(w, steps, n - 1);
      GoesThroughIff(w, n);
      var s := steps[n - 1];
      ContinuesIff(s.decision, s.outcome, MoreCommands(w, n), s.failures, w.limits);
    }
  }

  /** The verdict: with room for all n commands, a run ends "ok" with all n executed if and only if each of them
      goes through, by the planner, the gate and the backend alone. */
  lemma {:induction false} WorldVerdict(w: World, steps: seq<Step>)
    requires IsRun(w, steps) && Requested(w) >= 1 && w.limits.maxSteps >= Requested(w)
    ensures (&& StatusOf(w, steps) == OverallOk && |steps| == Requested(w)
             && forall k :: 0 <= k < |steps| ==> steps[k].decision.action.ExecuteCommand?)
       <==> forall number :: 1 <= number <= Requested(w) ==> GoesThrough(w, number)
  {
    hide IsRun, GoesThrough, StatusOf, OutcomeOf;
    OkIff(w, steps);
    if forall number :: 1 <= number <= Requested(w) ==> GoesThrough(w, number) {
      TakesThemAll(w, steps);
      forall k: nat | k < |steps| ensures steps[k].decision.action.ExecuteCommand? && steps[k].outcome.success {
        StepIs(w, steps, k);
        GoesThroughIff(w, k + 1);
      }
    } else {
      var number :| 1 <= number <= Requested(w) && !GoesThrough(w, number);
      GoesThroughIff(w, number);
      if |steps| == Requested(w) { StepIs(w, steps, number - 1); }
    }
  }

  // ---- the planner ----

  /** A command as the plan lists it. */
  datatype Command = TextCommand(text: string) | RecordCommand(text: string, details: Decision) | OddCommand

  /** `next_decision`: `choose` is the scoring among the candidates, which never include "complete". */
  function NextDecision(commands: Option<seq<Command>>, choose: int -> Action, autoApprove: bool,
      number: int): Decision
  {
    match commands
    case None => Stop(Fail, "Plan has no executable commands list.")
    case Some(list) =>
      if number > |list| then Stop(Complete, "")
      else if number < 1 then Stop(Fail, "")
      else
        match list[number - 1]
        case OddCommand => Stop(Fail, "Unsupported command shape.")
        case TextCommand(text) => Planned(Strip(text), Stop(Fail, ""), choose(number), autoApprove)
        case RecordCommand(text, details) => Planned(Strip(text), details, choose(number), autoApprove)
  }

  function Stop(action: Action, reason: string): Decision { Decision(action, "", "", false, None, reason) }

  function Planned(text: string, details: Decision, chosen: Action, autoApprove: bool): Decision {
    if text == "" then Stop(Fail, "Empty command in plan.")
    else
      details.(action := if chosen.RequestApproval? && autoApprove then ExecuteCommand else chosen,
               commandText := text)
  }

  /** The world of the loop with this planner. */
  ghost predicate Planning(w: World, commands: Option<seq<Command>>, choose: int -> Action, autoApprove: bool) {
    && w.planner == ((number: int) => NextDecision(commands, choose, autoApprove, number))
    && (match commands case None => w.commands == None case Some(list) => w.commands == Some(|list|))
    && forall k :: !choose(k).Complete?
  }

  lemma StripNonEmpty(text: string)
    ensures Strip(Strip(text)) == Strip(text)
  {
    StripIdempotent(text);
  }

  /** This planner never answers a listed command with "complete", and never executes a blank text. */
  lemma PlannedDecisions(commands: Option<seq<Command>>, choose: int -> Action, autoApprove: bool, number: int)
    requires forall k :: !choose(k).Complete?
    ensures var d := NextDecision(commands, choose, autoApprove, number);
            && (d.action.ExecuteCommand? ==> d.commandText != "" && Strip(d.commandText) == d.commandText)
            && (commands.Some? && number <= |commands.value| ==> !d.action.Complete?)
  {
    hide Strip;
    if commands.Some? && 1 <= number <= |commands.value| {
      match commands.value[number - 1] {
        case TextCommand(text) => StripNonEmpty(text);
        case RecordCommand(text, _) => StripNonEmpty(text);
        case OddCommand =>
      }
    }
  }

  /** What a listed command that is not blank becomes: its own text without outer blanks, its own intent and
      entities, and the action chosen, where an approval that need not be asked for is an execution. */
  lemma PlannedMeans(commands: seq<Command>, choose: int -> Action, autoApprove: bool, number: nat)
    requires 1 <= number <= |commands| && !commands[number - 1].OddCommand? && !AllBlank(commands[number - 1].text)
    ensures var d, c := NextDecision(Some(commands), choose, autoApprove, number), commands[number - 1];
            && d.commandText == Strip(c.text)
            && (c.RecordCommand? ==>
                  d.intent == c.details.intent && d.hasEntities == c.details.hasEntities
                  && d.confidence == c.details.confidence)
            && (c.TextCommand? ==> d.intent == "" && !d.hasEntities)
            && (choose(number) == RequestApproval && autoApprove ==> d.action == ExecuteCommand)
            && (!(choose(number) == RequestApproval && autoApprove) ==> d.action == choose(number))
  {
    hide Strip, AllBlank;
    StripEmptyIff(commands[number - 1].text);
  }

  /** Whatever is not a command with a text fails, and past the last command the plan is complete. */
  lemma PlannedOtherwise(commands: seq<Command>, choose: int -> Action, autoApprove: bool, number: nat)
    requires number >= 1
    ensures var d := NextDecision(Some(commands), choose, autoApprove, number);
            && (number > |commands| ==> d.action == Complete && d.commandText == "")
            && (number <= |commands| && (commands[number - 1].OddCommand? || AllBlank(commands[number - 1].text)) ==>
                  d.action == Fail && d.commandText == "")
  {
    hide Strip, AllBlank;
    if number <= |commands| && !commands[number - 1].OddCommand? { StripEmptyIff(commands[number - 1].text); }
  }

  /** So the verdict holds of every plan run with it, and every command that reached the backend had passed the gate. */
  lemma {:induction false} PlannedVerdict(w: World, steps: seq<Step>, commands: seq<Command>, choose: int -> Action,
      autoApprove: bool)
    requires IsRun(w, steps) && commands != [] && Planning(w, Some(commands), choose, autoApprove)
    ensures |steps| <= |commands| && Successes(steps) <= Attempts(steps) <= |commands|
    ensures StatusOf(w, steps) == OverallOk <==> |steps| == |commands| && AllSucceeded(steps)
    ensures forall k :: 0 <= k < |steps| && steps[k].decision.action.ExecuteCommand? && !steps[k].blocked ==>
              (w.gate.Some? ==> w.gate.value(steps[k].decision))
  {
    hide NextDecision, IsRun, StatusOf, Successes, Attempts, AllSucceeded;
    forall number: int | 1 <= number <= Requested(w)
      ensures var d := w.planner(number); !d.action.Complete? && (d.action.ExecuteCommand? ==> d.commandText != "")
    {
      PlannedDecisions(Some(commands), choose, autoApprove, number);
    }
    Verdict(w, steps);
    forall k: nat | k < |steps| && steps[k].decision.action.ExecuteCommand? && !steps[k].blocked
      ensures w.gate.Some? ==> w.gate.value(steps[k].decision)
    {
      BlockedIs(w, steps, k);
      PlannedDecisions(Some(commands), choose, autoApprove, k + 1);
    }
  }

  lemma BlockedIs(w: World, steps: seq<Step>, k: nat)
    requires IsRun(w, steps) && k < |steps|
    ensures steps[k].decision == w.planner(k + 1) && steps[k].blocked == StoppedByGate(w, steps[k].decision)
  {
    hide Evaluate, OutcomeOf, StoppedByGate;
    assert StepAt(w, steps, k);
  }
}
