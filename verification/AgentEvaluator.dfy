/** One planned action at a time: carrying it out, and judging what came of it. */
module AgentEvaluator {
  import opened Prelude
  import opened Text

  datatype Action = ExecuteCommand | RequestApproval | RequestUserInput | Complete | Fail

  datatype Decision = Decision(
    action: Action, commandText: string, intent: string, hasEntities: bool, confidence: Option<real>, reason: string)

  /** `resultStatus` and `resultMessage` are the fields of the raw result, empty when it has none. */
  datatype Outcome = Outcome(
    status: string, success: bool, summary: string, resultStatus: string, resultMessage: string,
    classification: Option<Classification>)

  datatype LoopState = Ready | Thinking | WaitingForApproval | WaitingForUser | Completed | Failed

  datatype FailureClass = PolicyBlock | MissingData | NotFound | Transient | Unknown

  /** The terminal status; none while the loop goes on. */
  datatype Terminal = TerminalOk | TerminalError | Blocked | NeedsUser | NeedsApproval

  datatype Evaluation = Evaluation(
    next: LoopState, terminal: Option<Terminal>, message: string, failureClass: Option<FailureClass>)
  {
    predicate Continues() { terminal.None? }
  }

  datatype Limits = Limits(maxSteps: int, maxFailures: int)

  // ---- executing ----

  const ALLOWED_INTENTS := {
    "lists.create_list", "lists.add_item", "lists.get_items", "lists.delete_list", "lists.remove_item",
    "lists.mark_item_done", "calendar.add_event", "calendar.view", "calendar.update_event", "calendar.delete_event",
    "home.set_switch"}

  datatype Classification = Classification(intent: string, confidence: real)

  /** What the backend returned: the text of its status and message, empty when absent. */
  datatype Reply = Reply(status: string, message: string)

  /** `_typed_plan_classification`. */
  function Classified(d: Decision): Option<Classification> {
    if Strip(d.intent) == "" || !d.hasEntities then None
    else if Strip(d.intent) !in ALLOWED_INTENTS then None
    else
      var confidence := match d.confidence case Some(c) => c case None => 0.95;
      Some(Classification(Strip(d.intent), MaxReal(0.0, MinReal(confidence, 1.0))))
  }

  /** Only the eleven allowed intents, with entities, reach the backend, and always with a confidence in [0, 1]. */
  lemma ClassifiedIff(d: Decision)
    ensures Classified(d).Some? <==> Strip(d.intent) in ALLOWED_INTENTS && d.hasEntities
    ensures Classified(d).Some? ==>
              Classified(d).value.intent == Strip(d.intent) && 0.0 <= Classified(d).value.confidence <= 1.0
  {
    hide Strip, ALLOWED_INTENTS;
    NoEmptyIntent();
  }

  lemma NoEmptyIntent()
    ensures "" !in ALLOWED_INTENTS
  {
    assert forall s :: s in ALLOWED_INTENTS ==> |s| > 0;
  }

  const MISSING_CONTRACT := "Main plan command is missing its typed compatibility contract."

  /** `MainAgentExecutor.execute`, given what the backend answers when it is called. */
  function Executed(d: Decision, backend: Decision -> Reply): Outcome {
    match d.action
    case RequestApproval => Outcome("waiting_for_approval", false, "Action requires approval before execution.", "",
        "", None)
    case RequestUserInput => Outcome("waiting_for_user", false, "Action requires additional user input.", "", "", None)
    case Complete => Outcome("completed", true, "No further actions needed.", "", "", None)
    case Fail =>
      Outcome("error", false, if d.reason == "" then "Planner reported a loop failure." else d.reason, "", "", None)
    case ExecuteCommand =>
      match Classified(d)
      case None => Outcome("error", false, MISSING_CONTRACT, "error", MISSING_CONTRACT, None)
      case Some(c) =>
        var reply := backend(d);
        var status := if reply.status == "" then "error" else reply.status;
        Outcome(status, status == "ok",
                if Strip(reply.message) == "" then c.intent + " -> " + status else Strip(reply.message),
                reply.status, reply.message, Some(c))
  }

  /** Whether the backend is called at all. */
  predicate CallsBackend(d: Decision) { d.action.ExecuteCommand? && Classified(d).Some? }

  const BlockedOutcome := Outcome(
    "blocked_by_policy", false, "Command blocked by content policy.", "blocked",
    "This command was blocked by content policy.", None)

  // ---- classifying a failure ----

  function Clean(s: string): string { Lower(Strip(s)) }

  function Joined(tokens: seq<string>): string {
    if tokens == [] then ""
    else
      var rest, t := Joined(tokens[..|tokens| - 1]), tokens[|tokens| - 1];
      if t == "" then rest else if rest == "" then t else rest + " " + t
  }

  function Tokens(o: Outcome): seq<string> {
    [Clean(o.status), Clean(o.resultStatus), Clean(o.summary), Clean(o.resultMessage)]
  }

  predicate Mentions(hay: string, words: seq<string>) { exists w :: w in words && Contains(hay, w) }

  const POLICY_WORDS := ["blocked_by_policy", "policy", "blocked"]
  const MISSING_WORDS := ["needs_clarification", "missing", "needs_input", "missing_fields", "required",
      "invalid_input"]
  const NOT_FOUND_WORDS := ["unknown_list", "unknown_switch", "not found", "not_found", "does not exist"]
  const TRANSIENT_WORDS := ["timeout", "temporar", "rate limit", "unavailable", "network", "retry", "service error"]

  function Classify(o: Outcome): FailureClass {
    var hay := Joined(Tokens(o));
    if Mentions(hay, POLICY_WORDS) then PolicyBlock
    else if Mentions(hay, MISSING_WORDS) then MissingData
    else if Mentions(hay, NOT_FOUND_WORDS) then NotFound
    else if Mentions(hay, TRANSIENT_WORDS) then Transient
    else Unknown
  }

  // ---- evaluating ----

  function FailureMessage(c: FailureClass, exhausted: bool, more: bool): string {
    match c
    case PolicyBlock => "Action blocked by policy; awaiting user adjustment."
    case MissingData => "Missing required information; request clarification."
    case NotFound => "Target was not found; ask user to refine target."
    case Transient =>
      if exhausted then "Loop stopped after repeated transient failures."
      else if more then "Transient failure; continue with replanning."
      else "Temporary issue with no fallback step; request retry from user."
    case Unknown =>
      if exhausted then "Loop stopped after repeated action failures."
      else if more then "Continuing after action failure with fallback strategy."
      else "Loop ended with a failed action."
  }

  function JudgeFailure(o: Outcome, more: bool, failures: int, limits: Limits): Evaluation {
    var c, exhausted := Classify(o), failures >= limits.maxFailures;
    var message := FailureMessage(c, exhausted, more);
    match c
    case PolicyBlock => Evaluation(WaitingForUser, Some(Blocked), message, Some(c))
    case MissingData => Evaluation(WaitingForUser, Some(NeedsUser), message, Some(c))
    case NotFound => Evaluation(WaitingForUser, Some(NeedsUser), message, Some(c))
    case Transient =>
      if exhausted then Evaluation(Failed, Some(TerminalError), message, Some(c))
      else if more then Evaluation(Thinking, None, message, Some(c))
      else Evaluation(WaitingForUser, Some(NeedsUser), message, Some(c))
    case Unknown =>
      if exhausted then Evaluation(Failed, Some(TerminalError), message, Some(c))
      else if more then Evaluation(Thinking, None, message, Some(c))
      else Evaluation(Failed, Some(TerminalError), message, Some(c))
  }

  const SUCCEEDED := "Action succeeded; planning next step."
  const ALL_DONE := "Plan steps completed."

  /** `MainAgentEvaluator.evaluate`. */
  function Evaluate(d: Decision, o: Outcome, more: bool, failures: int, limits: Limits): Evaluation {
    match d.action
    case RequestApproval => Evaluation(WaitingForApproval, Some(NeedsApproval), o.summary, None)
    case RequestUserInput => Evaluation(WaitingForUser, Some(NeedsUser), o.summary, None)
    case Fail => Evaluation(Failed, Some(TerminalError), o.summary, Some(Unknown))
    case Complete => Evaluation(Completed, Some(TerminalOk), o.summary, None)
    case ExecuteCommand =>
      if !o.success then JudgeFailure(o, more, failures, limits)
      else if more then Evaluation(Thinking, None, SUCCEEDED, None)
      else Evaluation(Completed, Some(TerminalOk), ALL_DONE, None)
  }

  // ---- words found in a joined text ----

  predicate NoBlank(w: string) { forall i :: 0 <= i < |w| ==> w[i] != ' ' }

  /** Whatever occurs in the joined text is on one side or spans the blank. */
  lemma ContainsOneSide(a: string, b: string, w: string)
    requires Contains(a + " " + b, w)
    ensures Contains(a, w) || Contains(b, w) || !NoBlank(w)
  {
    hide Contains;
    var j := a + " " + b;
    var i := ContainsWhere(j, w);
    if i + |w| <= |a| {
      assert j[i..i + |w|] == a[i..i + |w|];
      ContainsAt(a, w, i);
    } else if i > |a| {
      var k := i - |a| - 1;
      assert j[i..i + |w|] == b[k..k + |w|];
      ContainsAt(b, w, k);
    } else {
      assert j[i..i + |w|][|a| - i] == ' ';
    }
  }

  /** A word without blanks occurs in two texts joined by a blank if and only if it occurs in one of them. */
  lemma ContainsJoined(a: string, b: string, w: string)
    requires NoBlank(w)
    ensures Contains(a + " " + b, w) <==> Contains(a, w) || Contains(b, w)
  {
    hide Contains, NoBlank;
    if Contains(a, w) {
      ContainsLeft(a, " ", w);
      ContainsLeft(a + " ", b, w);
    }
    if Contains(b, w) { ContainsRight(a + " ", b, w); }
    if Contains(a + " " + b, w) { ContainsOneSide(a, b, w); }
  }

  lemma {:induction false} ContainsInJoined(tokens: seq<string>, w: string)
    requires w != "" && NoBlank(w)
    ensures Contains(Joined(tokens), w) <==> exists t :: t in tokens && Contains(t, w)
  {
    hide Contains;
    EmptyContains(w);
    if tokens != [] {
      var rest, t := tokens[..|tokens| - 1], tokens[|tokens| - 1];
      ContainsInJoined(rest, w);
      ContainsJoined(Joined(rest), t, w);
      assert tokens == rest + [t];
    }
  }

  lemma EmptyContains(w: string)
    requires w != ""
    ensures !Contains("", w)
  {}

  lemma WiderWord(hay: string, w: string, part: string, k: nat)
    requires Contains(hay, w) && k + |part| <= |w| && w[k..k + |part|] == part
    ensures Contains(hay, part)
  {
    var i := ContainsWhere(hay, w);
    forall x | 0 <= x < |part| ensures hay[i + k..i + k + |part|][x] == part[x] {
      assert hay[i..i + |w|][k + x] == w[k + x] && w[k..k + |part|][x] == part[x];
    }
    ContainsAt(hay, part, i + k);
  }

  /** A failure is a policy block if and only if one of its four texts speaks of policy or of blocking. */
  lemma PolicyBlockIff(o: Outcome)
    ensures Classify(o) == PolicyBlock <==>
              exists t :: t in Tokens(o) && (Contains(t, "policy") || Contains(t, "blocked"))
  {
    hide Contains, Joined, Tokens;
    var hay := Joined(Tokens(o));
    assert NoBlank("policy") && NoBlank("blocked");
    ContainsInJoined(Tokens(o), "policy");
    ContainsInJoined(Tokens(o), "blocked");
    if Contains(hay, "blocked_by_policy") { WiderWord(hay, "blocked_by_policy", "policy", 11); }
    assert POLICY_WORDS[1] == "policy" && POLICY_WORDS[2] == "blocked";
  }

  lemma {:induction false} BlockedIsPolicyBlock()
    ensures Classify(BlockedOutcome) == PolicyBlock
  {
    hide Classify, Contains, Clean;
    PolicyBlockIff(BlockedOutcome);
    var t := Clean("blocked_by_policy");
    assert Tokens(BlockedOutcome)[0] == t;
    CleanBlocked();
  }

  lemma CleanBlocked()
    ensures Contains(Clean("blocked_by_policy"), "blocked")
  {
    hide Strip;
    var s := "blocked_by_policy";
    assert Stripped(s);
    StripFixed(s);
    assert Lower(s) == s;
    ContainsPrefix(s, "blocked");
  }

  /** The classes are looked for in this order: policy, missing data, not found, transient. The first of them
      that one of the four texts speaks of decides. */
  lemma FirstClassDecides(o: Outcome, t: string)
    requires t in Tokens(o)
    ensures (exists w :: w in POLICY_WORDS && Contains(t, w)) ==> Classify(o) == PolicyBlock
    ensures (exists w :: w in MISSING_WORDS && Contains(t, w)) ==>
              Classify(o) == PolicyBlock || Classify(o) == MissingData
    ensures (exists w :: w in NOT_FOUND_WORDS && Contains(t, w)) ==>
              Classify(o) == PolicyBlock || Classify(o) == MissingData || Classify(o) == NotFound
    ensures (exists w :: w in TRANSIENT_WORDS && Contains(t, w)) ==> Classify(o) != Unknown
  {
    hide Contains, Joined, Tokens, POLICY_WORDS, MISSING_WORDS, NOT_FOUND_WORDS, TRANSIENT_WORDS;
    forall w | Contains(t, w) ensures Contains(Joined(Tokens(o)), w) { TokenInJoined(Tokens(o), t, w); }
  }

  /** Whatever a text contains, the joined text contains. */
  lemma {:induction false} TokenInJoined(tokens: seq<string>, t: string, w: string)
    requires t in tokens && Contains(t, w)
    ensures Contains(Joined(tokens), w)
  {
    hide Contains;
    var n := |tokens| - 1;
    var rest, last := Joined(tokens[..n]), tokens[n];
    assert tokens == tokens[..n] + [last];
    if t in tokens[..n] {
      TokenInJoined(tokens[..n], t, w);
      ContainsLeft(rest, " ", w);
      ContainsLeft(rest + " ", last, w);
    } else {
      ContainsRight(rest + " ", last, w);
    }
    if last == "" || rest == "" { EmptyContainsOnly(w); }
  }

  lemma EmptyContainsOnly(w: string)
    ensures Contains("", w) ==> w == ""
    ensures forall s :: Contains(s, "")
  {
    forall s ensures Contains(s, "") { assert "" <= s[0..]; }
  }

  /** A class has one of its own words in the joined texts. */
  lemma ClassHasWord(o: Outcome)
    ensures var hay := Joined(Tokens(o));
            match Classify(o)
            case PolicyBlock => Mentions(hay, POLICY_WORDS)
            case MissingData => Mentions(hay, MISSING_WORDS) && !Mentions(hay, POLICY_WORDS)
            case NotFound => Mentions(hay, NOT_FOUND_WORDS) && !Mentions(hay, POLICY_WORDS + MISSING_WORDS)
            case Transient => Mentions(hay, TRANSIENT_WORDS)
                && !Mentions(hay, POLICY_WORDS + MISSING_WORDS + NOT_FOUND_WORDS)
            case Unknown => !Mentions(hay, POLICY_WORDS + MISSING_WORDS + NOT_FOUND_WORDS + TRANSIENT_WORDS)
  {
    hide Contains, Joined, Tokens, POLICY_WORDS, MISSING_WORDS, NOT_FOUND_WORDS, TRANSIENT_WORDS;
  }

  /** Letter case does not matter to the class. */
  lemma ClassIgnoresCase(o: Outcome, p: Outcome)
    requires CaseVariant(o.status, p.status) && CaseVariant(o.summary, p.summary)
    requires CaseVariant(o.resultStatus, p.resultStatus) && CaseVariant(o.resultMessage, p.resultMessage)
    ensures Classify(o) == Classify(p)
  {
    hide Classify, CaseVariant, Strip, Lower;
    CleanVariant(o.status, p.status);
    CleanVariant(o.summary, p.summary);
    CleanVariant(o.resultStatus, p.resultStatus);
    CleanVariant(o.resultMessage, p.resultMessage);
    SameTokensSameClass(o, p);
  }

  lemma CleanVariant(s: string, t: string)
    requires CaseVariant(s, t)
    ensures Clean(s) == Clean(t)
  {
    hide CaseVariant, Strip, Lower;
    StripVariant(s, t);
    LowerVariant(Strip(s), Strip(t));
  }

  lemma SameTokensSameClass(o: Outcome, p: Outcome)
    requires Tokens(o) == Tokens(p)
    ensures Classify(o) == Classify(p)
  {
    hide Mentions, Tokens, Joined, POLICY_WORDS, MISSING_WORDS, NOT_FOUND_WORDS, TRANSIENT_WORDS;
  }

  /** The texts looked at are the outcome's status and summary and the raw result's status and message. */
  lemma TokensAre(o: Outcome, t: string)
    requires Stripped(t) && forall i :: 0 <= i < |t| ==> !('A' <= t[i] <= 'Z')
    ensures o.status == t || o.summary == t || o.resultStatus == t || o.resultMessage == t ==> t in Tokens(o)
  {
    hide Strip;
    StripFixed(t);
    assert Lower(t) == t;
    assert Tokens(o)[0] == Clean(o.status) && Tokens(o)[1] == Clean(o.resultStatus);
    assert Tokens(o)[2] == Clean(o.summary) && Tokens(o)[3] == Clean(o.resultMessage);
  }

  // ---- what a continuing step means ----

  /** The loop goes on exactly after an executed command with more to come that succeeded, or that failed
      below the failure limit for a reason no user has to settle. */
  lemma ContinuesIff(d: Decision, o: Outcome, more: bool, failures: int, limits: Limits)
    ensures var e := Evaluate(d, o, more, failures, limits);
            && (e.Continues() <==>
                  d.action.ExecuteCommand? && more
                  && (o.success || (failures < limits.maxFailures
                      && (Classify(o) == Transient || Classify(o) == Unknown))))
            && (e.Continues() <==> e.next == Thinking) && e.next != Ready
            && (e.next == Completed <==> e.terminal == Some(TerminalOk))
            && (e.next == Completed <==> d.action.Complete? || (d.action.ExecuteCommand? && o.success && !more))
            && (e.terminal == Some(Blocked) ==> e.next == WaitingForUser)
            && (e.next == WaitingForUser || e.next == WaitingForApproval ==> !o.success || !d.action.ExecuteCommand?)
  {
    hide Classify, FailureMessage, SUCCEEDED, ALL_DONE;
  }
}
