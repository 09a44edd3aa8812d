/** The session summary: when it is refreshed and which turns it covers. */
module Summarizer {
  import opened Prelude
  import opened Text
  import opened Values
  import opened ContextTypes
  import opened ContextSerialization
  import opened ContextRoundTrip
  import EntityRegistryManager
  import opened RecentTurns
  import opened SummaryWording

  datatype Trigger = Forced | TaskCompleted | FocusChanged | BudgetThreshold | TurnInterval

  // ---- turn numbers ----

  function TurnIndex(lib: Lib): RecentTurn -> Option<int> {
    (t: RecentTurn) =>
      if t.turnId.Some? && StartsWith(t.turnId.value, "turn-") then lib.toInt(t.turnId.value[5..]) else None
  }

  function Lowest(xs: seq<int>): (m: int)
    requires xs != []
    ensures m in xs && forall x :: x in xs ==> m <= x
  {
    if |xs| == 1 then xs[0]
    else
      assert xs == xs[..|xs| - 1] + [xs[|xs| - 1]];
      MinInt(Lowest(xs[..|xs| - 1]), xs[|xs| - 1])
  }

  function Highest(xs: seq<int>): (m: int)
    requires xs != []
    ensures m in xs && forall x :: x in xs ==> x <= m
  {
    if |xs| == 1 then xs[0]
    else
      assert xs == xs[..|xs| - 1] + [xs[|xs| - 1]];
      MaxInt(Highest(xs[..|xs| - 1]), xs[|xs| - 1])
  }

  /** `_source_turn_range`: lowest and highest number, or the one number. */
  function SourceRange(ts: seq<RecentTurn>, lib: Lib): seq<int> {
    var numbers := Collect(TurnIndex(lib), ts);
    if numbers == [] then []
    else if Lowest(numbers) == Highest(numbers) then [Lowest(numbers)]
    else [Lowest(numbers), Highest(numbers)]
  }

  function HighestTurn(ts: seq<RecentTurn>, lib: Lib): nat {
    if ts == [] then 0
    else
      match TurnIndex(lib)(ts[|ts| - 1])
      case Some(i) => MaxInt(HighestTurn(ts[..|ts| - 1], lib), i)
      case None => HighestTurn(ts[..|ts| - 1], lib)
  }

  /** `_turn_counter`: the annotation, or else the highest number among the turns. */
  function CounterOf(s: SessionState, lib: Lib): nat {
    var annotated := AsInt(Get(s.annotations, COUNTER), 0, lib);
    if annotated > 0 then annotated else HighestTurn(s.recentTurns, lib)
  }

  // ---- the trigger ----

  function FocusKey(s: SessionState, req: Request): Option<string> {
    var skill, intent, route :=
      Lower(Strip(TextOr(s.activeSkillId))), Lower(Strip(TextOr(req.intent))), Lower(Strip(TextOr(req.route)));
    if skill != "" then Some(skill)
    else if intent != "" && route != "" then Some(intent + "@" + route)
    else if intent != "" then Some(intent)
    else None
  }

  predicate TaskCompletion(status: Option<string>) {
    Lower(Strip(TextOr(CleanOptional(status)))) in COMPLETED
  }

  predicate FocusMoved(s: SessionState, key: Option<string>, lib: Lib) {
    var previous := Lower(Strip(ShowOr(Get(s.annotations, "summary_last_focus_key"), lib)));
    key.Some? && previous != "" && previous != key.value
  }

  function LastSummarized(s: SessionState, lib: Lib): int {
    AsInt(Get(s.annotations, "summary_last_turn_counter"), 0, lib)
  }

  predicate IntervalPassed(counter: nat, last: int, every: nat) {
    counter > 0 && if last <= 0 then counter >= every else counter - last >= every
  }

  function ChooseTrigger(s: SessionState, req: Request, policy: Policy, lib: Lib): Option<Trigger> {
    if req.force then Some(Forced)
    else if TaskCompletion(req.status) then Some(TaskCompleted)
    else if FocusMoved(s, FocusKey(s, req), lib) then Some(FocusChanged)
    else if Chars(s.recentTurns) >= policy.budget then Some(BudgetThreshold)
    else if IntervalPassed(CounterOf(s, lib), LastSummarized(s, lib), policy.every) then Some(TurnInterval)
    else None
  }

  function TriggerName(t: Trigger): string {
    match t
    case Forced => "forced"
    case TaskCompleted => "task_completed"
    case FocusChanged => "focus_changed"
    case BudgetThreshold => "budget_threshold"
    case TurnInterval => "turn_interval"
  }

  // ---- the refresh ----

  function SummaryOf(s: SessionState, req: Request, policy: Policy, lib: Lib,
      clock: EntityRegistryManager.Clock): SessionSummary
  {
    Worded(s, req, policy, SourceRange(s.recentTurns, lib), lib, clock)
  }

  function Annotated(d: Dict, counter: nat, trigger: Trigger, now: string, key: Option<string>): Dict {
    var noted := Put(Put(Put(d, "summary_last_turn_counter", VInt(counter)),
                         "summary_last_trigger", VStr(TriggerName(trigger))),
                     "summary_last_updated_at", VStr(now));
    if key.Some? then Put(noted, "summary_last_focus_key", VStr(key.value)) else noted
  }

  function Refreshed(s: SessionState, req: Request, trigger: Trigger, policy: Policy, lib: Lib,
                     clock: EntityRegistryManager.Clock): SessionState
  {
    s.(summary := SummaryOf(s, req, policy, lib, clock),
       annotations := Annotated(s.annotations, CounterOf(s, lib), trigger, req.now, FocusKey(s, req)))
  }

  /** Written back only when something differs. */
  function Stored(d: Dict, s: SessionState): Dict {
    var merged := Merge(d, Serialize(s));
    if merged.vals != d.vals then merged else d
  }

  /** The stored context after `maybe_refresh`. */
  function RefreshedContext(d: Dict, req: Request, policy: Policy, lib: Lib, clock: EntityRegistryManager.Clock): Dict {
    match Read(d, lib)
    case Err(_) => d
    case Ok(s) =>
      match ChooseTrigger(s, req, policy, lib)
      case None => d
      case Some(trigger) => Stored(d, Refreshed(s, req, trigger, policy, lib, clock))
  }

  datatype SummaryUpdate = SummaryUpdate(
    updated: bool, trigger: Option<Trigger>, counter: nat, turns: nat, chars: nat, summaryChars: nat)

  class SummaryManager {
    const policy: Policy

    constructor (every: int, budget: int, textChars: int, items: int, itemChars: int)
      ensures policy == Policy(MaxInt(1, every), MaxInt(256, budget), MaxInt(128, textChars), MaxInt(2, items),
                               MaxInt(24, itemChars))
    {
      policy := Policy(MaxInt(1, every), MaxInt(256, budget), MaxInt(128, textChars), MaxInt(2, items),
                               MaxInt(24, itemChars));
    }

    method SourceTurnRange(ts: seq<RecentTurn>, lib: Lib) returns (range: seq<int>)
      ensures range == SourceRange(ts, lib)
    {
      var indexes := Gather(TurnIndex(lib), ts);
      if indexes == [] { return []; }
      var low, high := Lowest(indexes), Highest(indexes);
      return if low == high then [low] else [low, high];
    }

    method TurnCounter(s: SessionState, lib: Lib) returns (counter: nat)
      ensures counter == CounterOf(s, lib)
    {
      var annotated := AsInt(Get(s.annotations, COUNTER), 0, lib);
      if annotated > 0 { return annotated; }
      counter := 0;
      var ts := s.recentTurns;
      for i := 0 to |ts|
        invariant counter == HighestTurn(ts[..i], lib)
      {
        assert ts[..i + 1][..i] == ts[..i];
        match TurnIndex(lib)(ts[i]) {
          case Some(index) => counter := MaxInt(counter, index);
          case None =>
        }
      }
      assert ts[..|ts|] == ts;
    }

    method MaybeRefresh(session: SessionRecord, req: Request, lib: Lib, clock: EntityRegistryManager.Clock)
      returns (r: Result<SummaryUpdate, ContextError>)
      requires policy.items > 0
      modifies session
      ensures session.contextReference == RefreshedContext(old(session.contextReference), req, policy, lib, clock)
      ensures var read := Read(old(session.contextReference), lib);
              if read.Err? then r == Err(read.error)
              else
                var s := read.value;
                var trigger := ChooseTrigger(s, req, policy, lib);
                var text := if trigger.None? then s.summary.text else SummaryOf(s, req, policy, lib, clock).text;
                r == Ok(SummaryUpdate(session.contextReference.vals != old(session.contextReference.vals), trigger,
                                      CounterOf(s, lib), |s.recentTurns|, Chars(s.recentTurns), |text|))
    {
      hide Read, ChooseTrigger, Chars, CounterOf, FocusKey, Annotated, SourceRange, Dedupe, Truncate, Serialize, Merge;
      var read := Read(session.contextReference, lib);
      if read.Err? { return Err(read.error); }
      var s := read.value;
      var counter := TurnCounter(s, lib);
      var chars := TurnsChars(s.recentTurns);
      var trigger := ChooseTrigger(s, req, policy, lib);
      if trigger.None? {
        return Ok(SummaryUpdate(false, None, counter, |s.recentTurns|, chars, |s.summary.text|));
      }
      var range := SourceTurnRange(s.recentTurns, lib);
      var summary := BuildSummary(s, req, policy, range, lib, clock);
      s := s.(summary := summary, annotations := Annotated(s.annotations, counter, trigger.value, req.now,
          FocusKey(s, req)));
      var merged := Merge(session.contextReference, Serialize(s));
      var changed := merged.vals != session.contextReference.vals;
      if changed { session.contextReference := merged; }
      return Ok(SummaryUpdate(changed, trigger, counter, |s.recentTurns|, chars, |summary.text|));
    }
  }

  // ---- what a refresh settles ----

  /** The annotations a refresh leaves: no trigger but a completed task, the budget or force can fire again. */
  lemma {:induction false} RefreshSettles(s: SessionState, first: Request, t: Trigger, policy: Policy, lib: Lib,
                                        clock: EntityRegistryManager.Clock, again: Request)
    requires policy.every > 0 && !again.force && !TaskCompletion(again.status)
    requires FocusKey(s, again) == FocusKey(s, first)
    ensures var trigger := ChooseTrigger(Refreshed(s, first, t, policy, lib, clock), again, policy, lib);
            if Chars(s.recentTurns) >= policy.budget then trigger == Some(BudgetThreshold) else trigger == None
  {
    hide SummaryOf, Chars, FocusKey, TaskCompletion, Strip, Lower, HighestTurn;
    var s' := Refreshed(s, first, t, policy, lib, clock);
    SameFocusKey(s, s', again);
    FocusKeyClean(s, first);
  }

  lemma SameFocusKey(s: SessionState, s': SessionState, req: Request)
    requires s.activeSkillId == s'.activeSkillId
    ensures FocusKey(s, req) == FocusKey(s', req)
  {
    hide Strip, Lower;
  }

  lemma FocusKeyClean(s: SessionState, req: Request)
    ensures FocusKey(s, req).Some? ==>
              var key := FocusKey(s, req).value; key != "" && Stripped(key) && Strip(key) == key && Lower(key) == key
  {
    hide Strip, Stripped, Lower;
    CleanLower(TextOr(s.activeSkillId));
    CleanLower(TextOr(req.intent));
    CleanLower(TextOr(req.route));
    var intent, route := Lower(Strip(TextOr(req.intent))), Lower(Strip(TextOr(req.route)));
    if intent != "" && route != "" { JoinedClean(intent, route); }
    if FocusKey(s, req).Some? { StripFixed(FocusKey(s, req).value); }
  }

  lemma CleanLower(s: string)
    ensures var r := Lower(Strip(s)); Stripped(r) && Lower(r) == r
  {
    LowerKeepsStripped(Strip(s));
    LowerIdempotent(Strip(s));
  }

  lemma JoinedClean(a: string, b: string)
    requires a != "" && b != "" && Stripped(a) && Stripped(b) && Lower(a) == a && Lower(b) == b
    ensures Stripped(a + "@" + b) && Lower(a + "@" + b) == a + "@" + b
  {
    var j := a + "@" + b;
    forall i | 0 <= i < |j| ensures Lower(j)[i] == j[i] {
      if i < |a| { assert Lower(a)[i] == a[i]; }
      else if i > |a| { assert Lower(b)[i - |a| - 1] == b[i - |a| - 1]; }
    }
    assert Lower(j) == j;
  }

  /** After any call, refreshed or not, fewer than `every` turns lie between the summary and the counter. */
  lemma {:induction false} SummaryNotStale(s: SessionState, req: Request, policy: Policy, lib: Lib,
      clock: EntityRegistryManager.Clock)
    requires policy.every > 0
    ensures var trigger := ChooseTrigger(s, req, policy, lib);
            var s' := if trigger.None? then s else Refreshed(s, req, trigger.value, policy, lib, clock);
            && CounterOf(s', lib) == CounterOf(s, lib)
            && CounterOf(s', lib) - MaxInt(0, LastSummarized(s', lib)) < policy.every
  {
    hide Chars, FocusKey, TaskCompletion, FocusMoved, CounterOf, LastSummarized, Refreshed;
    if ChooseTrigger(s, req, policy, lib).Some? {
      RefreshedCounters(s, req, ChooseTrigger(s, req, policy, lib).value, policy, lib, clock);
    }
  }

  lemma RefreshedCounters(s: SessionState, req: Request, t: Trigger, policy: Policy, lib: Lib,
                          clock: EntityRegistryManager.Clock)
    ensures var s' := Refreshed(s, req, t, policy, lib, clock);
            CounterOf(s', lib) == CounterOf(s, lib) && LastSummarized(s', lib) == CounterOf(s, lib)
  {
    hide SummaryOf, FocusKey, HighestTurn, TriggerName;
  }

  // ---- consecutive turns ----

  /** The turns are numbered consecutively and the last one is `counter`. */
  predicate Numbered(ts: seq<RecentTurn>, counter: nat) {
    |ts| <= counter && forall i :: 0 <= i < |ts| ==> ts[i].turnId == Some(TurnId(counter - |ts| + 1 + i))
  }

  /** `int()` reads what `str()` prints. */
  ghost predicate ReadsNumerals(lib: Lib) {
    forall n: nat :: lib.toInt(ToDec(n)) == Some(n)
  }

  function Span(counter: nat, n: nat): seq<int> {
    if n == 0 then [] else if n == 1 then [counter] else [counter - n + 1, counter]
  }

  function Upto(from: int, n: nat): (r: seq<int>)
    ensures |r| == n && forall i :: 0 <= i < n ==> r[i] == from + i
  {
    seq(n, i => from + i)
  }

  lemma {:induction false} NumberedIndexes(ts: seq<RecentTurn>, counter: nat, lib: Lib)
    requires Numbered(ts, counter) && ReadsNumerals(lib)
    ensures Collect(TurnIndex(lib), ts) == Upto(counter - |ts| + 1, |ts|)
  {
    hide TurnIndex, TurnId, ReadsNumerals, Collect;
    forall i: nat | i < |ts| ensures TurnIndex(lib)(ts[i]) == Some(counter - |ts| + 1 + i) {
      IndexOfTurn(ts[i], counter - |ts| + 1 + i, lib);
    }
    CollectAll(TurnIndex(lib), ts, Upto(counter - |ts| + 1, |ts|));
  }

  lemma NumberedLength(ts: seq<RecentTurn>, counter: nat)
    requires Numbered(ts, counter)
    ensures |ts| <= counter
  {}

  lemma IndexOfTurn(t: RecentTurn, n: nat, lib: Lib)
    requires t.turnId == Some(TurnId(n)) && ReadsNumerals(lib)
    ensures TurnIndex(lib)(t) == Some(n)
  {
    hide ToDec;
    assert TurnId(n)[5..] == ToDec(n);
  }

  /** The summary of consecutive turns covers exactly them, as a pair or as one number. */
  lemma RangeIsSpan(ts: seq<RecentTurn>, counter: nat, lib: Lib)
    requires Numbered(ts, counter) && ReadsNumerals(lib)
    ensures SourceRange(ts, lib) == Span(counter, |ts|)
  {
    hide TurnIndex, Numbered, ReadsNumerals, Collect;
    NumberedIndexes(ts, counter, lib);
    NumberedLength(ts, counter);
    var numbers := Upto(counter - |ts| + 1, |ts|);
    if ts != [] {
      assert numbers[0] == counter - |ts| + 1 && numbers[|ts| - 1] == counter;
      assert counter in numbers && counter - |ts| + 1 in numbers;
    }
  }

  // ---- when a summary is refreshed ----

  /** The five reasons, in the order in which they are looked for. */
  lemma TriggerMeans(s: SessionState, req: Request, policy: Policy, lib: Lib)
    ensures var done := Lower(Strip(TextOr(req.status))) in {"ok", "partial", "executed", "cancelled", "completed"};
            var moved := FocusMoved(s, FocusKey(s, req), lib);
            var long := Chars(s.recentTurns) >= policy.budget;
            var counter, last := CounterOf(s, lib), LastSummarized(s, lib);
            var due := counter > 0 && (if last <= 0 then counter else counter - last) >= policy.every;
            ChooseTrigger(s, req, policy, lib) ==
              if req.force then Some(Forced)
              else if done then Some(TaskCompleted)
              else if moved then Some(FocusChanged)
              else if long then Some(BudgetThreshold)
              else if due then Some(TurnInterval)
              else None
  {
    hide Strip, Lower, FocusKey, FocusMoved, Chars, CounterOf, LastSummarized;
    StatusCleaned(req.status);
  }

  lemma StatusCleaned(o: Option<string>)
    ensures Strip(TextOr(CleanOptional(o))) == Strip(TextOr(o))
  {
    hide Strip, AllBlank;
    CleanOptionalIs(o);
    StripEmpty();
    if o.Some? {
      StripIdempotent(o.value);
      StripEmptyIff(o.value);
    }
  }

  lemma StripEmpty()
    ensures Strip("") == ""
  {}

  /** The focus is the active skill, or else what the request is about; it has moved when another one was noted. */
  lemma FocusMeans(s: SessionState, req: Request, lib: Lib)
    ensures var skill, intent, route := TextOr(s.activeSkillId), TextOr(req.intent), TextOr(req.route);
            && (!AllBlank(skill) ==> FocusKey(s, req) == Some(Lower(Strip(skill))))
            && (AllBlank(skill) && AllBlank(intent) ==> FocusKey(s, req) == None)
            && (AllBlank(skill) && !AllBlank(intent) && AllBlank(route) ==>
                FocusKey(s, req) == Some(Lower(Strip(intent))))
            && (AllBlank(skill) && !AllBlank(intent) && !AllBlank(route) ==>
                  FocusKey(s, req) == Some(Lower(Strip(intent)) + "@" + Lower(Strip(route))))
  {
    hide Strip, AllBlank;
    StripEmptyIff(TextOr(s.activeSkillId));
    StripEmptyIff(TextOr(req.intent));
    StripEmptyIff(TextOr(req.route));
  }

  /** What a refresh notes down for the next call: the counter, the reason, the time and the focus. */
  lemma RefreshNotes(s: SessionState, req: Request, t: Trigger, policy: Policy, lib: Lib,
      clock: EntityRegistryManager.Clock)
    ensures var a := Refreshed(s, req, t, policy, lib, clock).annotations;
            && Get(a, "summary_last_turn_counter") == VInt(CounterOf(s, lib))
            && Get(a, "summary_last_trigger") == VStr(TriggerName(t))
            && Get(a, "summary_last_updated_at") == VStr(req.now)
            && (FocusKey(s, req).Some? ==> Get(a, "summary_last_focus_key") == VStr(FocusKey(s, req).value))
            && (FocusKey(s, req).None? ==>
                  Get(a, "summary_last_focus_key") == Get(s.annotations, "summary_last_focus_key"))
            && Get(a, COUNTER) == Get(s.annotations, COUNTER)
  {
    hide SummaryOf, FocusKey, CounterOf, TriggerName, Put;
  }
}
