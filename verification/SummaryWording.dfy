/** What a session summary says: its four lists of phrases and its text. */
module SummaryWording {
  import opened Prelude
  import opened Text
  import opened Values
  import opened ContextTypes
  import opened ContextSerialization
  import opened ContextRoundTrip
  import EntityRegistryManager
  import opened RecentTurns

  datatype Policy = Policy(every: nat, budget: nat, textChars: nat, items: nat, itemChars: nat)

  /** One call: what the current request is about, and the clock. */
  datatype Request = Request(
    intent: Option<string>, route: Option<string>, status: Option<string>, force: bool, now: string)

  // ---- phrases ----

  /** The first occurrence of each phrase, case ignored. */
  function Firsts(values: seq<string>): (r: seq<string>)
  {
    if values == [] then []
    else
      var rest, clean := Firsts(values[..|values| - 1]), Strip(values[|values| - 1]);
      if clean == "" || (exists y | y in rest :: Lower(y) == Lower(clean)) then rest else rest + [clean]
  }

  function Dedupe(values: seq<string>, limit: nat): seq<string> {
    if |Firsts(values)| <= limit then Firsts(values) else Firsts(values)[..limit]
  }

  lemma {:induction false} FirstsGrow(values: seq<string>, n: nat)
    requires n <= |values|
    ensures Firsts(values[..n]) <= Firsts(values)
  {
    hide Strip, Lower;
    if n < |values| {
      FirstsGrow(values[..|values| - 1], n);
      assert values[..|values| - 1][..n] == values[..n];
    } else {
      assert values[..n] == values;
    }
  }

  /** No two phrases agree up to case, none is blank, and every phrase given is represented. */
  lemma {:induction false} FirstsDistinct(values: seq<string>)
    ensures var r := Firsts(values);
            && NormalList(r)
            && (forall i, j :: 0 <= i < j < |r| ==> Lower(r[i]) != Lower(r[j]))
            && (forall v :: v in values && Strip(v) != "" ==> exists y :: y in r && Lower(y) == Lower(Strip(v)))
  {
    hide Strip, Lower;
    if values != [] {
      var n := |values| - 1;
      FirstsDistinct(values[..n]);
      var rest, clean, r := Firsts(values[..n]), Strip(values[n]), Firsts(values);
      forall v | v in values && Strip(v) != "" ensures exists y :: y in r && Lower(y) == Lower(Strip(v)) {
        if v in values[..n] {
          var y :| y in rest && Lower(y) == Lower(Strip(v));
          assert y in r;
        } else {
          assert v == values[n];
          if r != rest { assert clean in r; }
        }
      }
    }
  }

  function Truncate(s: string, limit: nat): (r: string)
    ensures limit >= 3 ==> |r| <= limit
  {
    var clean := Strip(s);
    if |clean| <= limit then clean else clean[..MaxInt(0, limit - 3)] + "..."
  }

  lemma TruncateStripped(s: string, limit: nat)
    requires limit > 3
    ensures Stripped(Truncate(s, limit))
  {}

  /** `_open_threads`: what a pending interaction still waits for. */
  function OpenThreads(pending: Option<PendingInteraction>): seq<string> {
    match pending
    case None => []
    case Some(p) =>
      if Lower(Strip(p.status)) in {"completed", "cancelled"} then []
      else
        var head := NonEmptyOr(OptValue(p.intent), "unknown_intent") + ":" + NonEmptyOr(VStr(p.kind), "followup");
        var missing := ParseStrList(StrList(p.expectedFields));
        if missing == [] then [head + ":pending"]
        else [head + ":awaiting(" + missing[0] + (if |missing| > 1 then ", " + missing[1] else "") + ")"]
  }

  lemma OpenThreadsNormal(pending: Option<PendingInteraction>)
    ensures NormalList(OpenThreads(pending))
  {
    hide Strip, Lower, OptStr, NonEmptyOr, ParseStrList, Stripped;
    if pending.Some? {
      var intent := NonEmptyOr(OptValue(pending.value.intent), "unknown_intent");
      assert NonEmpty(intent) by {
        UnknownIsNormal();
        NonEmptyOrNormal(OptValue(pending.value.intent), "unknown_intent");
      }
      forall t | t in OpenThreads(pending) ensures NonEmpty(t) { BothEnds(intent, t); }
    }
  }

  lemma UnknownIsNormal()
    ensures NonEmpty("unknown_intent")
  {}

  lemma BothEnds(first: string, t: string)
    requires NonEmpty(first) && first <= t && (t[|t| - 1] == 'g' || t[|t| - 1] == ')')
    ensures NonEmpty(t)
  {}

  function TextOr(o: Option<string>): string {
    match o case None => "" case Some(s) => s
  }

  /** Python's truth test. */
  predicate Truthy(v: Value) {
    match v
    case VNull => false
    case VBool(b) => b
    case VInt(i) => i != 0
    case VFloat(r) => r != 0.0
    case VStr(s) => s != ""
    case VList(items) => items != []
    case VDict(d) => d.vals != map[]
  }

  /** `str(v or "")`. */
  function ShowOr(v: Value, lib: Lib): string {
    if !Truthy(v) then "" else if v.VStr? then v.s else lib.show(v)
  }

  const COMPLETED := {"ok", "partial", "executed", "cancelled", "completed"}

  // ---- the four lists ----

  /** The latest text of a role that is not blank. */
  function LatestText(ts: seq<RecentTurn>, role: string): string {
    if ts == [] then ""
    else
      var n := |ts| - 1;
      if ts[n].role == role && Strip(ts[n].text) != "" then Strip(ts[n].text) else LatestText(ts[..n], role)
  }

  /** `_active_goals` before repetitions are dropped. */
  function GoalCandidates(s: SessionState, req: Request, policy: Policy): seq<string> {
    var pending := if s.pending.None? then None else CleanOptional(s.pending.value.intent);
    var latest := LatestText(s.recentTurns, "user");
    (if pending.Some? then ["continue " + pending.value] else [])
    + (if TextOr(req.intent) != "" then ["current_intent:" + TextOr(req.intent)] else [])
    + (if latest != "" then ["latest_user:" + Truncate(latest, policy.itemChars)] else [])
  }

  function StatusOf(t: RecentTurn, lib: Lib): string { Lower(Strip(ShowOr(Get(t.references, "status"), lib))) }

  /** An answer whose status settles what was asked. */
  predicate Settles(t: RecentTurn, lib: Lib) { t.role == "assistant" && StatusOf(t, lib) in COMPLETED }

  function DecisionOf(t: RecentTurn, lib: Lib): string {
    var intent := Lower(Strip(TextOr(t.intent)));
    (if intent == "" then "unknown" else intent) + ":" + StatusOf(t, lib)
  }

  /** The settling answers, the latest first. */
  function DecisionCandidates(ts: seq<RecentTurn>, lib: Lib): seq<string> {
    if ts == [] then []
    else
      var n := |ts| - 1;
      (if Settles(ts[n], lib) then [DecisionOf(ts[n], lib)] else []) + DecisionCandidates(ts[..n], lib)
  }

  function Take<T>(xs: seq<T>, n: nat): seq<T> { if |xs| <= n then xs else xs[..n] }

  function ShownEntity(e: TrackedEntity): Option<TrackedEntity> { if Strip(e.displayName) == "" then None else Some(e) }

  function EntityPhrase(policy: Policy): TrackedEntity -> string {
    (e: TrackedEntity) =>
      var domain := Lower(Strip(e.domain));
      (if domain == "" then "unknown" else domain) + ":" + Truncate(Strip(e.displayName), policy.itemChars)
  }

  /** The shown entities by salience and time of confirmation. */
  function EntityCandidates(es: seq<TrackedEntity>, policy: Policy, clock: EntityRegistryManager.Clock): seq<string> {
    MapSeq(EntityPhrase(policy), EntityRegistryManager.Ranked(Collect(ShownEntity, es), clock))
  }

  // ---- the text ----

  function Commas(parts: seq<string>): string {
    if parts == [] then "" else if |parts| == 1 then parts[0]
        else Commas(parts[..|parts| - 1]) + ", " + parts[|parts| - 1]
  }

  function Bars(parts: seq<string>): string {
    if parts == [] then "" else if |parts| == 1 then parts[0]
        else Bars(parts[..|parts| - 1]) + " | " + parts[|parts| - 1]
  }

  function Part(head: string, phrases: seq<string>, n: nat): seq<string> {
    if phrases == [] then [] else [head + Commas(Take(phrases, n))]
  }

  /** `_compose_summary_text`. */
  function ComposedText(goals: seq<string>, decisions: seq<string>, threads: seq<string>, entities: seq<string>,
                        route: Option<string>, policy: Policy): string
  {
    var clean := CleanOptional(route);
    var parts := (if clean.Some? then ["route=" + clean.value] else [])
                 + Part("goals=", goals, 2) + Part("resolved=", decisions, 2) + Part("open=", threads, 2)
                 + Part("entities=", entities, 3);
    Truncate(Bars(if parts == [] then ["no_context_highlights"] else parts), policy.textChars)
  }

  /** `_build_summary`, for the turns' own range. */
  function Worded(s: SessionState, req: Request, policy: Policy, range: seq<int>, lib: Lib,
      clock: EntityRegistryManager.Clock)
    : SessionSummary
  {
    var goals := Dedupe(GoalCandidates(s, req, policy), policy.items);
    var decisions := Dedupe(Take(DecisionCandidates(s.recentTurns, lib), policy.items), policy.items);
    var entities := Dedupe(Take(EntityCandidates(s.registry.entities, policy, clock), policy.items), policy.items);
    var threads := OpenThreads(s.pending);
    SessionSummary(ComposedText(goals, decisions, threads, entities, req.route, policy), goals, decisions, threads,
        entities,
                   Some(req.now), range)
  }

  // ---- what the wording keeps to ----

  /** A summary stays within its limits: its text, and each of its lists. */
  lemma WordedWithin(s: SessionState, req: Request, policy: Policy, range: seq<int>, lib: Lib,
      clock: EntityRegistryManager.Clock)
    requires policy.textChars >= 3 && policy.items > 0
    ensures var w := Worded(s, req, policy, range, lib, clock);
            && |w.text| <= policy.textChars && |w.openThreads| <= 1
            && |w.activeGoals| <= policy.items && |w.resolvedDecisions| <= policy.items
                && |w.importantEntities| <= policy.items
  {
    hide GoalCandidates, DecisionCandidates, EntityCandidates, OpenThreads, Firsts, Bars, Part, Take;
    OneThread(s.pending);
  }

  lemma OneThread(pending: Option<PendingInteraction>)
    ensures |OpenThreads(pending)| <= 1
  {
    hide Strip, Lower, NonEmptyOr, ParseStrList;
  }

  /** A decision candidate comes from a turn that settles something, and every such turn gives one. */
  lemma {:induction false} DecisionsAreSettled(ts: seq<RecentTurn>, lib: Lib)
    ensures forall v :: v in DecisionCandidates(ts, lib) <==>
              exists t :: t in ts && Settles(t, lib) && DecisionOf(t, lib) == v
  {
    hide Settles, DecisionOf;
    if ts != [] {
      DecisionsAreSettled(ts[..|ts| - 1], lib);
      assert ts == ts[..|ts| - 1] + [ts[|ts| - 1]];
    }
  }

  lemma WordedNormal(s: SessionState, req: Request, policy: Policy, range: seq<int>, lib: Lib,
      clock: EntityRegistryManager.Clock)
    requires policy.textChars > 3 && NonEmpty(req.now)
    ensures NormalSummary(Worded(s, req, policy, range, lib, clock))
  {
    hide Stripped, OpenThreads, Firsts, Truncate, GoalCandidates, DecisionCandidates, EntityCandidates, Take, Bars,
      Part;
    var goals := GoalCandidates(s, req, policy);
    var decisions := Take(DecisionCandidates(s.recentTurns, lib), policy.items);
    var entities := Take(EntityCandidates(s.registry.entities, policy, clock), policy.items);
    FirstsDistinct(goals);
    FirstsDistinct(decisions);
    FirstsDistinct(entities);
    OpenThreadsNormal(s.pending);
    ComposedStripped(Dedupe(goals, policy.items), Dedupe(decisions, policy.items), OpenThreads(s.pending),
                     Dedupe(entities, policy.items), req.route, policy);
  }

  lemma ComposedStripped(goals: seq<string>, decisions: seq<string>, threads: seq<string>, entities: seq<string>,
                         route: Option<string>, policy: Policy)
    requires policy.textChars > 3
    ensures Stripped(ComposedText(goals, decisions, threads, entities, route, policy))
  {
    hide Stripped, Truncate, Bars, Part;
    var clean := CleanOptional(route);
    var parts := (if clean.Some? then ["route=" + clean.value] else [])
                 + Part("goals=", goals, 2) + Part("resolved=", decisions, 2) + Part("open=", threads, 2)
                 + Part("entities=", entities, 3);
    TruncateStripped(Bars(if parts == [] then ["no_context_highlights"] else parts), policy.textChars);
  }

  // ---- loops ----

  method DedupeValues(values: seq<string>, limit: nat) returns (ordered: seq<string>)
    requires limit > 0
    ensures ordered == Dedupe(values, limit)
  {
    hide Strip, Lower;
    ordered := [];
    var seen: set<string> := {};
    for i := 0 to |values|
      invariant ordered == Firsts(values[..i]) && |ordered| < limit
      invariant forall low :: low in seen <==> exists y :: y in ordered && Lower(y) == low
    {
      assert values[..i + 1][..i] == values[..i];
      FirstsGrow(values, i + 1);
      var cleaned := Strip(values[i]);
      if cleaned == "" || Lower(cleaned) in seen { continue; }
      ordered := ordered + [cleaned];
      seen := seen + {Lower(cleaned)};
      if |ordered| >= limit { return; }
    }
    assert values[..|values|] == values;
  }

  method LatestTurnText(ts: seq<RecentTurn>, role: string) returns (text: string)
    ensures text == LatestText(ts, role)
  {
    hide Strip;
    var n := |ts|;
    assert ts[..n] == ts;
    while n > 0
      invariant 0 <= n <= |ts| && LatestText(ts, role) == LatestText(ts[..n], role)
    {
      assert ts[..n][..n - 1] == ts[..n - 1];
      n := n - 1;
      if ts[n].role != role { continue; }
      text := Strip(ts[n].text);
      if text != "" { return; }
    }
    text := "";
  }

  lemma DecisionStep(ts: seq<RecentTurn>, n: nat, lib: Lib)
    requires 0 < n <= |ts|
    ensures DecisionCandidates(ts[..n], lib)
         == (if Settles(ts[n - 1], lib) then [DecisionOf(ts[n - 1], lib)] else [])
             + DecisionCandidates(ts[..n - 1], lib)
  {
    hide Settles, DecisionOf;
    assert ts[..n][..n - 1] == ts[..n - 1];
  }

  lemma NoDecisions(lib: Lib)
    ensures DecisionCandidates([], lib) == []
  {}

  /** The settling answers from the latest back, until there are enough. */
  method ResolvedDecisions(ts: seq<RecentTurn>, limit: nat, lib: Lib) returns (values: seq<string>)
    requires limit > 0
    ensures values == Dedupe(Take(DecisionCandidates(ts, lib), limit), limit)
  {
    hide Settles, DecisionOf, Dedupe, DecisionCandidates;
    values := [];
    var n := |ts|;
    assert ts[..n] == ts;
    while n > 0 && |values| < limit
      invariant 0 <= n <= |ts| && |values| <= limit
      invariant DecisionCandidates(ts, lib) == values + DecisionCandidates(ts[..n], lib)
    {
      DecisionStep(ts, n, lib);
      n := n - 1;
      if Settles(ts[n], lib) { values := values + [DecisionOf(ts[n], lib)]; }
    }
    NoDecisions(lib);
    assert values == Take(DecisionCandidates(ts, lib), limit);
    values := DedupeValues(values, limit);
  }

  method ImportantEntities(es: seq<TrackedEntity>, policy: Policy, clock: EntityRegistryManager.Clock)
      returns (values: seq<string>)
    requires policy.items > 0
    ensures values == Dedupe(Take(EntityCandidates(es, policy, clock), policy.items), policy.items)
  {
    hide Dedupe, EntityPhrase, ShownEntity, EntityRegistryManager.Ranked;
    var shown := Gather(ShownEntity, es);
    var ranked := EntityRegistryManager.Ranked(shown, clock);
    values := [];
    while |values| < |ranked| && |values| < policy.items
      invariant |values| <= |ranked| && |values| <= policy.items
      invariant forall k :: 0 <= k < |values| ==> values[k] == EntityPhrase(policy)(ranked[k])
    {
      values := values + [EntityPhrase(policy)(ranked[|values|])];
    }
    assert values == Take(EntityCandidates(es, policy, clock), policy.items);
    values := DedupeValues(values, policy.items);
  }

  method ActiveGoals(s: SessionState, req: Request, policy: Policy) returns (goals: seq<string>)
    requires policy.items > 0
    ensures goals == Dedupe(GoalCandidates(s, req, policy), policy.items)
  {
    hide Dedupe, Truncate, LatestText, CleanOptional;
    goals := [];
    if s.pending.Some? {
      var intent := CleanOptional(s.pending.value.intent);
      if intent.Some? { goals := goals + ["continue " + intent.value]; }
    }
    if TextOr(req.intent) != "" { goals := goals + ["current_intent:" + TextOr(req.intent)]; }
    var latest := LatestTurnText(s.recentTurns, "user");
    if latest != "" { goals := goals + ["latest_user:" + Truncate(latest, policy.itemChars)]; }
    assert goals == GoalCandidates(s, req, policy);
    goals := DedupeValues(goals, policy.items);
  }

  method BuildSummary(s: SessionState, req: Request, policy: Policy, range: seq<int>, lib: Lib,
      clock: EntityRegistryManager.Clock)
    returns (summary: SessionSummary)
    requires policy.items > 0
    ensures summary == Worded(s, req, policy, range, lib, clock)
  {
    hide Dedupe, GoalCandidates, DecisionCandidates, EntityCandidates, OpenThreads, Take, ComposedText;
    var goals := ActiveGoals(s, req, policy);
    var decisions := ResolvedDecisions(s.recentTurns, policy.items, lib);
    var threads := OpenThreads(s.pending);
    var entities := ImportantEntities(s.registry.entities, policy, clock);
    var text := ComposedText(goals, decisions, threads, entities, req.route, policy);
    return SessionSummary(text, goals, decisions, threads, entities, Some(req.now), range);
  }
}
