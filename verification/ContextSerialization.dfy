/** Reading a stored session context, legacy keys included, and printing it back. */
module ContextSerialization {
  import opened Prelude
  import opened Text
  import opened Values
  import opened ContextTypes

  /** Python built-ins on text and odd values: int(), float(), dict(), str(). */
  datatype Lib = Lib(
    toInt: string -> Option<int>, toFloat: string -> Option<real>, dictOf: Value -> Option<Dict>, show: Value -> string)

  /** `for item in x` over a value that cannot be iterated, or `dict(x)` over one that has no pairs. */
  datatype ContextError = NotIterable

  // ---- scalars ----

  function OptStr(v: Value): Option<string> {
    if v.VStr? && Strip(v.s) != "" then Some(Strip(v.s)) else None
  }

  function NonEmptyOr(v: Value, default: string): string {
    match OptStr(v) case Some(s) => s case None => default
  }

  function Truncated(r: real): int {
    if r >= 0.0 then r.Floor else -((-r).Floor)
  }

  function AsInt(v: Value, default: int, lib: Lib): int {
    match v
    case VBool(b) => if b then 1 else 0
    case VInt(i) => i
    case VFloat(r) => Truncated(r)
    case VStr(s) =>
      if Strip(s) == "" then default else (match lib.toInt(Strip(s)) case Some(i) => i case None => default)
    case _ => default
  }

  function AsFloat(v: Value, default: real, lib: Lib): real {
    match v
    case VBool(b) => if b then 1.0 else 0.0
    case VInt(i) => i as real
    case VFloat(r) => r
    case VStr(s) =>
      if Strip(s) == "" then default else (match lib.toFloat(Strip(s)) case Some(r) => r case None => default)
    case _ => default
  }

  // ---- lists and records ----

  function Items(v: Value): seq<Value> {
    if v.VList? then v.items else []
  }

  function DictOr(v: Value): Dict {
    if v.VDict? then v.d else EmptyDict
  }

  function AsDict(v: Value): Option<Dict> {
    if v.VDict? then Some(v.d) else None
  }

  function ParseStrList(v: Value): seq<string> { Collect(OptStr, Items(v)) }

  function ParseDictList(v: Value): seq<Dict> { Collect(AsDict, Items(v)) }

  function ParseTurn(v: Value): Option<RecentTurn> {
    if !v.VDict? then None
    else
      Some(RecentTurn(
        OptStr(Get(v.d, "turn_id")), NonEmptyOr(Get(v.d, "role"), ""), NonEmptyOr(Get(v.d, "text"), ""),
        NonEmptyOr(Get(v.d, "normalized_text"), ""), OptStr(Get(v.d, "intent")), OptStr(Get(v.d, "skill_id")),
        OptStr(Get(v.d, "timestamp")), DictOr(Get(v.d, "references"))))
  }

  function ParsePending(v: Value): Option<PendingInteraction> {
    if !v.VDict? then None
    else
      Some(PendingInteraction(
        NonEmptyOr(Get(v.d, "kind"), "clarification"), OptStr(Get(v.d, "intent")), OptStr(Get(v.d, "skill_id")),
        NonEmptyOr(Get(v.d, "status"), "pending"), OptStr(Get(v.d, "question")),
        ParseStrList(Get(v.d, "expected_fields")), ParseDictList(Get(v.d, "candidate_entities")),
        DictOr(Get(v.d, "proposed_action")), OptStr(Get(v.d, "created_at")), OptStr(Get(v.d, "expires_at")),
        OptStr(Get(v.d, "origin_turn_id")), DictOr(Get(v.d, "metadata"))))
  }

  function RangeItem(v: Value): Option<int> {
    match v
    case VInt(i) => Some(i)
    case VBool(b) => Some(if b then 1 else 0)
    case VFloat(r) => Some(Truncated(r))
    case _ => None
  }

  /** Iterating text or a dictionary yields text only, which is skipped. */
  function ParseRange(d: Dict): Result<seq<int>, ContextError> {
    if !Has(d, "source_turn_range") then Ok([])
    else
      match Get(d, "source_turn_range")
      case VList(items) => Ok(Collect(RangeItem, items))
      case VStr(_) => Ok([])
      case VDict(_) => Ok([])
      case _ => Err(NotIterable)
  }

  const NoSummary := SessionSummary("", [], [], [], [], None, [])

  function SummaryFrom(d: Dict, range: seq<int>): SessionSummary {
    SessionSummary(
      NonEmptyOr(Get(d, "summary_text"), ""), ParseStrList(Get(d, "active_goals")),
      ParseStrList(Get(d, "resolved_decisions")), ParseStrList(Get(d, "open_threads")),
      ParseStrList(Get(d, "important_entities")), OptStr(Get(d, "last_updated_at")), range)
  }

  function ParseSummary(v: Value): Result<SessionSummary, ContextError> {
    if !v.VDict? then Ok(NoSummary)
    else
      match ParseRange(v.d)
      case Err(e) => Err(e)
      case Ok(range) => Ok(SummaryFrom(v.d, range))
  }

  function EntityFrom(d: Dict, lib: Lib): TrackedEntity {
    TrackedEntity(
      NonEmptyOr(Get(d, "domain"), ""), NonEmptyOr(Get(d, "entity_type"), ""), OptStr(Get(d, "entity_id")),
      NonEmptyOr(Get(d, "display_name"), ""), ParseStrList(Get(d, "aliases")), AsFloat(Get(d, "salience"), 0.0, lib),
      OptStr(Get(d, "last_confirmed_at")), DictOr(Get(d, "resolution_hints")))
  }

  function EntityParser(lib: Lib): Value -> Option<TrackedEntity> {
    (v: Value) => if v.VDict? then Some(EntityFrom(v.d, lib)) else None
  }

  /** The alias entries under the given keys, stripped; a later entry for the same alias wins. */
  function CleanAliases(d: Dict, keys: seq<string>): Dict {
    if keys == [] then EmptyDict
    else
      var rest, k := CleanAliases(d, keys[..|keys| - 1]), keys[|keys| - 1];
      if OptStr(VStr(k)).Some? && OptStr(Get(d, k)).Some?
      then Put(rest, OptStr(VStr(k)).value, VStr(OptStr(Get(d, k)).value)) else rest
  }

  function ParseRegistry(v: Value, lib: Lib): EntityRegistry {
    if !v.VDict? then EntityRegistry([], EmptyDict)
    else
      var aliases := DictOr(Get(v.d, "alias_map"));
      EntityRegistry(Collect(EntityParser(lib), Items(Get(v.d, "entities"))), CleanAliases(aliases, aliases.keys))
  }

  // ---- reading ----

  function ReadBase(raw: Dict, lib: Lib): Result<SessionState, ContextError> {
    match ParseSummary(Get(raw, "session_summary"))
    case Err(e) => Err(e)
    case Ok(summary) =>
      Ok(SessionState(
        AsInt(Get(raw, "context_version"), CURRENT_SESSION_CONTEXT_VERSION, lib),
        NonEmptyOr(Get(raw, "active_agent_id"), "jarvis"),
        OptStr(Get(raw, "active_skill_id")),
        Collect(ParseTurn, Items(Get(raw, "recent_turns"))),
        ParsePending(Get(raw, "pending_interaction")),
        summary,
        ParseRegistry(Get(raw, "entity_registry"), lib),
        ParseStrList(Get(raw, "focus_stack")),
        DictOr(Get(raw, "context_annotations")),
        DictOr(Get(raw, "channel_runtime")),
        DictOr(Get(raw, "main_agent_token_session"))))
  }

  function LegacyPending(d: Dict): PendingInteraction {
    PendingInteraction(
      "missing_field", OptStr(Get(d, "intent")), None, "pending", OptStr(Get(d, "question")),
      ParseStrList(Get(d, "missing_fields")), [],
      Dict(["entities"], map["entities" := VDict(DictOr(Get(d, "entities")))]), None, None, None,
      Dict(["legacy_source"], map["legacy_source" := VStr("pending_clarification")]))
  }

  function AdaptPending(s: SessionState, raw: Dict): SessionState {
    if s.pending.None? && Get(raw, "pending_clarification").VDict?
    then s.(pending := Some(LegacyPending(Get(raw, "pending_clarification").d))) else s
  }

  predicate Names(e: TrackedEntity, domain: string, entityType: string, name: string) {
    e.domain == domain && e.entityType == entityType && Lower(e.displayName) == Lower(name)
  }

  function LegacyEntity(domain: string, entityType: string, name: string, key: string): TrackedEntity {
    TrackedEntity(domain, entityType, None, name, [Lower(name)], 0.8, None,
                  Dict(["legacy_key"], map["legacy_key" := VStr(key)]))
  }

  function EnsureEntity(s: SessionState, v: Value, domain: string, entityType: string, key: string): SessionState {
    match OptStr(v)
    case None => s
    case Some(name) =>
      if exists e | e in s.registry.entities :: Names(e, domain, entityType, name) then s
      else s.(registry := s.registry.(entities := s.registry.entities + [LegacyEntity(domain, entityType, name, key)]))
  }

  function AdaptEntities(s: SessionState, raw: Dict): SessionState {
    var s1 := EnsureEntity(s, Get(raw, "last_list_name"), "lists", "list", "last_list_name");
    var s2 := EnsureEntity(s1, Get(raw, "last_switch_name"), "home", "switch", "last_switch_name");
    EnsureEntity(s2, Get(raw, "last_calendar_person"), "calendar", "person", "last_calendar_person")
  }

  function StickyRecord(turns: int, raw: Dict): Dict {
    Dict(["turns_remaining", "reason", "legacy_source"],
         map["turns_remaining" := VInt(turns),
             "reason" := VStr(NonEmptyOr(Get(raw, "main_sticky_followup_reason"), "clarification")),
             "legacy_source" := VStr("main_sticky_followup_turns_remaining")])
  }

  function AdaptSticky(s: SessionState, raw: Dict, lib: Lib): SessionState {
    var turns := AsInt(Get(raw, "main_sticky_followup_turns_remaining"), 0, lib);
    if turns > 0 && !Has(s.annotations, "main_sticky_followup")
    then s.(annotations := Put(s.annotations, "main_sticky_followup", VDict(StickyRecord(turns, raw)))) else s
  }

  predicate IsEmpty(d: Dict) { d.vals == map[] }

  function AdaptRuntime(s: SessionState, raw: Dict): SessionState {
    var s1 := if IsEmpty(s.tokenSession) && Get(raw, "main_agent_token_session").VDict?
              then s.(tokenSession := Get(raw, "main_agent_token_session").d) else s;
    if IsEmpty(s1.channelRuntime) && Get(raw, "channel_session").VDict?
    then s1.(channelRuntime := Get(raw, "channel_session").d) else s1
  }

  /** `_apply_legacy_adapters`. */
  function Adapt(s: SessionState, raw: Dict, lib: Lib): SessionState {
    AdaptRuntime(AdaptSticky(AdaptEntities(AdaptPending(s, raw), raw), raw, lib), raw)
  }

  function FixVersion(s: SessionState): SessionState {
    if s.version <= 0 then s.(version := CURRENT_SESSION_CONTEXT_VERSION) else s
  }

  /** `deserialize_session_context`. */
  function Read(raw: Dict, lib: Lib): Result<SessionState, ContextError> {
    match ReadBase(raw, lib)
    case Err(e) => Err(e)
    case Ok(s) => Ok(FixVersion(Adapt(s, raw, lib)))
  }

  // ---- the legacy-compatible view ----

  function BestOf(best: Option<TrackedEntity>, e: TrackedEntity, domain: string,
      entityType: string): Option<TrackedEntity>
  {
    if e.domain != domain || e.entityType != entityType || Strip(e.displayName) == "" then best
    else if best.None? || e.salience > best.value.salience then Some(e) else best
  }

  function BestEntity(es: seq<TrackedEntity>, domain: string, entityType: string): Option<TrackedEntity> {
    if es == [] then None
    else BestOf(BestEntity(es[..|es| - 1], domain, entityType), es[|es| - 1], domain, entityType)
  }

  function BestEntityName(s: SessionState, domain: string, entityType: string): Option<string> {
    match BestEntity(s.registry.entities, domain, entityType)
    case None => None
    case Some(e) => OptStr(VStr(e.displayName))
  }

  function With(d: Dict, k: string, o: Option<string>): Dict {
    match o case None => d case Some(s) => Put(d, k, VStr(s))
  }

  /** `dict(proposed_action.get("entities", {}))`. */
  function CompatEntities(p: PendingInteraction, lib: Lib): Result<Dict, ContextError> {
    if !Has(p.proposedAction, "entities") then Ok(EmptyDict)
    else
      match Get(p.proposedAction, "entities")
      case VDict(d) => Ok(d)
      case other => match lib.dictOf(other) case Some(d) => Ok(d) case None => Err(NotIterable)
  }

  function CompatPending(c: Dict, s: SessionState, lib: Lib): Result<Dict, ContextError> {
    match s.pending
    case None => Ok(c)
    case Some(p) =>
      match CompatEntities(p, lib)
      case Err(e) => Err(e)
      case Ok(entities) =>
        Ok(Put(c, "pending_clarification", VDict(Fields(map[
          "intent" := OptValue(p.intent), "entities" := VDict(entities),
          "missing_fields" := StrList(p.expectedFields), "question" := OptValue(p.question)]))))
  }

  function CompatNames(c: Dict, s: SessionState): Dict {
    With(With(With(c, "last_list_name", BestEntityName(s, "lists", "list")),
              "last_switch_name", BestEntityName(s, "home", "switch")),
         "last_calendar_person", BestEntityName(s, "calendar", "person"))
  }

  function CompatSticky(c: Dict, s: SessionState, lib: Lib): Dict {
    match Get(s.annotations, "main_sticky_followup")
    case VDict(sticky) =>
      var turns := AsInt(Get(sticky, "turns_remaining"), 0, lib);
      if turns <= 0 then c
      else With(Put(c, "main_sticky_followup_turns_remaining", VInt(turns)), "main_sticky_followup_reason",
                OptStr(Get(sticky, "reason")))
    case _ => c
  }

  function CompatRuntime(c: Dict, s: SessionState): Dict {
    var c1 := if IsEmpty(s.tokenSession) then c else Put(c, "main_agent_token_session", VDict(s.tokenSession));
    if IsEmpty(s.channelRuntime) then c1 else Put(c1, "channel_session", VDict(s.channelRuntime))
  }

  /** `session_context_to_legacy_compat_dict`. */
  function Compat(s: SessionState, lib: Lib): Result<Dict, ContextError> {
    match CompatPending(Serialize(s), s, lib)
    case Err(e) => Err(e)
    case Ok(c) => Ok(CompatRuntime(CompatSticky(CompatNames(c, s), s, lib), s))
  }
}
