/** The session context state and its printed form. */
module ContextTypes {
  import opened Prelude
  import opened Values

  const CURRENT_SESSION_CONTEXT_VERSION := 1

  datatype RecentTurn = RecentTurn(
    turnId: Option<string>, role: string, text: string, normalizedText: string, intent: Option<string>,
    skillId: Option<string>, timestamp: Option<string>, references: Dict)

  datatype PendingInteraction = PendingInteraction(
    kind: string, intent: Option<string>, skillId: Option<string>, status: string, question: Option<string>,
    expectedFields: seq<string>, candidateEntities: seq<Dict>, proposedAction: Dict,
    createdAt: Option<string>, expiresAt: Option<string>, originTurnId: Option<string>, metadata: Dict)

  datatype TrackedEntity = TrackedEntity(
    domain: string, entityType: string, entityId: Option<string>, displayName: string, aliases: seq<string>,
    salience: real, lastConfirmedAt: Option<string>, hints: Dict)

  /** The alias map sends a normalized alias to a display name, as text values. */
  datatype EntityRegistry = EntityRegistry(entities: seq<TrackedEntity>, aliasMap: Dict)

  datatype SessionSummary = SessionSummary(
    text: string, activeGoals: seq<string>, resolvedDecisions: seq<string>, openThreads: seq<string>,
    importantEntities: seq<string>, lastUpdatedAt: Option<string>, sourceTurnRange: seq<int>)

  datatype SessionState = SessionState(
    version: int, activeAgentId: string, activeSkillId: Option<string>, recentTurns: seq<RecentTurn>,
    pending: Option<PendingInteraction>, summary: SessionSummary, registry: EntityRegistry,
    focusStack: seq<string>, annotations: Dict, channelRuntime: Dict, tokenSession: Dict)

  // ---- to_dict; the order of a record's own keys is never read ----

  function Fields(m: map<string, Value>): Dict { Dict([], m) }

  function OptValue(o: Option<string>): Value {
    match o case None => VNull case Some(s) => VStr(s)
  }

  function TextValue(s: string): Value { VStr(s) }

  function IntValue(i: int): Value { VInt(i) }

  function DictValue(d: Dict): Value { VDict(d) }

  function StrList(xs: seq<string>): Value { VList(MapSeq(TextValue, xs)) }

  function TurnValue(t: RecentTurn): Value {
    VDict(Fields(map[
      "turn_id" := OptValue(t.turnId), "role" := VStr(t.role), "text" := VStr(t.text),
      "normalized_text" := VStr(t.normalizedText), "intent" := OptValue(t.intent),
      "skill_id" := OptValue(t.skillId), "timestamp" := OptValue(t.timestamp), "references" := VDict(t.references)]))
  }

  function PendingValue(p: PendingInteraction): Value {
    VDict(Fields(map[
      "kind" := VStr(p.kind), "intent" := OptValue(p.intent), "skill_id" := OptValue(p.skillId),
      "status" := VStr(p.status), "question" := OptValue(p.question), "expected_fields" := StrList(p.expectedFields),
      "candidate_entities" := VList(MapSeq(DictValue, p.candidateEntities)),
          "proposed_action" := VDict(p.proposedAction),
      "created_at" := OptValue(p.createdAt), "expires_at" := OptValue(p.expiresAt),
      "origin_turn_id" := OptValue(p.originTurnId), "metadata" := VDict(p.metadata)]))
  }

  function EntityValue(e: TrackedEntity): Value {
    VDict(Fields(map[
      "domain" := VStr(e.domain), "entity_type" := VStr(e.entityType), "entity_id" := OptValue(e.entityId),
      "display_name" := VStr(e.displayName), "aliases" := StrList(e.aliases), "salience" := VFloat(e.salience),
      "last_confirmed_at" := OptValue(e.lastConfirmedAt), "resolution_hints" := VDict(e.hints)]))
  }

  function RegistryValue(r: EntityRegistry): Value {
    VDict(Fields(map["entities" := VList(MapSeq(EntityValue, r.entities)), "alias_map" := VDict(r.aliasMap)]))
  }

  function SummaryValue(s: SessionSummary): Value {
    VDict(Fields(map[
      "summary_text" := VStr(s.text), "active_goals" := StrList(s.activeGoals),
      "resolved_decisions" := StrList(s.resolvedDecisions), "open_threads" := StrList(s.openThreads),
      "important_entities" := StrList(s.importantEntities), "last_updated_at" := OptValue(s.lastUpdatedAt),
      "source_turn_range" := VList(MapSeq(IntValue, s.sourceTurnRange))]))
  }

  /** What a state is stored under. */
  const STATE_FIELDS := [
    "context_version", "active_agent_id", "active_skill_id", "recent_turns", "pending_interaction", "session_summary",
    "entity_registry", "focus_stack", "context_annotations", "channel_runtime", "main_agent_token_session"]

  /** The printed value of the field at a position. */
  function FieldValue(s: SessionState, i: nat): Value {
    match i
    case 0 => VInt(MaxInt(1, if s.version == 0 then CURRENT_SESSION_CONTEXT_VERSION else s.version))
    case 1 => VStr(s.activeAgentId)
    case 2 => OptValue(s.activeSkillId)
    case 3 => VList(MapSeq(TurnValue, s.recentTurns))
    case 4 => (match s.pending case None => VNull case Some(p) => PendingValue(p))
    case 5 => SummaryValue(s.summary)
    case 6 => RegistryValue(s.registry)
    case 7 => StrList(s.focusStack)
    case 8 => VDict(s.annotations)
    case 9 => VDict(s.channelRuntime)
    case _ => VDict(s.tokenSession)
  }

  function StateValues(s: SessionState): (r: seq<Value>)
    ensures |r| == |STATE_FIELDS|
  {
    seq(|STATE_FIELDS|, i requires 0 <= i => FieldValue(s, i))
  }

  /** Names with their values; a later name wins. */
  function Record(names: seq<string>, values: seq<Value>): map<string, Value>
    requires |names| == |values|
  {
    if names == [] then map[]
    else
      var n := |names| - 1;
      Record(names[..n], values[..n])[names[n] := values[n]]
  }

  /** `serialize_session_context`. */
  function Serialize(s: SessionState): Dict { Fields(Record(STATE_FIELDS, StateValues(s))) }

  /** `merged = dict(a); merged.update(b)`. */
  function Merge(a: Dict, b: Dict): Dict {
    Dict(a.keys + b.keys, a.vals + b.vals)
  }

  /** What a session keeps between requests. */
  class SessionRecord {
    var contextReference: Dict

    constructor (context: Dict)
      ensures contextReference == context
    {
      contextReference := context;
    }
  }
}
