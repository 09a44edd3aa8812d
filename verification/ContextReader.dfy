/** Deserialization in the source's form: parsing loops, and a state object the legacy adapters change in place. */
module ContextReader {
  import opened Prelude
  import opened Text
  import opened Values
  import opened ContextTypes
  import opened ContextSerialization

  /** The alias loop of `_parse_entity_registry`. */
  method CleanAliasMap(d: Dict) returns (out: Dict)
    ensures out == CleanAliases(d, d.keys)
  {
    out := EmptyDict;
    for i := 0 to |d.keys|
      invariant out == CleanAliases(d, d.keys[..i])
    {
      assert d.keys[..i + 1][..i] == d.keys[..i];
      var key, value := OptStr(VStr(d.keys[i])), OptStr(Get(d, d.keys[i]));
      if key.Some? && value.Some? {
        out := Put(out, key.value, VStr(value.value));
      }
    }
    assert d.keys[..|d.keys|] == d.keys;
  }

  method ParseRegistryLoop(v: Value, lib: Lib) returns (r: EntityRegistry)
    ensures r == ParseRegistry(v, lib)
  {
    if !v.VDict? { return EntityRegistry([], EmptyDict); }
    var entities := Gather(EntityParser(lib), Items(Get(v.d, "entities")));
    var aliases := CleanAliasMap(DictOr(Get(v.d, "alias_map")));
    return EntityRegistry(entities, aliases);
  }

  method ParseSummaryLoop(v: Value) returns (r: Result<SessionSummary, ContextError>)
    ensures r == ParseSummary(v)
  {
    if !v.VDict? { return Ok(NoSummary); }
    var range: seq<int> := [];
    if Has(v.d, "source_turn_range") {
      match Get(v.d, "source_turn_range") {
        case VList(items) => range := Gather(RangeItem, items);
        case VStr(_) =>
        case VDict(_) =>
        case _ => return Err(NotIterable);
      }
    }
    return Ok(SummaryFrom(v.d, range));
  }

  /** `_best_entity_name`. */
  method FindBestEntityName(s: SessionState, domain: string, entityType: string) returns (name: Option<string>)
    ensures name == BestEntityName(s, domain, entityType)
  {
    hide Strip;
    var entities := s.registry.entities;
    var best: Option<TrackedEntity> := None;
    for i := 0 to |entities|
      invariant best == BestEntity(entities[..i], domain, entityType)
    {
      assert entities[..i + 1][..i] == entities[..i];
      var e := entities[i];
      if e.domain != domain || e.entityType != entityType { continue; }
      if Strip(e.displayName) == "" { continue; }
      if best.None? || e.salience > best.value.salience { best := Some(e); }
    }
    assert entities[..|entities|] == entities;
    match best {
      case None => name := None;
      case Some(e) => name := OptStr(VStr(e.displayName));
    }
  }

  class SessionContext {
    var base: SessionState // the fields no adapter changes
    var pending: Option<PendingInteraction>
    var entities: seq<TrackedEntity>
    var annotations: Dict
    var channelRuntime: Dict
    var tokenSession: Dict

    function View(): SessionState
      reads this
    {
      base.(pending := pending, registry := base.registry.(entities := entities), annotations := annotations,
            channelRuntime := channelRuntime, tokenSession := tokenSession)
    }

    constructor (s: SessionState)
      ensures View() == s
    {
      base := s;
      pending, entities, annotations := s.pending, s.registry.entities, s.annotations;
      channelRuntime, tokenSession := s.channelRuntime, s.tokenSession;
    }

    /** `_ensure_legacy_entity`: append unless an entity of that name is there. */
    method EnsureLegacyEntity(v: Value, domain: string, entityType: string, key: string)
      modifies this`entities
      ensures View() == EnsureEntity(old(View()), v, domain, entityType, key)
    {
      hide OptStr, Lower;
      var name := OptStr(v);
      if name.None? { return; }
      for i := 0 to |entities|
        invariant entities == old(entities)
        invariant forall j :: 0 <= j < i ==> !Names(entities[j], domain, entityType, name.value)
      {
        if Names(entities[i], domain, entityType, name.value) {
          assert entities[i] in old(View()).registry.entities;
          return;
        }
      }
      assert !exists e | e in old(View()).registry.entities :: Names(e, domain, entityType, name.value);
      entities := entities + [LegacyEntity(domain, entityType, name.value, key)];
    }

    /** `_apply_legacy_adapters`. */
    method ApplyLegacyAdapters(raw: Dict, lib: Lib)
      modifies this
      ensures View() == Adapt(old(View()), raw, lib)
    {
      hide OptStr, EnsureEntity, AsInt, Get, LegacyPending, StickyRecord, Put;
      if pending.None? && Get(raw, "pending_clarification").VDict? {
        pending := Some(LegacyPending(Get(raw, "pending_clarification").d));
      }
      EnsureLegacyEntity(Get(raw, "last_list_name"), "lists", "list", "last_list_name");
      EnsureLegacyEntity(Get(raw, "last_switch_name"), "home", "switch", "last_switch_name");
      EnsureLegacyEntity(Get(raw, "last_calendar_person"), "calendar", "person", "last_calendar_person");
      var turns := AsInt(Get(raw, "main_sticky_followup_turns_remaining"), 0, lib);
      if turns > 0 && !Has(annotations, "main_sticky_followup") {
        annotations := Put(annotations, "main_sticky_followup", VDict(StickyRecord(turns, raw)));
      }
      if IsEmpty(tokenSession) && Get(raw, "main_agent_token_session").VDict? {
        tokenSession := Get(raw, "main_agent_token_session").d;
      }
      if IsEmpty(channelRuntime) && Get(raw, "channel_session").VDict? {
        channelRuntime := Get(raw, "channel_session").d;
      }
    }
  }

  /** `deserialize_session_context`. */
  method Deserialize(raw: Dict, lib: Lib) returns (r: Result<SessionState, ContextError>)
    ensures r == Read(raw, lib)
  {
    hide OptStr, NonEmptyOr, AsInt, Adapt, Get, ParseTurn, ParsePending, ParseRegistry, ParseSummary;
    var turns := Gather(ParseTurn, Items(Get(raw, "recent_turns")));
    var summary := ParseSummaryLoop(Get(raw, "session_summary"));
    if summary.Err? { return Err(summary.error); }
    var registry := ParseRegistryLoop(Get(raw, "entity_registry"), lib);
    var focus := Gather(OptStr, Items(Get(raw, "focus_stack")));
    var context := new SessionContext(SessionState(
      AsInt(Get(raw, "context_version"), CURRENT_SESSION_CONTEXT_VERSION, lib),
      NonEmptyOr(Get(raw, "active_agent_id"), "jarvis"), OptStr(Get(raw, "active_skill_id")), turns,
      ParsePending(Get(raw, "pending_interaction")), summary.value, registry, focus,
      DictOr(Get(raw, "context_annotations")), DictOr(Get(raw, "channel_runtime")),
      DictOr(Get(raw, "main_agent_token_session"))));
    context.ApplyLegacyAdapters(raw, lib);
    var s := context.View();
    return Ok(if s.version <= 0 then s.(version := CURRENT_SESSION_CONTEXT_VERSION) else s);
  }
}
