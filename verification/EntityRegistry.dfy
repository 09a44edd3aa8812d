/** The entity registry: upsert, alias index, pruning, and recording a batch in a session. */
module EntityRegistryManager {
  import opened Prelude
  import opened Text
  import opened Values
  import opened EntityNames
  import opened ContextTypes
  import opened ContextSerialization

  /** One recorded entity, its fields as text; no salience means it is not a number. `readAt` is what the
      clock says when this payload is upserted. */
  datatype Payload = Payload(
    domain: string, entityType: string, displayName: string, aliases: seq<string>, salience: Option<real>,
    lastConfirmedAt: string, entityId: string, hints: Dict, readAt: string)

  function CleanDomain(p: Payload): string { Lower(Strip(p.domain)) }
  function CleanType(p: Payload): string { Lower(Strip(p.entityType)) }
  function CleanName(p: Payload): string { Strip(p.displayName) }

  predicate Usable(p: Payload) {
    CleanDomain(p) != "" && CleanType(p) != "" && CleanName(p) != ""
  }

  function OptText(s: string): Option<string> {
    if Strip(s) == "" then None else Some(Strip(s))
  }

  // ---- aliases ----

  function NonEmptyNormal(s: string): Option<string> {
    if Normalize(s) == "" then None else Some(Normalize(s))
  }

  /** The forms of a name without its article or its trailing "list". */
  function ShortForms(base: string): seq<string> {
    (if EndsWith(base, " list") then [Strip(base[..|base| - 5])] else [])
    + (if StartsWith(base, "the ") then [Strip(base[4..])] else [])
    + (if StartsWith(base, "my ") then [Strip(base[3..])] else [])
  }

  function NonEmptyText(s: string): Option<string> { if s == "" then None else Some(s) }

  /** `_normalize_aliases`. */
  function NormalizeAliases(displayName: string, aliases: seq<string>): seq<string> {
    var base := Normalize(displayName);
    InsertAll([], Collect(NonEmptyText, [base] + Collect(NonEmptyNormal, aliases) + ShortForms(base)))
  }

  function AliasSet(aliases: seq<string>): set<string> {
    set a | a in aliases && a != "" :: Normalize(a)
  }

  // ---- finding ----

  /** Any of the four ways an upsert recognizes an entity. */
  predicate Recognized(e: TrackedEntity, domain: string, entityType: string, name: string, aliases: seq<string>) {
    && e.domain == domain && e.entityType == entityType
    && var target, wanted := Normalize(name), AliasSet(aliases);
       var candidate, known := Normalize(e.displayName), AliasSet(e.aliases);
       || candidate == target
       || (target != "" && target in known)
       || (candidate != "" && candidate in wanted)
       || known * wanted != {}
  }

  function Recognizer(domain: string, entityType: string, name: string, aliases: seq<string>): TrackedEntity -> bool {
    (e: TrackedEntity) => Recognized(e, domain, entityType, name, aliases)
  }

  function FirstRecognized(es: seq<TrackedEntity>, domain: string, entityType: string, name: string,
      aliases: seq<string>): nat
  {
    First(Recognizer(domain, entityType, name, aliases), es)
  }

  // ---- upsert ----

  function ClampSalience(s: Option<real>): real {
    match s case None => 0.5 case Some(r) => MaxReal(0.0, MinReal(r, 1.0))
  }

  function ConfirmedAt(p: Payload): string {
    if Strip(p.lastConfirmedAt) == "" then p.readAt else Strip(p.lastConfirmedAt)
  }

  function NewEntity(p: Payload): TrackedEntity {
    TrackedEntity(CleanDomain(p), CleanType(p), OptText(p.entityId), CleanName(p),
                  NormalizeAliases(CleanName(p), p.aliases), ClampSalience(p.salience), Some(ConfirmedAt(p)), p.hints)
  }

  function NextSalience(before: real, after: real): real {
    var next := MaxReal(before, after);
    if next - before > 0.000001 then next else before
  }

  function Updated(d: Dict, more: Dict): Dict { Dict(d.keys + more.keys, d.vals + more.vals) }

  function MergeHints(d: Dict, more: Dict): Dict {
    if IsEmpty(more) || (d.vals + more.vals) == d.vals then d else Updated(d, more)
  }

  /** An existing entity after an upsert; every field is only rewritten when it changes. */
  function MergeEntity(e: TrackedEntity, p: Payload): TrackedEntity {
    e.(entityId := if OptText(p.entityId).Some? then OptText(p.entityId) else e.entityId,
       displayName := CleanName(p),
       aliases := InsertAll(InsertAll([], e.aliases), NormalizeAliases(CleanName(p), p.aliases)),
       salience := NextSalience(e.salience, ClampSalience(p.salience)),
       lastConfirmedAt := Some(ConfirmedAt(p)),
       hints := MergeHints(e.hints, p.hints))
  }

  // ---- the alias index ----

  function AddAliases(m: Dict, display: string, aliases: seq<string>): Dict {
    if aliases == [] then m
    else
      var rest, alias := AddAliases(m, display, aliases[..|aliases| - 1]), Normalize(aliases[|aliases| - 1]);
      if alias == "" then rest else Put(rest, alias, VStr(display))
  }

  function AddEntity(m: Dict, e: TrackedEntity): Dict {
    if Strip(e.displayName) == "" then m else AddAliases(m, Strip(e.displayName), e.aliases)
  }

  /** The index rebuilt from the entities in order; a later entity wins an alias. */
  function Index(es: seq<TrackedEntity>): Dict {
    if es == [] then EmptyDict else AddEntity(Index(es[..|es| - 1]), es[|es| - 1])
  }

  function UpsertAt(r: EntityRegistry, i: nat, p: Payload): (EntityRegistry, bool)
    requires i <= |r.entities|
  {
    if i == |r.entities| then
      var es := r.entities + [NewEntity(p)];
      (EntityRegistry(es, Index(es)), true)
    else
      var merged := MergeEntity(r.entities[i], p);
      if merged == r.entities[i] then (r, false)
      else
        var es := r.entities[i := merged];
        (EntityRegistry(es, Index(es)), true)
  }

  function TargetOf(r: EntityRegistry, p: Payload): nat {
    FirstRecognized(r.entities, CleanDomain(p), CleanType(p), CleanName(p), NormalizeAliases(CleanName(p), p.aliases))
  }

  /** `_upsert_entity`: the registry after it and whether it changed. */
  function Upsert(r: EntityRegistry, p: Payload): (EntityRegistry, bool) {
    if !Usable(p) then (r, false) else UpsertAt(r, TargetOf(r, p), p)
  }

  function UpsertAll(r: EntityRegistry, ps: seq<Payload>): EntityRegistry {
    if ps == [] then r else Upsert(UpsertAll(r, ps[..|ps| - 1]), ps[|ps| - 1]).0
  }

  function ChangedCount(r: EntityRegistry, ps: seq<Payload>): nat {
    if ps == [] then 0
    else
      var n := ChangedCount(r, ps[..|ps| - 1]);
      if Upsert(UpsertAll(r, ps[..|ps| - 1]), ps[|ps| - 1]).1 then n + 1 else n
  }

  // ---- pruning ----

  /** `datetime.fromisoformat(...)`, with unreadable or missing times at 0. */
  type Clock = string -> real

  function StampOf(e: TrackedEntity, clock: Clock): real {
    if e.lastConfirmedAt.None? || Strip(e.lastConfirmedAt.value) == "" then 0.0 else clock(e.lastConfirmedAt.value)
  }

  /** Strictly higher by (salience, last_confirmed_at). */
  predicate Outranks(a: TrackedEntity, b: TrackedEntity, clock: Clock) {
    a.salience > b.salience || (a.salience == b.salience && StampOf(a, clock) > StampOf(b, clock))
  }

  /** Place after everything that is not outranked: `sorted(..., reverse=True)` is stable. */
  function Place(es: seq<TrackedEntity>, e: TrackedEntity, clock: Clock): (r: seq<TrackedEntity>)
    ensures multiset(r) == multiset(es) + multiset{e} && |r| == |es| + 1
  {
    if es == [] then [e]
    else if Outranks(e, es[|es| - 1], clock) then
      var r := Place(es[..|es| - 1], e, clock) + [es[|es| - 1]];
      assert es == es[..|es| - 1] + [es[|es| - 1]];
      r
    else es + [e]
  }

  function Ranked(es: seq<TrackedEntity>, clock: Clock): (r: seq<TrackedEntity>)
    ensures multiset(r) == multiset(es) && |r| == |es|
  {
    if es == [] then []
    else
      assert es == es[..|es| - 1] + [es[|es| - 1]];
      Place(Ranked(es[..|es| - 1], clock), es[|es| - 1], clock)
  }

  function Prune(r: EntityRegistry, maxEntities: nat, clock: Clock): EntityRegistry {
    if |r.entities| <= maxEntities then r
    else
      var kept := Ranked(r.entities, clock)[..maxEntities];
      EntityRegistry(kept, Index(kept))
  }

  // ---- in place ----

  class RegistryObject {
    var entities: seq<TrackedEntity>
    var aliasMap: Dict

    function View(): EntityRegistry
      reads this
    {
      EntityRegistry(entities, aliasMap)
    }

    constructor (r: EntityRegistry)
      ensures View() == r
    {
      entities, aliasMap := r.entities, r.aliasMap;
    }

    /** `_sync_alias_map`. */
    method SyncAliasMap()
      modifies this`aliasMap
      ensures aliasMap == Index(entities)
    {
      hide Normalize, Strip;
      var index := EmptyDict;
      for i := 0 to |entities|
        invariant index == Index(entities[..i])
      {
        assert entities[..i + 1][..i] == entities[..i];
        var e := entities[i];
        var display := Strip(e.displayName);
        if display == "" { continue; }
        var before := index;
        for j := 0 to |e.aliases|
          invariant index == AddAliases(before, display, e.aliases[..j])
        {
          assert e.aliases[..j + 1][..j] == e.aliases[..j];
          var alias := Normalize(e.aliases[j]);
          if alias != "" { index := Put(index, alias, VStr(display)); }
        }
        assert e.aliases[..|e.aliases|] == e.aliases;
      }
      assert entities[..|entities|] == entities;
      aliasMap := index;
    }

    /** `_find_existing`: the first entity recognized, or the length of the list. */
    method FindExisting(domain: string, entityType: string, name: string, aliases: seq<string>) returns (i: nat)
      ensures i == FirstRecognized(entities, domain, entityType, name, aliases) && i <= |entities|
    {
      hide Recognizer;
      i := FindFirst(Recognizer(domain, entityType, name, aliases), entities);
    }

    /** `_upsert_entity`: field by field, noting whether anything changed. */
    method UpsertEntity(p: Payload) returns (changed: bool)
      modifies this
      ensures (View(), changed) == Upsert(old(View()), p)
    {
      hide Normalize, NormalizeAliases, Strip, Lower, InsertAll, FirstRecognized, Index, Recognized;
      var domain, entityType, name := CleanDomain(p), CleanType(p), CleanName(p);
      if domain == "" || entityType == "" || name == "" { return false; }
      var aliases := NormalizeAliases(name, p.aliases);
      var i := FindExisting(domain, entityType, name, aliases);
      if i == |entities| {
        entities := entities + [NewEntity(p)];
        SyncAliasMap();
        return true;
      }
      var e := entities[i];
      changed := false;
      if OptText(p.entityId).Some? && e.entityId != OptText(p.entityId) {
        e := e.(entityId := OptText(p.entityId));
        changed := true;
      }
      if e.displayName != name {
        e := e.(displayName := name);
        changed := true;
      }
      var merged := InsertAll(InsertAll([], e.aliases), aliases);
      if merged != e.aliases {
        e := e.(aliases := merged);
        changed := true;
      }
      var next := MaxReal(e.salience, ClampSalience(p.salience));
      if next - e.salience > 0.000001 {
        e := e.(salience := next);
        changed := true;
      }
      if e.lastConfirmedAt != Some(ConfirmedAt(p)) {
        e := e.(lastConfirmedAt := Some(ConfirmedAt(p)));
        changed := true;
      }
      if !IsEmpty(p.hints) && e.hints.vals + p.hints.vals != e.hints.vals {
        e := e.(hints := Updated(e.hints, p.hints));
        changed := true;
      }
      assert e == MergeEntity(old(entities[i]), p);
      if changed {
        entities := entities[i := e];
        SyncAliasMap();
      }
    }

    /** `_prune_registry`. */
    method PruneRegistry(maxEntities: nat, clock: Clock)
      modifies this
      ensures View() == Prune(old(View()), maxEntities, clock)
    {
      if |entities| <= maxEntities { return; }
      var ranked := Ranked(entities, clock);
      entities := ranked[..maxEntities];
      SyncAliasMap();
    }
  }

  /** The registry that a batch leaves, if it changes anything. */
  function Recorded(r: EntityRegistry, ps: seq<Payload>, maxEntities: nat, clock: Clock): EntityRegistry {
    Prune(UpsertAll(r, ps), maxEntities, clock)
  }

  /** The stored context after `record_entities`: unchanged unless some upsert changes something. */
  function RecordedEntities(d: Dict, ps: seq<Payload>, maxEntities: nat, lib: Lib, clock: Clock): Dict {
    if ps == [] || Read(d, lib).Err? then d
    else
      var s := Read(d, lib).value;
      if ChangedCount(s.registry, ps) == 0 then d
      else Merge(d, Serialize(s.(registry := Recorded(s.registry, ps, maxEntities, clock))))
  }

  class Manager {
    const maxEntities: nat

    constructor (limit: int)
      ensures maxEntities >= 8 && (limit >= 8 ==> maxEntities == limit)
    {
      maxEntities := MaxInt(8, limit);
    }

    /** `record_entities`. */
    method RecordEntities(session: SessionRecord, ps: seq<Payload>, lib: Lib, clock: Clock)
      returns (r: Result<(bool, nat, nat), ContextError>)
      modifies session
      ensures session.contextReference == RecordedEntities(old(session.contextReference), ps, maxEntities, lib, clock)
      ensures var read := Read(old(session.contextReference), lib);
              r == if ps == [] then Ok((false, 0, 0))
                   else if read.Err? then Err(read.error)
                   else
                     var registry, n := read.value.registry, ChangedCount(read.value.registry, ps);
                     var after := if n == 0 then registry else Recorded(registry, ps, maxEntities, clock);
                     Ok((n > 0, n, |after.entities|))
    {
      hide Read, Upsert, Prune, Serialize, Merge;
      if ps == [] { return Ok((false, 0, 0)); }
      var read := Read(session.contextReference, lib);
      if read.Err? { return Err(read.error); }
      var s := read.value;
      var registry := new RegistryObject(s.registry);
      var count: nat := 0;
      for i := 0 to |ps|
        invariant registry.View() == UpsertAll(s.registry, ps[..i])
        invariant count == ChangedCount(s.registry, ps[..i])
        invariant session.contextReference == old(session.contextReference)
      {
        assert ps[..i + 1][..i] == ps[..i];
        var changed := registry.UpsertEntity(ps[i]);
        if changed { count := count + 1; }
      }
      assert ps[..|ps|] == ps;
      NothingChanged(s.registry, ps);
      if count == 0 { return Ok((false, 0, |registry.entities|)); }
      registry.PruneRegistry(maxEntities, clock);
      session.contextReference := Merge(session.contextReference, Serialize(s.(registry := registry.View())));
      return Ok((true, count, |registry.entities|));
    }
  }

  lemma {:induction false} NothingChanged(r: EntityRegistry, ps: seq<Payload>)
    ensures ChangedCount(r, ps) == 0 ==> UpsertAll(r, ps) == r
  {
    if ps != [] {
      NothingChanged(r, ps[..|ps| - 1]);
      UnchangedUpsert(UpsertAll(r, ps[..|ps| - 1]), ps[|ps| - 1]);
      hide Upsert;
    }
  }

  lemma UnchangedUpsert(r: EntityRegistry, p: Payload)
    ensures !Upsert(r, p).1 ==> Upsert(r, p).0 == r
  {
    hide Normalize, NormalizeAliases, Strip, Lower, FirstRecognized, Index, MergeEntity, NewEntity;
  }
}
