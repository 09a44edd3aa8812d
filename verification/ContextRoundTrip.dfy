/** Printing and reading agree: migration is idempotent and the legacy view reads back to the same state. */
module ContextRoundTrip {
  import opened Prelude
  import opened Text
  import opened Values
  import opened ContextTypes
  import opened ContextSerialization

  // ---- what reading produces ----

  predicate NonEmpty(s: string) { s != "" && Stripped(s) }

  predicate NormalOpt(o: Option<string>) { o.Some? ==> NonEmpty(o.value) }

  predicate NormalList(xs: seq<string>) { forall x :: x in xs ==> NonEmpty(x) }

  predicate NormalTurn(t: RecentTurn) {
    && NormalOpt(t.turnId) && Stripped(t.role) && Stripped(t.text) && Stripped(t.normalizedText)
    && NormalOpt(t.intent) && NormalOpt(t.skillId) && NormalOpt(t.timestamp)
  }

  predicate NormalPending(p: PendingInteraction) {
    && NonEmpty(p.kind) && NormalOpt(p.intent) && NormalOpt(p.skillId) && NonEmpty(p.status) && NormalOpt(p.question)
    && NormalList(p.expectedFields) && NormalOpt(p.createdAt) && NormalOpt(p.expiresAt) && NormalOpt(p.originTurnId)
  }

  predicate NormalEntity(e: TrackedEntity) {
    && Stripped(e.domain) && Stripped(e.entityType) && NormalOpt(e.entityId) && Stripped(e.displayName)
    && NormalList(e.aliases) && NormalOpt(e.lastConfirmedAt)
  }

  /** Distinct stripped aliases, each with a stripped display name. */
  ghost predicate NormalAliases(d: Dict) {
    && (forall i, j :: 0 <= i < j < |d.keys| ==> d.keys[i] != d.keys[j])
    && (forall k :: k in d.vals <==> k in d.keys)
    && (forall k :: k in d.vals ==> NonEmpty(k) && d.vals[k].VStr? && NonEmpty(d.vals[k].s))
  }

  predicate NormalSummary(s: SessionSummary) {
    && Stripped(s.text) && NormalList(s.activeGoals) && NormalList(s.resolvedDecisions)
    && NormalList(s.openThreads) && NormalList(s.importantEntities) && NormalOpt(s.lastUpdatedAt)
  }

  ghost predicate NormalRegistry(r: EntityRegistry) {
    && (forall e :: e in r.entities ==> NormalEntity(e))
    && NormalAliases(r.aliasMap)
  }

  /** Everything but the turns is as reading would leave it. */
  ghost predicate NormalButTurns(s: SessionState) {
    && s.version >= 1 && NonEmpty(s.activeAgentId) && NormalOpt(s.activeSkillId)
    && (s.pending.Some? ==> NormalPending(s.pending.value))
    && NormalSummary(s.summary) && NormalRegistry(s.registry) && NormalList(s.focusStack)
  }

  ghost predicate Normal(s: SessionState) {
    NormalButTurns(s) && forall t :: t in s.recentTurns ==> NormalTurn(t)
  }

  lemma OptStrNormal(v: Value)
    ensures NormalOpt(OptStr(v))
  {}

  lemma NonEmptyOrNormal(v: Value, default: string)
    ensures Stripped(default) ==> Stripped(NonEmptyOr(v, default))
    ensures NonEmpty(default) ==> NonEmpty(NonEmptyOr(v, default))
  {}

  lemma StrListNormal(v: Value)
    ensures NormalList(ParseStrList(v))
  {
    forall x | x in Items(v) && OptStr(x).Some? ensures NonEmpty(OptStr(x).value) { OptStrNormal(x); }
    CollectForall(OptStr, Items(v), x => NonEmpty(x));
  }

  lemma TurnNormal(v: Value)
    ensures ParseTurn(v).Some? ==> NormalTurn(ParseTurn(v).value)
  {
    hide Strip, Stripped, Get;
    StrippedEmpty();
    NormalFields();
  }

  lemma StrippedEmpty()
    ensures Stripped("") && NonEmpty("clarification") && NonEmpty("pending") && NonEmpty("missing_field")
              && NonEmpty("jarvis")
  {}

  /** The three field parsers only produce normal fields. */
  lemma NormalFields()
    ensures forall v {:trigger OptStr(v)} :: NormalOpt(OptStr(v))
    ensures forall v, d {:trigger NonEmptyOr(v, d)} :: Stripped(d) ==> Stripped(NonEmptyOr(v, d))
    ensures forall v, d {:trigger NonEmptyOr(v, d)} :: NonEmpty(d) ==> NonEmpty(NonEmptyOr(v, d))
    ensures forall v {:trigger ParseStrList(v)} :: NormalList(ParseStrList(v))
  {
    forall v ensures NormalList(ParseStrList(v)) { StrListNormal(v); }
  }

  lemma PendingNormal(v: Value)
    ensures ParsePending(v).Some? ==> NormalPending(ParsePending(v).value)
  {
    hide Strip, Stripped, Get, OptStr, NonEmptyOr, ParseStrList, NormalOpt, NormalList, NonEmpty;
    StrippedEmpty();
    NormalFields();
  }

  lemma LegacyPendingNormal(d: Dict)
    ensures NormalPending(LegacyPending(d))
  {
    hide Strip, Get, OptStr, ParseStrList, NormalList;
    StrippedEmpty();
    NormalFields();
  }

  lemma EntityNormal(d: Dict, lib: Lib)
    ensures NormalEntity(EntityFrom(d, lib))
  {
    hide Strip, Stripped, Get, AsFloat, ParseStrList, NormalOpt, NormalList, OptStr, NonEmptyOr;
    StrippedEmpty();
    NormalFields();
  }

  lemma EntitiesNormal(items: seq<Value>, lib: Lib)
    ensures forall e :: e in Collect(EntityParser(lib), items) ==> NormalEntity(e)
  {
    forall x | x in items && EntityParser(lib)(x).Some? ensures NormalEntity(EntityParser(lib)(x).value) {
      EntityNormal(x.d, lib);
    }
    CollectForall(EntityParser(lib), items, e => NormalEntity(e));
  }

  lemma PutKeepsAliases(d: Dict, k: string, v: string)
    requires NormalAliases(d) && NonEmpty(k) && NonEmpty(v)
    ensures NormalAliases(Put(d, k, VStr(v)))
  {
    hide Stripped;
    var r := Put(d, k, VStr(v));
    forall x ensures x in r.vals <==> x in r.keys {
      if k !in d.vals { assert x in r.keys <==> x in d.keys || x == k; }
    }
  }

  lemma {:induction false} CleanAliasesNormal(d: Dict, keys: seq<string>)
    ensures NormalAliases(CleanAliases(d, keys))
  {
    if keys != [] {
      var k := keys[|keys| - 1];
      CleanAliasesNormal(d, keys[..|keys| - 1]);
      OptStrNormal(VStr(k));
      OptStrNormal(Get(d, k));
      hide Strip, Stripped, NormalAliases;
      if OptStr(VStr(k)).Some? && OptStr(Get(d, k)).Some? {
        PutKeepsAliases(CleanAliases(d, keys[..|keys| - 1]), OptStr(VStr(k)).value, OptStr(Get(d, k)).value);
      }
    }
  }

  lemma RegistryNormal(v: Value, lib: Lib)
    ensures NormalRegistry(ParseRegistry(v, lib))
  {
    hide NormalEntity, NormalAliases;
    assert NormalAliases(EmptyDict) by { CleanAliasesNormal(EmptyDict, []); }
    if v.VDict? {
      EntitiesNormal(Items(Get(v.d, "entities")), lib);
      var aliases := DictOr(Get(v.d, "alias_map"));
      CleanAliasesNormal(aliases, aliases.keys);
    }
  }

  lemma SummaryNormal(v: Value)
    ensures ParseSummary(v).Ok? ==> NormalSummary(ParseSummary(v).value)
  {
    hide Strip, Get, ParseStrList, OptStr, NonEmptyOr, ParseRange;
    NormalFields();
  }

  /** Whatever is read, except that a non-positive version is still to be fixed. */
  lemma {:induction false} ReadBaseNormal(raw: Dict, lib: Lib)
    requires ReadBase(raw, lib).Ok?
    ensures var s := ReadBase(raw, lib).value;
            Normal(s.(version := MaxInt(1, s.version)))
  {
    hide Strip, Stripped, Get, NormalTurn, NormalPending, NormalSummary, NormalRegistry, ParseTurn, ParsePending,
      ParseSummary, ParseRegistry, OptStr, NonEmptyOr, ParseStrList, NormalOpt, NormalList, NonEmpty, AsInt;
    NormalFields();
    StrippedEmpty();
    SummaryNormal(Get(raw, "session_summary"));
    RegistryNormal(Get(raw, "entity_registry"), lib);
    PendingNormal(Get(raw, "pending_interaction"));
    forall x | x in Items(Get(raw, "recent_turns")) && ParseTurn(x).Some? ensures NormalTurn(ParseTurn(x).value) {
      TurnNormal(x);
    }
    CollectForall(ParseTurn, Items(Get(raw, "recent_turns")), t => NormalTurn(t));
  }

  // ---- adapting keeps it normal ----

  lemma EnsureEntityNormal(s: SessionState, v: Value, domain: string, entityType: string, key: string)
    requires Normal(s) && Stripped(domain) && Stripped(entityType)
    ensures Normal(EnsureEntity(s, v, domain, entityType, key))
  {
    hide Strip, NormalTurn, NormalPending, NormalSummary, NormalAliases, Names, Get;
    OptStrNormal(v);
    if OptStr(v).Some? {
      var name := OptStr(v).value;
      LowerKeepsStripped(name);
      assert NormalEntity(LegacyEntity(domain, entityType, name, key));
    }
  }

  lemma {:induction false} AdaptNormal(s: SessionState, raw: Dict, lib: Lib)
    requires Normal(s)
    ensures Normal(Adapt(s, raw, lib))
  {
    hide Strip, NormalTurn, NormalPending, NormalSummary, NormalRegistry, NormalList, NormalOpt, NonEmpty,
      EnsureEntity, LegacyPending, StickyRecord, AsInt, Put, Get, Lower;
    if Get(raw, "pending_clarification").VDict? { LegacyPendingNormal(Get(raw, "pending_clarification").d); }
    var s0 := AdaptPending(s, raw);
    EnsureEntityNormal(s0, Get(raw, "last_list_name"), "lists", "list", "last_list_name");
    var s1 := EnsureEntity(s0, Get(raw, "last_list_name"), "lists", "list", "last_list_name");
    EnsureEntityNormal(s1, Get(raw, "last_switch_name"), "home", "switch", "last_switch_name");
    var s2 := EnsureEntity(s1, Get(raw, "last_switch_name"), "home", "switch", "last_switch_name");
    EnsureEntityNormal(s2, Get(raw, "last_calendar_person"), "calendar", "person", "last_calendar_person");
  }

  lemma EnsureIgnoresVersion(s: SessionState, v: Value, domain: string, entityType: string, key: string, n: int)
    ensures EnsureEntity(s.(version := n), v, domain, entityType, key) ==
            EnsureEntity(s, v, domain, entityType, key).(version := n)
  {
    hide OptStr, Names, LegacyEntity;
  }

  lemma EntitiesIgnoreVersion(s: SessionState, raw: Dict, n: int)
    ensures AdaptEntities(s.(version := n), raw) == AdaptEntities(s, raw).(version := n)
  {
    hide EnsureEntity, Get;
    var a, b, c := Get(raw, "last_list_name"), Get(raw, "last_switch_name"), Get(raw, "last_calendar_person");
    var s1 := EnsureEntity(s, a, "lists", "list", "last_list_name");
    var s2 := EnsureEntity(s1, b, "home", "switch", "last_switch_name");
    EnsureIgnoresVersion(s, a, "lists", "list", "last_list_name", n);
    EnsureIgnoresVersion(s1, b, "home", "switch", "last_switch_name", n);
    EnsureIgnoresVersion(s2, c, "calendar", "person", "last_calendar_person", n);
  }

  lemma SimplePartsIgnoreVersion(s: SessionState, raw: Dict, lib: Lib, n: int)
    ensures AdaptPending(s.(version := n), raw) == AdaptPending(s, raw).(version := n)
    ensures AdaptSticky(s.(version := n), raw, lib) == AdaptSticky(s, raw, lib).(version := n)
    ensures AdaptRuntime(s.(version := n), raw) == AdaptRuntime(s, raw).(version := n)
  {
    hide LegacyPending, StickyRecord, AsInt, Put, Get;
  }

  /** Adapters neither look at the version nor change it. */
  lemma {:induction false} AdaptIgnoresVersion(s: SessionState, raw: Dict, lib: Lib, n: int)
    ensures Adapt(s.(version := n), raw, lib) == Adapt(s, raw, lib).(version := n)
  {
    hide AdaptPending, AdaptEntities, AdaptSticky, AdaptRuntime;
    var s1 := AdaptPending(s, raw);
    var s2 := AdaptEntities(s1, raw);
    var s3 := AdaptSticky(s2, raw, lib);
    SimplePartsIgnoreVersion(s, raw, lib, n);
    EntitiesIgnoreVersion(s1, raw, n);
    SimplePartsIgnoreVersion(s2, raw, lib, n);
    SimplePartsIgnoreVersion(s3, raw, lib, n);
  }

  /** The state that comes back is always normal. */
  lemma ReadNormal(raw: Dict, lib: Lib)
    requires Read(raw, lib).Ok?
    ensures Normal(Read(raw, lib).value)
  {
    hide ReadBase, Adapt, NormalTurn, NormalButTurns;
    var s := ReadBase(raw, lib).value;
    ReadBaseNormal(raw, lib);
    AdaptIgnoresVersion(s, raw, lib, MaxInt(1, s.version));
    AdaptNormal(s.(version := MaxInt(1, s.version)), raw, lib);
    AdaptIgnoresVersion(s, raw, lib, s.version);
    assert s.(version := s.version) == s;
  }

  // ---- reading back what was printed ----

  lemma OptRound(o: Option<string>)
    requires NormalOpt(o)
    ensures OptStr(OptValue(o)) == o
  {
    if o.Some? { StripFixed(o.value); }
  }

  lemma StrListRound(xs: seq<string>)
    requires NormalList(xs)
    ensures ParseStrList(StrList(xs)) == xs
  {
    var vs := MapSeq(TextValue, xs);
    forall i | 0 <= i < |xs| ensures OptStr(vs[i]) == Some(xs[i]) {
      assert xs[i] in xs;
      StripFixed(xs[i]);
    }
    CollectAll(OptStr, vs, xs);
  }

  lemma NonEmptyOrRound(s: string, default: string)
    requires Stripped(s) && (s == "" ==> default == "")
    ensures NonEmptyOr(VStr(s), default) == s
  {
    StripFixed(s);
  }

  /** What reading makes of a printed turn: its text fields are stripped. */
  function Restrip(t: RecentTurn): RecentTurn {
    RecentTurn(
      OptStr(OptValue(t.turnId)), Strip(t.role), Strip(t.text), Strip(t.normalizedText), OptStr(OptValue(t.intent)),
      OptStr(OptValue(t.skillId)), OptStr(OptValue(t.timestamp)), t.references)
  }

  lemma {:induction false} TurnRound(t: RecentTurn)
    ensures ParseTurn(TurnValue(t)) == Some(Restrip(t))
    ensures NormalTurn(t) ==> Restrip(t) == t
  {
    hide Strip, Stripped, OptStr, NormalOpt;
    assert forall s :: NonEmptyOr(VStr(s), "") == Strip(s) by {
      forall s ensures NonEmptyOr(VStr(s), "") == Strip(s) { StripTotal(s); }
    }
    if NormalTurn(t) {
      OptRound(t.turnId);
      OptRound(t.intent);
      OptRound(t.skillId);
      OptRound(t.timestamp);
      StripFixed(t.role);
      StripFixed(t.text);
      StripFixed(t.normalizedText);
    }
  }

  lemma StripTotal(s: string)
    ensures NonEmptyOr(VStr(s), "") == Strip(s)
  {}

  lemma {:induction false} TurnsRound(ts: seq<RecentTurn>)
    ensures Collect(ParseTurn, MapSeq(TurnValue, ts)) == MapSeq(Restrip, ts)
    ensures (forall t :: t in ts ==> NormalTurn(t)) ==> MapSeq(Restrip, ts) == ts
  {
    hide ParseTurn, TurnValue, Restrip, NormalTurn;
    var vs := MapSeq(TurnValue, ts);
    forall i | 0 <= i < |ts|
      ensures ParseTurn(vs[i]) == Some(MapSeq(Restrip, ts)[i]) && (NormalTurn(ts[i]) ==> Restrip(ts[i]) == ts[i])
    {
      TurnRound(ts[i]);
    }
    CollectAll(ParseTurn, vs, MapSeq(Restrip, ts));
  }

  lemma PendingRound(p: PendingInteraction)
    requires NormalPending(p)
    ensures ParsePending(PendingValue(p)) == Some(p)
  {
    hide Strip, OptStr, ParseStrList, StrList, NormalList, NonEmptyOr, NormalOpt;
    OptRound(p.intent);
    OptRound(p.skillId);
    OptRound(p.question);
    OptRound(p.createdAt);
    OptRound(p.expiresAt);
    OptRound(p.originTurnId);
    StrListRound(p.expectedFields);
    NonEmptyOrRound(p.kind, "clarification");
    NonEmptyOrRound(p.status, "pending");
    CollectAll(AsDict, MapSeq(DictValue, p.candidateEntities), p.candidateEntities);
  }

  lemma EntityRound(e: TrackedEntity, lib: Lib)
    requires NormalEntity(e)
    ensures EntityParser(lib)(EntityValue(e)) == Some(e)
  {
    hide Strip, OptStr, ParseStrList, StrList, NormalList, NonEmptyOr, NormalOpt;
    OptRound(e.entityId);
    OptRound(e.lastConfirmedAt);
    StrListRound(e.aliases);
    NonEmptyOrRound(e.domain, "");
    NonEmptyOrRound(e.entityType, "");
    NonEmptyOrRound(e.displayName, "");
  }

  /** The part of the alias map under its first `n` keys. */
  ghost function FirstAliases(d: Dict, n: nat): Dict
    requires NormalAliases(d) && n <= |d.keys|
  {
    Dict(d.keys[..n], map k | k in d.keys[..n] :: d.vals[k])
  }

  lemma AliasStep(d: Dict, n: nat)
    requires NormalAliases(d) && 0 < n <= |d.keys|
    ensures Put(FirstAliases(d, n - 1), d.keys[n - 1], d.vals[d.keys[n - 1]]) == FirstAliases(d, n)
  {
    hide NonEmpty;
    var k, rest := d.keys[n - 1], FirstAliases(d, n - 1);
    assert d.keys[..n] == d.keys[..n - 1] + [k];
    assert k !in rest.vals;
    assert rest.vals[k := d.vals[k]] == FirstAliases(d, n).vals;
  }

  lemma {:induction false} AliasesRound(d: Dict, n: nat)
    requires NormalAliases(d) && n <= |d.keys|
    ensures CleanAliases(d, d.keys[..n]) == FirstAliases(d, n)
  {
    if n > 0 {
      var k := d.keys[n - 1];
      assert d.keys[..n][..n - 1] == d.keys[..n - 1];
      AliasesRound(d, n - 1);
      AliasStep(d, n);
      assert k in d.vals;
      StripFixed(k);
      StripFixed(d.vals[k].s);
      hide Strip, Stripped, FirstAliases;
    }
  }

  lemma {:induction false} RegistryRound(r: EntityRegistry, lib: Lib)
    requires NormalRegistry(r)
    ensures ParseRegistry(RegistryValue(r), lib) == r
  {
    hide EntityValue, EntityParser, NormalEntity, CleanAliases;
    var vs := MapSeq(EntityValue, r.entities);
    forall i | 0 <= i < |r.entities| ensures EntityParser(lib)(vs[i]) == Some(r.entities[i]) {
      assert r.entities[i] in r.entities;
      EntityRound(r.entities[i], lib);
    }
    CollectAll(EntityParser(lib), vs, r.entities);
    AliasesRound(r.aliasMap, |r.aliasMap.keys|);
    var d := r.aliasMap;
    assert d.keys[..|d.keys|] == d.keys;
    assert FirstAliases(d, |d.keys|).vals == d.vals;
  }

  lemma SummaryRound(s: SessionSummary)
    requires NormalSummary(s)
    ensures ParseSummary(SummaryValue(s)) == Ok(s)
  {
    hide Strip, OptStr, ParseStrList, StrList, NormalList, NonEmptyOr, NormalOpt;
    OptRound(s.lastUpdatedAt);
    StrListRound(s.activeGoals);
    StrListRound(s.resolvedDecisions);
    StrListRound(s.openThreads);
    StrListRound(s.importantEntities);
    NonEmptyOrRound(s.text, "");
    CollectAll(RangeItem, MapSeq(IntValue, s.sourceTurnRange), s.sourceTurnRange);
  }

  /** Each field of the printed state, as reading looks it up. */
  ghost predicate Printed(d: Dict, s: SessionState) {
    && Get(d, "context_version")
         == VInt(MaxInt(1, if s.version == 0 then CURRENT_SESSION_CONTEXT_VERSION else s.version))
    && Get(d, "active_agent_id") == VStr(s.activeAgentId)
    && Get(d, "active_skill_id") == OptValue(s.activeSkillId)
    && Get(d, "recent_turns") == VList(MapSeq(TurnValue, s.recentTurns))
    && Get(d, "pending_interaction") == (match s.pending case None => VNull case Some(p) => PendingValue(p))
    && Get(d, "session_summary") == SummaryValue(s.summary)
    && Get(d, "entity_registry") == RegistryValue(s.registry)
    && Get(d, "focus_stack") == StrList(s.focusStack)
    && Get(d, "context_annotations") == VDict(s.annotations)
    && Get(d, "channel_runtime") == VDict(s.channelRuntime)
    && Get(d, "main_agent_token_session") == VDict(s.tokenSession)
  }

  lemma {:induction false} RecordHas(names: seq<string>, values: seq<Value>)
    requires |names| == |values| && forall i, j :: 0 <= i < j < |names| ==> names[i] != names[j]
    ensures forall k :: k in Record(names, values) <==> k in names
    ensures forall i :: 0 <= i < |names| ==> Record(names, values)[names[i]] == values[i]
  {
    if names != [] { RecordHas(names[..|names| - 1], values[..|names| - 1]); }
  }

  lemma FieldsDistinct()
    ensures forall i, j :: 0 <= i < j < |STATE_FIELDS| ==> STATE_FIELDS[i] != STATE_FIELDS[j]
  {}

  lemma SerializedFields(s: SessionState)
    ensures forall k :: k in Serialize(s).vals <==> k in STATE_FIELDS
    ensures forall i :: 0 <= i < |STATE_FIELDS| ==> Get(Serialize(s), STATE_FIELDS[i]) == StateValues(s)[i]
  {
    hide Record, StateValues, STATE_FIELDS;
    FieldsDistinct();
    RecordHas(STATE_FIELDS, StateValues(s));
  }

  lemma FieldByField(d: Dict, s: SessionState)
    requires forall i :: 0 <= i < |STATE_FIELDS| ==> Get(d, STATE_FIELDS[i]) == StateValues(s)[i]
    ensures Printed(d, s)
  {
    hide TurnValue, PendingValue, SummaryValue, RegistryValue, StrList, OptValue, Get;
    assert forall i :: 0 <= i < |STATE_FIELDS| ==> Get(d, STATE_FIELDS[i]) == StateValues(s)[i];
    var f, v := STATE_FIELDS, StateValues(s);
    assert Get(d, f[0]) == v[0] && Get(d, f[1]) == v[1] && Get(d, f[2]) == v[2] && Get(d, f[3]) == v[3];
    assert Get(d, f[4]) == v[4] && Get(d, f[5]) == v[5] && Get(d, f[6]) == v[6] && Get(d, f[7]) == v[7];
    assert Get(d, f[8]) == v[8] && Get(d, f[9]) == v[9] && Get(d, f[10]) == v[10];
  }

  lemma PrintedFields(s: SessionState)
    ensures Printed(Serialize(s), s)
  {
    hide Serialize, StateValues, Printed;
    SerializedFields(s);
    FieldByField(Serialize(s), s);
  }

  lemma {:induction false} MergePrints(raw: Dict, s: SessionState)
    ensures Printed(Merge(raw, Serialize(s)), s)
  {
    hide Serialize, StateValues, Printed, STATE_FIELDS;
    SerializedFields(s);
    FieldByField(Merge(raw, Serialize(s)), s);
  }

  /** Reading a printed state gives it back, with the turns' text stripped. */
  lemma {:induction false} ReadBasePrinted(d: Dict, s: SessionState, lib: Lib)
    requires Printed(d, s) && NormalButTurns(s)
    ensures ReadBase(d, lib) == Ok(s.(recentTurns := MapSeq(Restrip, s.recentTurns)))
  {
    hide TurnValue, PendingValue, SummaryValue, RegistryValue, StrList, Strip, Get, ParseTurn, ParsePending,
      ParseSummary, ParseRegistry, OptStr, NonEmptyOr, ParseStrList, Restrip, NormalPending, NormalSummary,
      NormalRegistry, NormalList, NormalOpt;
    OptRound(s.activeSkillId);
    NonEmptyOrRound(s.activeAgentId, "jarvis");
    TurnsRound(s.recentTurns);
    if s.pending.Some? { PendingRound(s.pending.value); }
    NullIsNoPending();
    SummaryRound(s.summary);
    RegistryRound(s.registry, lib);
    StrListRound(s.focusStack);
  }

  lemma NullIsNoPending()
    ensures ParsePending(VNull) == None
  {}

  /** The legacy keys of `raw` have nothing to add to `s`. */
  ghost predicate Absorbed(s: SessionState, raw: Dict, lib: Lib) {
    Adapt(s, raw, lib) == s
  }

  lemma {:induction false} ReadPrinted(d: Dict, s: SessionState, lib: Lib)
    requires Printed(d, s) && Normal(s) && Absorbed(s, d, lib)
    ensures Read(d, lib) == Ok(s)
  {
    hide Printed, Adapt, NormalTurn, ReadBase;
    ReadBasePrinted(d, s, lib);
    TurnsRound(s.recentTurns);
  }

  // ---- adapters add nothing the second time ----

  ghost predicate AbsorbsEntity(s: SessionState, v: Value, domain: string, entityType: string) {
    OptStr(v).Some? ==> exists e :: e in s.registry.entities && Names(e, domain, entityType, OptStr(v).value)
  }

  ghost predicate AbsorbsLegacy(s: SessionState, raw: Dict, lib: Lib) {
    && (s.pending.None? ==> !Get(raw, "pending_clarification").VDict?)
    && AbsorbsEntity(s, Get(raw, "last_list_name"), "lists", "list")
    && AbsorbsEntity(s, Get(raw, "last_switch_name"), "home", "switch")
    && AbsorbsEntity(s, Get(raw, "last_calendar_person"), "calendar", "person")
    && (AsInt(Get(raw, "main_sticky_followup_turns_remaining"), 0, lib) > 0 ==>
        Has(s.annotations, "main_sticky_followup"))
    && (IsEmpty(s.tokenSession) && Get(raw, "main_agent_token_session").VDict? ==>
          s.tokenSession == Get(raw, "main_agent_token_session").d)
    && (IsEmpty(s.channelRuntime) && Get(raw, "channel_session").VDict? ==>
          s.channelRuntime == Get(raw, "channel_session").d)
  }

  lemma AbsorbsIsAbsorbed(s: SessionState, raw: Dict, lib: Lib)
    requires AbsorbsLegacy(s, raw, lib)
    ensures Absorbed(s, raw, lib)
  {
    hide Strip, LegacyPending, StickyRecord, AsInt, Put, Get, Names, OptStr, LegacyEntity;
  }

  lemma EnsureAbsorbs(s: SessionState, v: Value, domain: string, entityType: string, key: string)
    ensures AbsorbsEntity(EnsureEntity(s, v, domain, entityType, key), v, domain, entityType)
    ensures forall e :: e in s.registry.entities ==> e in EnsureEntity(s, v, domain, entityType, key).registry.entities
  {
    hide Strip, Get, Lower;
    if OptStr(v).Some? {
      var name := OptStr(v).value;
      var after := EnsureEntity(s, v, domain, entityType, key);
      if !exists e | e in s.registry.entities :: Names(e, domain, entityType, name) {
        var added := LegacyEntity(domain, entityType, name, key);
        assert after.registry.entities == s.registry.entities + [added];
        assert added in after.registry.entities && Names(added, domain, entityType, name);
      }
    }
  }

  lemma AbsorbsMore(s: SessionState, t: SessionState, v: Value, domain: string, entityType: string)
    requires AbsorbsEntity(s, v, domain, entityType)
    requires forall e :: e in s.registry.entities ==> e in t.registry.entities
    ensures AbsorbsEntity(t, v, domain, entityType)
  {
    hide Names, OptStr;
  }

  lemma EntitiesAbsorb(s: SessionState, raw: Dict)
    ensures var t := AdaptEntities(s, raw);
            && AbsorbsEntity(t, Get(raw, "last_list_name"), "lists", "list")
            && AbsorbsEntity(t, Get(raw, "last_switch_name"), "home", "switch")
            && AbsorbsEntity(t, Get(raw, "last_calendar_person"), "calendar", "person")
  {
    hide Get, EnsureEntity, AbsorbsEntity;
    var a, b, c := Get(raw, "last_list_name"), Get(raw, "last_switch_name"), Get(raw, "last_calendar_person");
    var s1 := EnsureEntity(s, a, "lists", "list", "last_list_name");
    var s2 := EnsureEntity(s1, b, "home", "switch", "last_switch_name");
    var s3 := EnsureEntity(s2, c, "calendar", "person", "last_calendar_person");
    EnsureAbsorbs(s, a, "lists", "list", "last_list_name");
    EnsureAbsorbs(s1, b, "home", "switch", "last_switch_name");
    EnsureAbsorbs(s2, c, "calendar", "person", "last_calendar_person");
    AbsorbsMore(s1, s2, a, "lists", "list");
    AbsorbsMore(s2, s3, a, "lists", "list");
    AbsorbsMore(s2, s3, b, "home", "switch");
  }

  lemma EntitiesOnly(s: SessionState, raw: Dict)
    ensures AdaptEntities(s, raw) == s.(registry := AdaptEntities(s, raw).registry)
  {
    hide Get, OptStr, Names, LegacyEntity;
  }

  lemma AdaptAbsorbs(s: SessionState, raw: Dict, lib: Lib)
    ensures AbsorbsLegacy(Adapt(s, raw, lib), raw, lib)
  {
    hide Strip, LegacyPending, StickyRecord, AsInt, Get, OptStr, Names, AdaptEntities;
    EntitiesAbsorb(AdaptPending(s, raw), raw);
    EntitiesOnly(AdaptPending(s, raw), raw);
  }

  /** The legacy keys that printing does not touch are still there after a merge. */
  lemma MergeKeepsLegacy(raw: Dict, s: SessionState, k: string)
    requires k !in Serialize(s).vals
    ensures Get(Merge(raw, Serialize(s)), k) == Get(raw, k)
  {}

  lemma LegacyKeysNotPrinted(s: SessionState)
    ensures var p := Serialize(s).vals;
            && "pending_clarification" !in p && "last_list_name" !in p && "last_switch_name" !in p
            && "last_calendar_person" !in p && "main_sticky_followup_turns_remaining" !in p && "channel_session" !in p
  {
    hide Serialize, StateValues, STATE_FIELDS;
    SerializedFields(s);
    LegacyNamesNotFields();
    LegacySessionsNotFields();
  }

  lemma LegacyNamesNotFields()
    ensures "last_list_name" !in STATE_FIELDS && "last_switch_name" !in STATE_FIELDS
    ensures "last_calendar_person" !in STATE_FIELDS
  {}

  lemma LegacySessionsNotFields()
    ensures "pending_clarification" !in STATE_FIELDS && "channel_session" !in STATE_FIELDS
    ensures "main_sticky_followup_turns_remaining" !in STATE_FIELDS
  {}

  /** Migration is idempotent: reading, merging the printed state back over the stored one with its legacy
      keys kept, and reading again gives the same state, for every stored dictionary that can be read. */
  lemma {:induction false} MigrationIdempotent(raw: Dict, lib: Lib)
    requires Read(raw, lib).Ok?
    ensures Read(Merge(raw, Serialize(Read(raw, lib).value)), lib) == Read(raw, lib)
  {
    var s := Read(raw, lib).value;
    var merged := Merge(raw, Serialize(s));
    ReadNormal(raw, lib);
    MergePrints(raw, s);
    ReadAbsorbs(raw, lib);
    LegacyKeysNotPrinted(s);
    hide Serialize, Merge, Printed, Read, Normal, AsInt, Get, AbsorbsEntity;
    MergeKeepsLegacy(raw, s, "pending_clarification");
    MergeKeepsLegacy(raw, s, "last_list_name");
    MergeKeepsLegacy(raw, s, "last_switch_name");
    MergeKeepsLegacy(raw, s, "last_calendar_person");
    MergeKeepsLegacy(raw, s, "main_sticky_followup_turns_remaining");
    MergeKeepsLegacy(raw, s, "channel_session");
    assert Get(merged, "main_agent_token_session") == VDict(s.tokenSession) by { MergedToken(raw, s); }
    AbsorbsIsAbsorbed(s, merged, lib);
    ReadPrinted(merged, s, lib);
  }

  lemma MergedToken(raw: Dict, s: SessionState)
    ensures Get(Merge(raw, Serialize(s)), "main_agent_token_session") == VDict(s.tokenSession)
  {
    MergePrints(raw, s);
    hide Serialize, Merge;
  }

  lemma ReadAbsorbs(raw: Dict, lib: Lib)
    requires Read(raw, lib).Ok?
    ensures AbsorbsLegacy(Read(raw, lib).value, raw, lib)
  {
    hide ReadBase, Adapt, AsInt, Get, OptStr, Names;
    AdaptAbsorbs(ReadBase(raw, lib).value, raw, lib);
  }

  /** Reading fails exactly on a summary whose turn range is present but cannot be iterated. Numbers are finite
      here; on an infinity or NaN the source's int() raises too. */
  lemma ReadFailsIff(raw: Dict, lib: Lib)
    ensures Read(raw, lib).Err? <==>
            var summary := Get(raw, "session_summary");
            summary.VDict? && Has(summary.d, "source_turn_range") &&
            match Get(summary.d, "source_turn_range")
            case VList(_) => false
            case VStr(_) => false
            case VDict(_) => false
            case _ => true
  {
    hide Adapt, SummaryFrom, ParseRegistry, ParsePending, ParseTurn, AsInt, OptStr, NonEmptyOr, ParseStrList, Collect;
  }

  /** Reading some stored contexts raises: a null turn range is one. */
  lemma NullRangeFails(lib: Lib)
    ensures var summary := Dict(["source_turn_range"], map["source_turn_range" := VNull]);
            Read(Dict(["session_summary"], map["session_summary" := VDict(summary)]), lib) == Err(NotIterable)
  {
    var summary := Dict(["source_turn_range"], map["source_turn_range" := VNull]);
    var raw := Dict(["session_summary"], map["session_summary" := VDict(summary)]);
    assert Get(raw, "session_summary") == VDict(summary);
    ReadFailsIff(raw, lib);
    hide Read;
  }

  // ---- the legacy-compatible view ----

  lemma {:induction false} BestEntityIsThere(es: seq<TrackedEntity>, domain: string, entityType: string)
    ensures BestEntity(es, domain, entityType).Some? ==>
              var e := BestEntity(es, domain, entityType).value;
              e in es && e.domain == domain && e.entityType == entityType
  {
    hide Strip;
    if es != [] { BestEntityIsThere(es[..|es| - 1], domain, entityType); }
  }

  lemma BestNameAbsorbs(s: SessionState, domain: string, entityType: string)
    requires Normal(s)
    ensures AbsorbsEntity(s, OptValue(BestEntityName(s, domain, entityType)), domain, entityType)
  {
    hide NormalTurn, NormalPending, NormalSummary, NormalAliases, NormalList, NormalOpt, BestEntity, Strip, Lower;
    BestEntityIsThere(s.registry.entities, domain, entityType);
    var best := BestEntity(s.registry.entities, domain, entityType);
    if best.Some? {
      assert NormalEntity(best.value);
      StripFixed(best.value.displayName);
      if OptStr(VStr(best.value.displayName)).Some? {
        StripFixed(OptStr(VStr(best.value.displayName)).value);
        assert Names(best.value, domain, entityType, best.value.displayName);
      }
    }
  }

  lemma PendingStage(c: Dict, s: SessionState, lib: Lib)
    requires CompatPending(c, s, lib).Ok?
    ensures var r := CompatPending(c, s, lib).value;
            && (forall k :: k != "pending_clarification" ==> Get(r, k) == Get(c, k))
            && (s.pending.None? ==> r == c)
  {
    hide Put, CompatEntities, StrList, OptValue;
  }

  lemma NamesStage(c: Dict, s: SessionState)
    ensures var r := CompatNames(c, s);
            && (forall k :: k != "last_list_name" && k != "last_switch_name" && k != "last_calendar_person" ==>
                  Get(r, k) == Get(c, k))
            && (Get(c, "last_list_name") == VNull ==>
                Get(r, "last_list_name") == OptValue(BestEntityName(s, "lists", "list")))
            && (Get(c, "last_switch_name") == VNull ==>
                  Get(r, "last_switch_name") == OptValue(BestEntityName(s, "home", "switch")))
            && (Get(c, "last_calendar_person") == VNull ==>
                  Get(r, "last_calendar_person") == OptValue(BestEntityName(s, "calendar", "person")))
  {
    hide Put, Get, BestEntityName;
  }

  lemma StickyStage(c: Dict, s: SessionState, lib: Lib)
    ensures var r := CompatSticky(c, s, lib);
            && (forall k :: k != "main_sticky_followup_turns_remaining" && k != "main_sticky_followup_reason" ==>
                  Get(r, k) == Get(c, k))
            && (Get(c, "main_sticky_followup_turns_remaining") == VNull ==>
                  Get(r, "main_sticky_followup_turns_remaining") == VNull || Has(s.annotations, "main_sticky_followup"))
  {
    hide Put, AsInt, OptStr;
  }

  lemma RuntimeStage(c: Dict, s: SessionState)
    requires Get(c, "main_agent_token_session") == VDict(s.tokenSession)
    ensures var r := CompatRuntime(c, s);
            && (forall k :: k != "channel_session" ==> Get(r, k) == Get(c, k))
            && (IsEmpty(s.channelRuntime) ==> Get(r, "channel_session") == Get(c, "channel_session"))
  {
    hide Put, Get, IsEmpty;
  }

  /** The view agrees with the printed state on every key it does not add. */
  lemma CompatKeeps(s: SessionState, lib: Lib, k: string)
    requires Compat(s, lib).Ok?
    requires k != "pending_clarification" && k != "last_list_name" && k != "last_switch_name"
              && k != "last_calendar_person"
    requires k != "main_sticky_followup_turns_remaining" && k != "main_sticky_followup_reason" && k != "channel_session"
    ensures Get(Compat(s, lib).value, k) == Get(Serialize(s), k)
  {
    TokenPrinted(s);
    hide Serialize, CompatNames, CompatSticky, CompatRuntime, CompatPending;
    var c0 := CompatPending(Serialize(s), s, lib).value;
    PendingStage(Serialize(s), s, lib);
    NamesStage(c0, s);
    StickyStage(CompatNames(c0, s), s, lib);
    RuntimeStage(CompatSticky(CompatNames(c0, s), s, lib), s);
  }

  /** What the view holds under each legacy key. */
  lemma {:induction false} CompatFields(s: SessionState, lib: Lib)
    requires Compat(s, lib).Ok?
    ensures var c := Compat(s, lib).value;
            && (s.pending.None? ==> Get(c, "pending_clarification") == VNull)
            && Get(c, "last_list_name") == OptValue(BestEntityName(s, "lists", "list"))
            && Get(c, "last_switch_name") == OptValue(BestEntityName(s, "home", "switch"))
            && Get(c, "last_calendar_person") == OptValue(BestEntityName(s, "calendar", "person"))
            && (Get(c, "main_sticky_followup_turns_remaining") != VNull ==> Has(s.annotations, "main_sticky_followup"))
            && (IsEmpty(s.channelRuntime) ==> Get(c, "channel_session") == VNull)
            && Get(c, "main_agent_token_session") == VDict(s.tokenSession)
  {
    LegacyKeysNotPrinted(s);
    TokenPrinted(s);
    hide Serialize, CompatNames, CompatSticky, CompatRuntime, CompatPending, BestEntityName;
    var c0 := CompatPending(Serialize(s), s, lib).value;
    PendingStage(Serialize(s), s, lib);
    NamesStage(c0, s);
    StickyStage(CompatNames(c0, s), s, lib);
    RuntimeStage(CompatSticky(CompatNames(c0, s), s, lib), s);
  }

  lemma TokenPrinted(s: SessionState)
    ensures Get(Serialize(s), "main_agent_token_session") == VDict(s.tokenSession)
  {
    PrintedFields(s);
    hide Serialize;
  }

  lemma {:induction false} CompatPrints(s: SessionState, lib: Lib)
    requires Compat(s, lib).Ok?
    ensures Printed(Compat(s, lib).value, s)
  {
    PrintedFields(s);
    hide Serialize, Compat, Get, TurnValue, PendingValue, SummaryValue, RegistryValue, StrList, OptValue, MapSeq;
    CompatKeeps(s, lib, "context_version");
    CompatKeeps(s, lib, "active_agent_id");
    CompatKeeps(s, lib, "active_skill_id");
    CompatKeeps(s, lib, "recent_turns");
    CompatKeeps(s, lib, "pending_interaction");
    CompatKeeps(s, lib, "session_summary");
    CompatKeeps(s, lib, "entity_registry");
    CompatKeeps(s, lib, "focus_stack");
    CompatKeeps(s, lib, "context_annotations");
    CompatKeeps(s, lib, "channel_runtime");
    CompatKeeps(s, lib, "main_agent_token_session");
  }

  /** A pending interaction proposes "entities" that `dict()` refuses. */
  predicate EntitiesRefused(s: SessionState, lib: Lib) {
    && s.pending.Some? && Has(s.pending.value.proposedAction, "entities")
    && var entities := Get(s.pending.value.proposedAction, "entities");
       !entities.VDict? && lib.dictOf(entities) == None
  }

  /** Exactly then the view cannot be built: the source raises. */
  lemma CompatFailsIff(s: SessionState, lib: Lib)
    ensures Compat(s, lib).Err? <==> EntitiesRefused(s, lib)
  {
    hide Serialize, CompatNames, CompatSticky, CompatRuntime, Put, StrList, OptValue;
  }

  /** One stored context that can be read and has no view: the proposed entities are null. */
  lemma NullEntitiesFail(lib: Lib)
    requires lib.dictOf(VNull) == None
    ensures var action := Dict(["entities"], map["entities" := VNull]);
            var pending := Dict(["proposed_action"], map["proposed_action" := VDict(action)]);
            var raw := Dict(["pending_interaction"], map["pending_interaction" := VDict(pending)]);
            Read(raw, lib).Ok? && EntitiesRefused(Read(raw, lib).value, lib) && Compat(Read(raw, lib).value, lib).Err?
  {
    hide Read, Compat;
    var action := Dict(["entities"], map["entities" := VNull]);
    var pending := Dict(["proposed_action"], map["proposed_action" := VDict(action)]);
    var raw := Dict(["pending_interaction"], map["pending_interaction" := VDict(pending)]);
    assert Get(raw, "pending_interaction") == VDict(pending) && Get(pending, "proposed_action") == VDict(action);
    assert Get(raw, "session_summary") == VNull;
    ReadFailsIff(raw, lib);
    ReadKeepsPending(raw, lib);
    CompatFailsIff(Read(raw, lib).value, lib);
  }

  lemma ReadKeepsPending(raw: Dict, lib: Lib)
    requires Read(raw, lib).Ok? && Get(raw, "pending_interaction").VDict?
    ensures Read(raw, lib).value.pending == ParsePending(Get(raw, "pending_interaction"))
  {
    hide ParseTurn, ParseSummary, ParseRegistry, ParseStrList, NonEmptyOr, AdaptEntities, LegacyPending, StickyRecord,
      AsInt, OptStr, Get, Put;
    EntitiesOnly(AdaptPending(ReadBase(raw, lib).value, raw), raw);
  }

  /** The legacy-compatible view of any state that reading can produce reads back to that state, as long as
      there is a view: whenever the entities proposed by a pending interaction are not refused. */
  lemma {:induction false} CompatRoundTrip(raw: Dict, lib: Lib)
    requires Read(raw, lib).Ok? && !EntitiesRefused(Read(raw, lib).value, lib)
    ensures Compat(Read(raw, lib).value, lib).Ok?
    ensures Read(Compat(Read(raw, lib).value, lib).value, lib) == Read(raw, lib)
  {
    var s := Read(raw, lib).value;
    ReadNormal(raw, lib);
    CompatFailsIff(s, lib);
    hide Read, Compat, Normal, Adapt, Printed, BestEntityName, EntitiesRefused;
    var c := Compat(s, lib).value;
    CompatFields(s, lib);
    CompatPrints(s, lib);
    BestNameAbsorbs(s, "lists", "list");
    BestNameAbsorbs(s, "home", "switch");
    BestNameAbsorbs(s, "calendar", "person");
    assert AbsorbsLegacy(s, c, lib) by { hide AbsorbsEntity; }
    AbsorbsIsAbsorbed(s, c, lib);
    ReadPrinted(c, s, lib);
  }
}
