/** From legacy keys to the state and back: what a context stored before versioning says is what its view says. */
module LegacyViews {
  import opened Prelude
  import opened Text
  import opened Values
  import opened ContextTypes
  import opened ContextSerialization
  import opened ContextRoundTrip
  import opened EntityNames
  import EntityRegistryManager
  import opened ReferenceResolver
  import opened NameMatching

  /** Nothing is stored under a versioned key, the token session aside, which both forms share. */
  predicate LegacyOnly(raw: Dict) {
    forall k | k in STATE_FIELDS :: k != "main_agent_token_session" ==> Get(raw, k) == VNull
  }

  function BlankState(token: Dict): SessionState {
    SessionState(1, "jarvis", None, [], None, NoSummary, EntityRegistry([], EmptyDict), [], EmptyDict, EmptyDict, token)
  }

  lemma LegacyBase(raw: Dict, lib: Lib)
    requires LegacyOnly(raw)
    ensures ReadBase(raw, lib) == Ok(BlankState(DictOr(Get(raw, "main_agent_token_session"))))
  {
    hide Strip, CleanAliases;
    var f := STATE_FIELDS;
    assert Get(raw, f[0]) == VNull && Get(raw, f[1]) == VNull && Get(raw, f[2]) == VNull && Get(raw, f[3]) == VNull;
    assert Get(raw, f[4]) == VNull && Get(raw, f[5]) == VNull && Get(raw, f[6]) == VNull && Get(raw, f[7]) == VNull;
    assert Get(raw, f[8]) == VNull && Get(raw, f[9]) == VNull;
    assert Collect(ParseTurn, []) == [] && ParseStrList(VNull) == [];
  }

  // ---- entities ----

  /** The entity a legacy name stands for, if there is a name. */
  function NameEntity(v: Value, domain: string, entityType: string, key: string): seq<TrackedEntity> {
    match OptStr(v) case None => [] case Some(name) => [LegacyEntity(domain, entityType, name, key)]
  }

  lemma KindsDiffer()
    ensures "lists" != "home" && "lists" != "calendar" && "home" != "calendar"
  {
    assert |"lists"| == 5 && |"home"| == 4 && |"calendar"| == 8;
  }

  lemma LegacyEntities(s: SessionState, raw: Dict)
    requires s.registry.entities == []
    ensures AdaptEntities(s, raw).registry.entities ==
              NameEntity(Get(raw, "last_list_name"), "lists", "list", "last_list_name")
              + NameEntity(Get(raw, "last_switch_name"), "home", "switch", "last_switch_name")
              + NameEntity(Get(raw, "last_calendar_person"), "calendar", "person", "last_calendar_person")
  {
    hide OptStr, Lower, Get;
    KindsDiffer();
  }

  /** The only shown entity of a kind is the best one. */
  lemma {:induction false} OnlyOneIsBest(es: seq<TrackedEntity>, i: nat, domain: string, entityType: string)
    requires i < |es| && es[i].domain == domain && es[i].entityType == entityType && Strip(es[i].displayName) != ""
    requires forall k :: 0 <= k < |es| && k != i ==> es[k].domain != domain
    ensures BestEntity(es, domain, entityType) == Some(es[i])
  {
    hide Strip;
    if i < |es| - 1 {
      OnlyOneIsBest(es[..|es| - 1], i, domain, entityType);
    } else {
      NoneIsBest(es[..|es| - 1], domain, entityType);
    }
  }

  lemma {:induction false} NoneIsBest(es: seq<TrackedEntity>, domain: string, entityType: string)
    requires forall k :: 0 <= k < |es| ==> es[k].domain != domain
    ensures BestEntity(es, domain, entityType) == None
  {
    hide Strip;
    if es != [] { NoneIsBest(es[..|es| - 1], domain, entityType); }
  }

  /** The best entity is shown, of the kind, of highest salience, and the first of that salience. */
  lemma {:induction false} BestIsHighest(es: seq<TrackedEntity>, domain: string, entityType: string)
    ensures match BestEntity(es, domain, entityType)
            case None => forall e :: e in es ==> !Showable(e, domain, entityType)
            case Some(e) => exists i :: 0 <= i < |es| && HighestAt(es, i, domain, entityType) && es[i] == e
  {
    hide Showable, HighestAt;
    if es != [] {
      var n := |es| - 1;
      var front, best := es[..n], BestEntity(es[..n], domain, entityType);
      BestIsHighest(front, domain, entityType);
      assert es == front + [es[n]];
      ShowableStep(best, es[n], domain, entityType);
      if best.None? {
        if Showable(es[n], domain, entityType) { OnlyIsHighest(front, es[n], domain, entityType); }
      } else {
        var i :| 0 <= i < n && HighestAt(front, i, domain, entityType) && front[i] == best.value;
        HighestStep(front, es[n], i, domain, entityType);
      }
    }
  }

  predicate HighestAt(es: seq<TrackedEntity>, i: nat, domain: string, entityType: string) {
    && i < |es| && Showable(es[i], domain, entityType)
    && forall k :: 0 <= k < |es| && Showable(es[k], domain, entityType) ==>
         if k < i then es[k].salience < es[i].salience else es[k].salience <= es[i].salience
  }

  lemma ShowableStep(best: Option<TrackedEntity>, e: TrackedEntity, domain: string, entityType: string)
    ensures BestOf(best, e, domain, entityType) ==
              if Showable(e, domain, entityType) && (best.None? || e.salience > best.value.salience) then Some(e)
              else best
  {}

  lemma OnlyIsHighest(front: seq<TrackedEntity>, e: TrackedEntity, domain: string, entityType: string)
    requires Showable(e, domain, entityType) && forall x :: x in front ==> !Showable(x, domain, entityType)
    ensures HighestAt(front + [e], |front|, domain, entityType)
  {
    hide Showable;
    forall k | 0 <= k < |front| ensures !Showable((front + [e])[k], domain, entityType) { assert front[k] in front; }
  }

  lemma HighestStep(front: seq<TrackedEntity>, e: TrackedEntity, i: nat, domain: string, entityType: string)
    requires HighestAt(front, i, domain, entityType)
    ensures var es := front + [e];
            (if Showable(e, domain, entityType) && e.salience > front[i].salience
             then HighestAt(es, |front|, domain, entityType)
             else HighestAt(es, i, domain, entityType) && es[i] == front[i])
  {
    hide Showable;
    assert forall k :: 0 <= k < |front| ==> (front + [e])[k] == front[k];
  }

  predicate Showable(e: TrackedEntity, domain: string, entityType: string) {
    e.domain == domain && e.entityType == entityType && Strip(e.displayName) != ""
  }

  // ---- back again ----

  /** The three legacy names come back as they were, blanks at the ends aside. */
  lemma LegacyNamesComeBack(s: SessionState, raw: Dict)
    requires s.registry.entities == []
    ensures var t := AdaptEntities(s, raw);
            && BestEntityName(t, "lists", "list") == OptStr(Get(raw, "last_list_name"))
            && BestEntityName(t, "home", "switch") == OptStr(Get(raw, "last_switch_name"))
            && BestEntityName(t, "calendar", "person") == OptStr(Get(raw, "last_calendar_person"))
  {
    hide AdaptEntities, Strip, BestEntity, OptStr, Lower, Get, LegacyEntity;
    LegacyEntities(s, raw);
    KindsDiffer();
    LegacyKind("lists", "list", "last_list_name");
    LegacyKind("home", "switch", "last_switch_name");
    LegacyKind("calendar", "person", "last_calendar_person");
    var list := NameEntity(Get(raw, "last_list_name"), "lists", "list", "last_list_name");
    var plug := NameEntity(Get(raw, "last_switch_name"), "home", "switch", "last_switch_name");
    var person := NameEntity(Get(raw, "last_calendar_person"), "calendar", "person", "last_calendar_person");
    var es := list + plug + person;
    OneName(es, 0, Get(raw, "last_list_name"), "lists", "list", "last_list_name");
    OneName(es, |list|, Get(raw, "last_switch_name"), "home", "switch", "last_switch_name");
    OneName(es, |list| + |plug|, Get(raw, "last_calendar_person"), "calendar", "person", "last_calendar_person");
  }

  lemma LegacyKind(domain: string, entityType: string, key: string)
    ensures forall name :: LegacyEntity(domain, entityType, name, key).domain == domain
  {}

  lemma OneName(es: seq<TrackedEntity>, i: nat, v: Value, domain: string, entityType: string, key: string)
    requires OptStr(v).Some? ==> i < |es| && es[i] == LegacyEntity(domain, entityType, OptStr(v).value, key)
    requires forall k :: 0 <= k < |es| && !(OptStr(v).Some? && k == i) ==> es[k].domain != domain
    ensures match BestEntity(es, domain, entityType)
            case None => OptStr(v) == None
            case Some(e) => OptStr(VStr(e.displayName)) == OptStr(v) && OptStr(v).Some?
  {
    hide BestEntity, Lower;
    if OptStr(v).Some? {
      StripFixed(OptStr(v).value);
      OnlyOneIsBest(es, i, domain, entityType);
    } else {
      NoneIsBest(es, domain, entityType);
    }
  }

  /** The state a legacy context reads as. */
  lemma LegacyRead(raw: Dict, lib: Lib)
    requires LegacyOnly(raw)
    ensures Read(raw, lib).Ok?
    ensures var s := Read(raw, lib).value;
            && s.pending == (if Get(raw, "pending_clarification").VDict? then Some(LegacyPending(Get(raw,
                "pending_clarification").d))
                             else None)
            && BestEntityName(s, "lists", "list") == OptStr(Get(raw, "last_list_name"))
            && BestEntityName(s, "home", "switch") == OptStr(Get(raw, "last_switch_name"))
            && BestEntityName(s, "calendar", "person") == OptStr(Get(raw, "last_calendar_person"))
            && s.channelRuntime == DictOr(Get(raw, "channel_session"))
            && s.tokenSession == DictOr(Get(raw, "main_agent_token_session"))
            && (var turns := AsInt(Get(raw, "main_sticky_followup_turns_remaining"), 0, lib);
                if turns > 0 then Get(s.annotations, "main_sticky_followup") == VDict(StickyRecord(turns, raw))
                else s.annotations == EmptyDict)
  {
    hide ReadBase, AdaptEntities, LegacyPending, StickyRecord, AsInt, OptStr, Get, Put, BestEntity;
    LegacyBase(raw, lib);
    var p := AdaptPending(BlankState(DictOr(Get(raw, "main_agent_token_session"))), raw);
    LegacyNamesComeBack(p, raw);
    EntitiesOnly(p, raw);
    NothingSticky();
  }

  lemma NothingSticky()
    ensures !Has(EmptyDict, "main_sticky_followup") && IsEmpty(EmptyDict)
  {}

  /** A legacy context read and viewed again says the same under every legacy key: the names and the sticky reason
      without outer blanks, the turns that are left, the pending clarification and both sessions. */
  lemma {:induction false} LegacyViewIsLegacy(raw: Dict, lib: Lib)
    requires LegacyOnly(raw)
    ensures Read(raw, lib).Ok? && Compat(Read(raw, lib).value, lib).Ok?
    ensures var c := Compat(Read(raw, lib).value, lib).value;
            && Get(c, "last_list_name") == OptValue(OptStr(Get(raw, "last_list_name")))
            && Get(c, "last_switch_name") == OptValue(OptStr(Get(raw, "last_switch_name")))
            && Get(c, "last_calendar_person") == OptValue(OptStr(Get(raw, "last_calendar_person")))
            && SameClarification(Get(raw, "pending_clarification"), Get(c, "pending_clarification"))
            && (var turns := AsInt(Get(raw, "main_sticky_followup_turns_remaining"), 0, lib);
                turns > 0 ==>
                  && Get(c, "main_sticky_followup_turns_remaining") == VInt(turns)
                  && Get(c, "main_sticky_followup_reason")
                     == VStr(NonEmptyOr(Get(raw, "main_sticky_followup_reason"), "clarification")))
            && (Get(raw, "channel_session").VDict? && !IsEmpty(Get(raw, "channel_session").d) ==>
                  Get(c, "channel_session") == Get(raw, "channel_session"))
            && Get(c, "main_agent_token_session") == VDict(DictOr(Get(raw, "main_agent_token_session")))
  {
    hide Read, Compat, OptStr, BestEntityName, StickyRecord, Get, LegacyPending, AsInt, LegacyOnly;
    LegacyRead(raw, lib);
    var s := Read(raw, lib).value;
    NotRefused(s, raw, lib);
    CompatFailsIff(s, lib);
    CompatFields(s, lib);
    PendingShown(s, lib);
    if AsInt(Get(raw, "main_sticky_followup_turns_remaining"), 0, lib) > 0 { StickyShown(s, lib); }
    ChannelShown(s, lib);
    if s.pending.Some? { ClarificationKept(Get(raw, "pending_clarification").d, lib); }
    StickyKept(AsInt(Get(raw, "main_sticky_followup_turns_remaining"), 0, lib), raw, lib);
  }

  lemma NotRefused(s: SessionState, raw: Dict, lib: Lib)
    requires s.pending.Some? ==>
               Get(raw, "pending_clarification").VDict?
                   && s.pending.value == LegacyPending(Get(raw, "pending_clarification").d)
    ensures !EntitiesRefused(s, lib)
  {
    hide OptStr, ParseStrList;
  }

  /** The clarification as the view shows it: intent and question without outer blanks, the fields that are text,
      and the entities. */
  predicate SameClarification(before: Value, after: Value) {
    if !before.VDict? then after == VNull
    else
      && after.VDict?
      && Get(after.d, "intent") == OptValue(OptStr(Get(before.d, "intent")))
      && Get(after.d, "question") == OptValue(OptStr(Get(before.d, "question")))
      && Get(after.d, "missing_fields") == StrList(ParseStrList(Get(before.d, "missing_fields")))
      && Get(after.d, "entities") == VDict(DictOr(Get(before.d, "entities")))
  }

  /** The view's clarification, from the pending interaction. */
  function Clarification(p: PendingInteraction, entities: Dict): Value {
    VDict(Fields(map["intent" := OptValue(p.intent), "entities" := VDict(entities),
                     "missing_fields" := StrList(p.expectedFields), "question" := OptValue(p.question)]))
  }

  lemma PendingEntry(c: Dict, s: SessionState, lib: Lib)
    requires CompatPending(c, s, lib).Ok? && s.pending.Some?
    ensures CompatEntities(s.pending.value, lib).Ok?
    ensures Get(CompatPending(c, s, lib).value, "pending_clarification")
         == Clarification(s.pending.value, CompatEntities(s.pending.value, lib).value)
  {
    hide CompatEntities, StrList, OptValue;
  }

  lemma PendingShown(s: SessionState, lib: Lib)
    requires Compat(s, lib).Ok?
    ensures s.pending.Some? ==>
              CompatEntities(s.pending.value, lib).Ok?
              && Get(Compat(s, lib).value, "pending_clarification")
                 == Clarification(s.pending.value, CompatEntities(s.pending.value, lib).value)
  {
    hide CompatEntities, Clarification, CompatNames, CompatSticky, CompatRuntime, CompatPending, Serialize, Get;
    TokenPrinted(s);
    if s.pending.Some? {
      var c0 := CompatPending(Serialize(s), s, lib).value;
      PendingEntry(Serialize(s), s, lib);
      PendingSparesSticky(Serialize(s), s, lib);
      NamesSparePending(c0, s);
      StickySparesPending(CompatNames(c0, s), s, lib);
      RuntimeSparesPending(CompatSticky(CompatNames(c0, s), s, lib), s);
    }
  }

  lemma NamesSparePending(c: Dict, s: SessionState)
    ensures var r := CompatNames(c, s);
            && Get(r, "pending_clarification") == Get(c, "pending_clarification")
            && Get(r, "main_agent_token_session") == Get(c, "main_agent_token_session")
  {
    hide CompatNames, Get;
    NamesStage(c, s);
  }

  lemma StickySparesPending(c: Dict, s: SessionState, lib: Lib)
    ensures var r := CompatSticky(c, s, lib);
            && Get(r, "pending_clarification") == Get(c, "pending_clarification")
            && Get(r, "main_agent_token_session") == Get(c, "main_agent_token_session")
  {
    hide CompatSticky, Get;
    StickyStage(c, s, lib);
  }

  lemma RuntimeSparesPending(c: Dict, s: SessionState)
    requires Get(c, "main_agent_token_session") == VDict(s.tokenSession)
    ensures Get(CompatRuntime(c, s), "pending_clarification") == Get(c, "pending_clarification")
  {
    hide CompatRuntime, Get;
    RuntimeStage(c, s);
  }

  lemma ClarificationKept(d: Dict, lib: Lib)
    ensures CompatEntities(LegacyPending(d), lib) == Ok(DictOr(Get(d, "entities")))
    ensures SameClarification(VDict(d), Clarification(LegacyPending(d), DictOr(Get(d, "entities"))))
  {
    hide OptStr, ParseStrList, StrList;
  }

  lemma StickyShown(s: SessionState, lib: Lib)
    requires Compat(s, lib).Ok? && Get(s.annotations, "main_sticky_followup").VDict?
    ensures var sticky := Get(s.annotations, "main_sticky_followup").d;
            var turns := AsInt(Get(sticky, "turns_remaining"), 0, lib);
            turns > 0 ==>
              && Get(Compat(s, lib).value, "main_sticky_followup_turns_remaining") == VInt(turns)
              && (OptStr(Get(sticky, "reason")).Some? ==>
                    Get(Compat(s, lib).value, "main_sticky_followup_reason")
                        == VStr(OptStr(Get(sticky, "reason")).value))
  {
    hide CompatPending, CompatNames, Serialize, OptStr, AsInt;
  }

  /** A follow-up with no turns left is not shown. */
  lemma StickyGone(s: SessionState, lib: Lib)
    requires Compat(s, lib).Ok?
    requires var sticky := Get(s.annotations, "main_sticky_followup");
             sticky.VDict? ==> AsInt(Get(sticky.d, "turns_remaining"), 0, lib) <= 0
    ensures Get(Compat(s, lib).value, "main_sticky_followup_turns_remaining") == VNull
  {
    hide CompatPending, CompatNames, CompatSticky, CompatRuntime, Serialize, AsInt, Get, IsEmpty;
    StickyNotPrinted(s);
    TokenPrinted(s);
    var c0 := CompatPending(Serialize(s), s, lib).value;
    PendingSparesSticky(Serialize(s), s, lib);
    NamesSpareSticky(c0, s);
    StickySkipped(CompatNames(c0, s), s, lib);
    RuntimeSparesSticky(CompatNames(c0, s), s);
  }

  lemma PendingSparesSticky(c: Dict, s: SessionState, lib: Lib)
    requires CompatPending(c, s, lib).Ok?
    ensures var r := CompatPending(c, s, lib).value;
            && Get(r, "main_sticky_followup_turns_remaining") == Get(c, "main_sticky_followup_turns_remaining")
            && Get(r, "main_agent_token_session") == Get(c, "main_agent_token_session")
  {
    hide CompatPending, Get;
    PendingStage(c, s, lib);
  }

  lemma NamesSpareSticky(c: Dict, s: SessionState)
    ensures var r := CompatNames(c, s);
            && Get(r, "main_sticky_followup_turns_remaining") == Get(c, "main_sticky_followup_turns_remaining")
            && Get(r, "main_agent_token_session") == Get(c, "main_agent_token_session")
  {
    hide CompatNames, Get;
    NamesStage(c, s);
  }

  lemma RuntimeSparesSticky(c: Dict, s: SessionState)
    requires Get(c, "main_agent_token_session") == VDict(s.tokenSession)
    ensures Get(CompatRuntime(c, s), "main_sticky_followup_turns_remaining")
         == Get(c, "main_sticky_followup_turns_remaining")
  {
    hide CompatRuntime, Get;
    RuntimeStage(c, s);
  }

  lemma StickyNotPrinted(s: SessionState)
    ensures Get(Serialize(s), "main_sticky_followup_turns_remaining") == VNull
  {
    hide Serialize;
    LegacyKeysNotPrinted(s);
  }

  lemma StickySkipped(c: Dict, s: SessionState, lib: Lib)
    requires var sticky := Get(s.annotations, "main_sticky_followup");
             sticky.VDict? ==> AsInt(Get(sticky.d, "turns_remaining"), 0, lib) <= 0
    ensures CompatSticky(c, s, lib) == c
  {
    hide Get, AsInt;
  }

  lemma StickyKept(turns: int, raw: Dict, lib: Lib)
    ensures var sticky := StickyRecord(turns, raw);
            && AsInt(Get(sticky, "turns_remaining"), 0, lib) == turns
            && OptStr(Get(sticky, "reason"))
                == Some(NonEmptyOr(Get(raw, "main_sticky_followup_reason"), "clarification"))
  {
    hide Strip;
    StrippedEmpty();
    NonEmptyOrNormal(Get(raw, "main_sticky_followup_reason"), "clarification");
    StripFixed(NonEmptyOr(Get(raw, "main_sticky_followup_reason"), "clarification"));
  }

  lemma ChannelShown(s: SessionState, lib: Lib)
    requires Compat(s, lib).Ok?
    ensures !IsEmpty(s.channelRuntime) ==> Get(Compat(s, lib).value, "channel_session") == VDict(s.channelRuntime)
  {
    hide CompatPending, CompatNames, CompatSticky, Serialize;
  }

  // ---- legacy names and spoken references ----

  /** The name found for a reference is this one. */
  predicate FoundAs(found: Option<Resolved>, r: EntityRegistry, name: string) {
    && found.Some? && found.value.reason == ExactName && found.value.index < |r.entities|
    && r.entities[found.value.index].displayName == Strip(name)
  }

  /** A reference that names something and does not point. */
  predicate NamesOne(v: Value, value: string, entityType: string) {
    v.VStr? && CaseVariant(v.s, value) && Normalize(v.s) != "" && !IsDeictic(v.s, entityType)
  }

  lemma OneOfItsKind(a: seq<TrackedEntity>, name: string, key: string, b: seq<TrackedEntity>, value: string,
                     domain: string, entityType: string, r: EntityRegistry, clock: EntityRegistryManager.Clock)
    requires NamesOne(VStr(name), value, entityType)
    requires r.entities == a + [LegacyEntity(domain, entityType, Strip(name), key)] + b
    requires (forall e :: e in a ==> e.domain != domain)
    ensures FoundAs(Resolve(value, r, domain, entityType, false, clock), r, name)
  {
    hide Strip, Normalize, IsDeictic, AliasHit, EntityRegistryManager.AliasSet, CaseVariant;
    NormalizeStripped(name);
    CaseIsForgotten(name, value);
    SameNormalSameAnswer(name, value, r, domain, entityType, false, clock);
    assert r.entities[|a|] == LegacyEntity(domain, entityType, Strip(name), key);
    forall k | 0 <= k < |a| ensures r.entities[k].domain != domain { assert r.entities[k] == a[k]; }
    FirstIs(Caller(Normalize(value), domain, entityType), r.entities, |a|);
  }

  lemma LegacyRegistry(raw: Dict, lib: Lib)
    requires LegacyOnly(raw)
    ensures Read(raw, lib).Ok?
    ensures Read(raw, lib).value.registry.entities ==
              NameEntity(Get(raw, "last_list_name"), "lists", "list", "last_list_name")
              + NameEntity(Get(raw, "last_switch_name"), "home", "switch", "last_switch_name")
              + NameEntity(Get(raw, "last_calendar_person"), "calendar", "person", "last_calendar_person")
  {
    hide ReadBase, AdaptEntities, LegacyPending, StickyRecord, AsInt, OptStr, Get, Put, LegacyOnly, NameEntity;
    LegacyBase(raw, lib);
    var p := AdaptPending(BlankState(DictOr(Get(raw, "main_agent_token_session"))), raw);
    LegacyEntities(p, raw);
    EntitiesOnly(p, raw);
  }

  lemma NamedEntity(v: Value, domain: string, entityType: string, key: string)
    ensures v.VStr? && Normalize(v.s) != "" ==>
              NameEntity(v, domain, entityType, key) == [LegacyEntity(domain, entityType, Strip(v.s), key)]
    ensures forall e :: e in NameEntity(v, domain, entityType, key) ==> e.domain == domain
  {
    if v.VStr? && Strip(v.s) == "" {
      NormalizeStripped(v.s);
      assert Normalize("") == "";
    }
    hide Strip, Normalize;
  }

  /** Every spelling of a legacy name, in whatever case, resolves for the next reader to the entity shown under it. */
  lemma LegacyNameResolves(raw: Dict, lib: Lib, value: string, clock: EntityRegistryManager.Clock)
    requires LegacyOnly(raw)
    ensures Read(raw, lib).Ok?
    ensures var r, v := Read(raw, lib).value.registry, Get(raw, "last_list_name");
            NamesOne(v, value, "list") ==> FoundAs(Resolve(value, r, "lists", "list", false, clock), r, v.s)
    ensures var r, v := Read(raw, lib).value.registry, Get(raw, "last_switch_name");
            NamesOne(v, value, "switch") ==> FoundAs(Resolve(value, r, "home", "switch", false, clock), r, v.s)
    ensures var r, v := Read(raw, lib).value.registry, Get(raw, "last_calendar_person");
            NamesOne(v, value, "person") ==> FoundAs(Resolve(value, r, "calendar", "person", false, clock), r, v.s)
  {
    hide LegacyOnly, Read, Resolve, Normalize, IsDeictic, FoundAs, NameEntity, CaseVariant, LegacyEntity, Get;
    LegacyRegistry(raw, lib);
    KindsDiffer();
    var r := Read(raw, lib).value.registry;
    var list, plug, person := Get(raw, "last_list_name"), Get(raw, "last_switch_name"),
        Get(raw, "last_calendar_person");
    var a := NameEntity(list, "lists", "list", "last_list_name");
    var b := NameEntity(plug, "home", "switch", "last_switch_name");
    var c := NameEntity(person, "calendar", "person", "last_calendar_person");
    NamedEntity(list, "lists", "list", "last_list_name");
    NamedEntity(plug, "home", "switch", "last_switch_name");
    NamedEntity(person, "calendar", "person", "last_calendar_person");
    assert a + b + c == [] + a + (b + c) && a + b + c == a + b + c + [];
    if NamesOne(list, value, "list") {
      OneOfItsKind([], list.s, "last_list_name", b + c, value, "lists", "list", r, clock);
    }
    if NamesOne(plug, value, "switch") {
      OneOfItsKind(a, plug.s, "last_switch_name", c, value, "home", "switch", r, clock);
    }
    if NamesOne(person, value, "person") {
      OneOfItsKind(a + b, person.s, "last_calendar_person", [], value, "calendar", "person", r, clock);
    }
  }
}
