/** A session over a whole run of exchanges, summaries and recorded entities. */
module SessionRuns {
  import opened Prelude
  import opened Text
  import opened Values
  import opened EntityNames
  import opened ContextTypes
  import opened ContextSerialization
  import opened ContextRoundTrip
  import EntityRegistryManager
  import EntityProofs
  import ReferenceResolver
  import opened RecentTurns
  import opened SummaryWording
  import opened Summarizer

  // ---- reading back a state that was stored ----

  /** The stored context agrees with `Merge(raw, Serialize(s))` on every key. */
  ghost predicate Stores(d: Dict, raw: Dict, s: SessionState) {
    d.vals == Merge(raw, Serialize(s)).vals
  }

  lemma {:induction false} StoredPrints(d: Dict, raw: Dict, s: SessionState)
    requires Stores(d, raw, s)
    ensures Printed(d, s)
  {
    hide Serialize;
    MergePrints(raw, s);
    assert forall k :: Get(d, k) == Get(Merge(raw, Serialize(s)), k);
  }

  /** What the next reader sees: the turns with their text stripped, the summary, every annotation but the
      sticky follow-up, and the entities, with legacy names at most added behind them. */
  ghost predicate ReadsBack(t: SessionState, s: SessionState) {
    && t.recentTurns == MapSeq(Restrip, s.recentTurns) && t.summary == s.summary && t.activeSkillId == s.activeSkillId
    && s.registry.entities <= t.registry.entities && t.registry.aliasMap == s.registry.aliasMap
    && forall k :: k != "main_sticky_followup" ==> Get(t.annotations, k) == Get(s.annotations, k)
  }

  lemma {:induction false} AdaptKeeps(s: SessionState, raw: Dict, lib: Lib)
    ensures var t := FixVersion(Adapt(s, raw, lib));
            && t.recentTurns == s.recentTurns && t.summary == s.summary && t.activeSkillId == s.activeSkillId
            && s.registry.entities <= t.registry.entities && t.registry.aliasMap == s.registry.aliasMap
            && forall k :: k != "main_sticky_followup" ==> Get(t.annotations, k) == Get(s.annotations, k)
  {
    hide EnsureEntity, LegacyPending, StickyRecord, AsInt;
    var p := AdaptPending(s, raw);
    EntitiesOnly(p, raw);
    EntitiesGrow(p, raw);
  }

  lemma EntitiesGrow(s: SessionState, raw: Dict)
    ensures var t := AdaptEntities(s, raw);
            s.registry.entities <= t.registry.entities && t.registry.aliasMap == s.registry.aliasMap
  {
    hide OptStr, Names, LegacyEntity, Get;
  }

  lemma {:induction false} ReadBack(d: Dict, raw: Dict, s: SessionState, lib: Lib)
    requires Stores(d, raw, s) && NormalButTurns(s)
    ensures Read(d, lib).Ok? && ReadsBack(Read(d, lib).value, s)
  {
    hide Stores, NormalButTurns, Adapt, ReadBase, FixVersion, Restrip;
    StoredPrints(d, raw, s);
    ReadBasePrinted(d, s, lib);
    AdaptKeeps(s.(recentTurns := MapSeq(Restrip, s.recentTurns)), d, lib);
  }

  // ---- the invariant ----

  /** Turns numbered consecutively up to the stored counter, in a window within the limits. */
  ghost predicate Tracked(s: SessionState, limits: Limits, lib: Lib) {
    Numbered(s.recentTurns, TurnCounter(s.annotations, lib)) && Fits(s.recentTurns, limits)
  }

  ghost predicate TrackedContext(d: Dict, limits: Limits, lib: Lib) {
    Read(d, lib).Ok? && Tracked(Read(d, lib).value, limits, lib)
  }

  /** A session nobody has written to. */
  lemma EmptyIsTracked(limits: Limits, lib: Lib)
    ensures TrackedContext(EmptyDict, limits, lib)
  {}

  lemma {:induction false} RestripShrinks(ts: seq<RecentTurn>)
    ensures Chars(MapSeq(Restrip, ts)) <= Chars(ts)
  {
    hide Strip, Restrip;
    if ts != [] {
      var n := |ts| - 1;
      RestripShrinks(ts[..n]);
      TurnShrinks(ts[n]);
      assert MapSeq(Restrip, ts)[..n] == MapSeq(Restrip, ts[..n]);
    }
  }

  lemma TurnShrinks(t: RecentTurn)
    ensures TurnChars(Restrip(t)) <= TurnChars(t)
  {
    StripShorter(t.text);
    StripShorter(t.normalizedText);
    hide Strip, OptStr;
  }

  lemma StripShorter(s: string)
    ensures |Strip(s)| <= |s|
  {
    var from, to := StripIsSlice(s);
  }

  lemma RestripKeepsId(t: RecentTurn, n: nat)
    requires t.turnId == Some(TurnId(n))
    ensures Restrip(t).turnId == Some(TurnId(n))
  {
    hide Strip;
    TurnIdNormal(n);
    StripFixed(TurnId(n));
  }

  lemma TurnIdNormal(n: nat)
    ensures NonEmpty(TurnId(n))
  {
    hide ToDec;
    var d := ToDec(n);
    assert TurnId(n)[|TurnId(n)| - 1] == d[|d| - 1] && IsDigit(d[|d| - 1]);
  }

  /** The state read back is tracked when the state written is. */
  lemma {:induction false} TrackedReadsBack(t: SessionState, s: SessionState, limits: Limits, lib: Lib)
    requires ReadsBack(t, s) && Tracked(s, limits, lib)
    ensures Tracked(t, limits, lib)
  {
    hide TurnId, Restrip, Chars, AsInt;
    var ts, c := s.recentTurns, TurnCounter(s.annotations, lib);
    RestripShrinks(ts);
    assert TurnCounter(t.annotations, lib) == c;
    forall i | 0 <= i < |ts| ensures t.recentTurns[i].turnId == Some(TurnId(c - |ts| + 1 + i)) {
      RestripKeepsId(ts[i], c - |ts| + 1 + i);
    }
  }

  // ---- one exchange ----

  lemma {:induction false} ExchangeKeeps(s: SessionState, x: Exchange, limits: Limits, lib: Lib)
    requires limits.turns >= 2 && Tracked(s, limits, lib)
    ensures Tracked(Recorded(s, x, limits, lib), limits, lib)
    ensures TurnCounter(Recorded(s, x, limits, lib).annotations, lib)
         == TurnCounter(s.annotations, lib) + |Appended(x, limits, TurnCounter(s.annotations, lib))|
  {
    hide Numbered, Fits, Appended, DropCount, TurnCounter, Put, TurnId, Silent;
    var c := TurnCounter(s.annotations, lib);
    var added := Appended(x, limits, c);
    AppendedShape(x, limits, c);
    var all := s.recentTurns + added;
    NumberedOn(s.recentTurns, added, c);
    NumberedSuffix(all, DropCount(all, limits), c + |added|);
    CounterPut(s.annotations, c + |added|, lib);
  }

  lemma CounterPut(d: Dict, n: nat, lib: Lib)
    ensures TurnCounter(Put(d, COUNTER, VInt(n)), lib) == n
  {}

  lemma NumberedOn(ts: seq<RecentTurn>, added: seq<RecentTurn>, c: nat)
    requires Numbered(ts, c)
    requires forall i :: 0 <= i < |added| ==> added[i].turnId == Some(TurnId(c + 1 + i))
    ensures Numbered(ts + added, c + |added|)
  {
    hide TurnId;
    var all := ts + added;
    forall i | 0 <= i < |all| ensures all[i].turnId == Some(TurnId(c + |added| - |all| + 1 + i)) {
      if i < |ts| { assert all[i] == ts[i]; } else { assert all[i] == added[i - |ts|]; }
    }
  }

  lemma NumberedSuffix(ts: seq<RecentTurn>, k: nat, c: nat)
    requires k <= |ts| && Numbered(ts, c)
    ensures Numbered(ts[k..], c)
  {
    hide TurnId;
  }

  // ---- recorded entities stay readable ----

  lemma CleanNormal(s: string)
    ensures Stripped(Lower(Strip(s)))
  {
    LowerKeepsStripped(Strip(s));
  }

  lemma NormalizedAliases(name: string, aliases: seq<string>)
    ensures NormalList(EntityRegistryManager.NormalizeAliases(name, aliases))
  {
    EntityProofs.AliasesOfName(name, aliases);
    hide EntityRegistryManager.NormalizeAliases;
  }

  lemma ConfirmedNormal(p: EntityRegistryManager.Payload)
    requires NonEmpty(p.readAt)
    ensures NonEmpty(EntityRegistryManager.ConfirmedAt(p))
  {
    hide Strip;
  }

  lemma NewEntityNormal(p: EntityRegistryManager.Payload)
    requires NonEmpty(p.readAt)
    ensures NormalEntity(EntityRegistryManager.NewEntity(p))
  {
    hide Strip, Lower, Stripped, EntityRegistryManager.NormalizeAliases, EntityRegistryManager.ConfirmedAt;
    CleanNormal(p.domain);
    CleanNormal(p.entityType);
    NormalizedAliases(EntityRegistryManager.CleanName(p), p.aliases);
    ConfirmedNormal(p);
  }

  lemma MergeEntityNormal(e: TrackedEntity, p: EntityRegistryManager.Payload)
    requires NonEmpty(p.readAt) && NormalEntity(e)
    ensures NormalEntity(EntityRegistryManager.MergeEntity(e, p))
  {
    hide Strip, Lower, Stripped, EntityRegistryManager.NormalizeAliases, EntityRegistryManager.ConfirmedAt, InsertAll;
    NormalizedAliases(EntityRegistryManager.CleanName(p), p.aliases);
    ConfirmedNormal(p);
  }

  lemma {:induction false} AddAliasesNormal(m: Dict, display: string, aliases: seq<string>)
    requires NormalAliases(m) && NonEmpty(display)
    ensures NormalAliases(EntityRegistryManager.AddAliases(m, display, aliases))
  {
    hide Normalize, NormalAliases, NonEmpty, Put;
    if aliases != [] {
      var n := |aliases| - 1;
      AddAliasesNormal(m, display, aliases[..n]);
      var rest := EntityRegistryManager.AddAliases(m, display, aliases[..n]);
      var alias := Normalize(aliases[n]);
      if alias != "" {
        NormalizedNonEmpty(aliases[n]);
        PutKeepsAliases(rest, alias, display);
      }
    }
  }

  lemma NormalizedNonEmpty(s: string)
    requires Normalize(s) != ""
    ensures NonEmpty(Normalize(s))
  {
    NormalizeCanonical(s);
    hide Normalize;
  }

  lemma {:induction false} IndexNormal(es: seq<TrackedEntity>)
    ensures NormalAliases(EntityRegistryManager.Index(es))
  {
    hide EntityRegistryManager.AddAliases, Strip;
    if es != [] {
      IndexNormal(es[..|es| - 1]);
      var display := Strip(es[|es| - 1].displayName);
      if display != "" {
        AddAliasesNormal(EntityRegistryManager.Index(es[..|es| - 1]), display, es[|es| - 1].aliases);
      }
    }
  }

  lemma UpsertNormal(r: EntityRegistry, p: EntityRegistryManager.Payload)
    requires NormalRegistry(r) && NonEmpty(p.readAt)
    ensures NormalRegistry(EntityRegistryManager.Upsert(r, p).0)
  {
    hide NormalEntity, NormalAliases, NonEmpty, EntityRegistryManager.NewEntity, EntityRegistryManager.MergeEntity,
      EntityRegistryManager.Index, EntityRegistryManager.TargetOf, EntityRegistryManager.Usable;
    var i := EntityRegistryManager.TargetOf(r, p);
    EntityProofs.TargetKind(r, p);
    var es := EntityRegistryManager.Upsert(r, p).0.entities;
    IndexNormal(es);
    NewEntityNormal(p);
    if i < |r.entities| {
      assert r.entities[i] in r.entities;
      MergeEntityNormal(r.entities[i], p);
    }
  }

  lemma {:induction false} UpsertAllNormal(r: EntityRegistry, ps: seq<EntityRegistryManager.Payload>)
    requires NormalRegistry(r) && forall p :: p in ps ==> NonEmpty(p.readAt)
    ensures NormalRegistry(EntityRegistryManager.UpsertAll(r, ps))
  {
    hide NormalRegistry, NonEmpty, EntityRegistryManager.Upsert;
    if ps != [] {
      UpsertAllNormal(r, ps[..|ps| - 1]);
      UpsertNormal(EntityRegistryManager.UpsertAll(r, ps[..|ps| - 1]), ps[|ps| - 1]);
    }
  }

  lemma PruneNormal(r: EntityRegistry, limit: nat, clock: EntityRegistryManager.Clock)
    requires NormalRegistry(r)
    ensures NormalRegistry(EntityRegistryManager.Prune(r, limit, clock))
  {
    hide NormalEntity, NormalAliases, EntityRegistryManager.Index, EntityRegistryManager.Place;
    if |r.entities| > limit {
      var ranked := EntityRegistryManager.Ranked(r.entities, clock);
      IndexNormal(ranked[..limit]);
      forall e | e in ranked[..limit] ensures NormalEntity(e) {
        assert e in ranked && e in multiset(ranked) && e in multiset(r.entities);
      }
    }
  }

  // ---- runs ----

  datatype Step =
    | Exchanged(x: Exchange)
    | Summarized(req: Request)
    | EntitiesRecorded(ps: seq<EntityRegistryManager.Payload>)

  datatype Config = Config(limits: Limits, policy: Policy, maxEntities: nat, clock: EntityRegistryManager.Clock,
      lib: Lib)

  /** The clamps of the three managers. */
  ghost predicate Sound(c: Config) {
    && c.limits.turns >= 2 && c.policy.every > 0 && c.policy.textChars > 3 && c.policy.items > 0 && ReadsNumerals(c.lib)
  }

  /** Clock readings are printed times. */
  predicate Timed(step: Step) {
    match step
    case Exchanged(x) => true
    case Summarized(req) => NonEmpty(req.now)
    case EntitiesRecorded(ps) => forall p :: p in ps ==> NonEmpty(p.readAt)
  }

  /** The state a step writes, if it writes. */
  function Written(s: SessionState, step: Step, c: Config): Option<SessionState>
    requires c.limits.turns >= 2
  {
    match step
    case Exchanged(x) => if Silent(x, c.limits) then None else Some(Recorded(s, x, c.limits, c.lib))
    case Summarized(req) =>
      (match ChooseTrigger(s, req, c.policy, c.lib)
       case None => None
       case Some(t) => Some(Refreshed(s, req, t, c.policy, c.lib, c.clock)))
    case EntitiesRecorded(ps) =>
      if EntityRegistryManager.ChangedCount(s.registry, ps) == 0 then None
      else Some(s.(registry := EntityRegistryManager.Recorded(s.registry, ps, c.maxEntities, c.clock)))
  }

  /** The stored context after one step: what the manager's call leaves. */
  function After(d: Dict, step: Step, c: Config): Dict
    requires c.limits.turns >= 2
  {
    match step
    case Exchanged(x) => RecordedContext(d, x, c.limits, c.lib)
    case Summarized(req) => RefreshedContext(d, req, c.policy, c.lib, c.clock)
    case EntitiesRecorded(ps) => EntityRegistryManager.RecordedEntities(d, ps, c.maxEntities, c.lib, c.clock)
  }

  function Run(d: Dict, steps: seq<Step>, c: Config): Dict
    requires c.limits.turns >= 2
  {
    if steps == [] then d else After(Run(d, steps[..|steps| - 1], c), steps[|steps| - 1], c)
  }

  /** Each of the three calls stores the state it writes, or leaves the context alone. */
  lemma AfterStores(d: Dict, s: SessionState, step: Step, c: Config)
    requires c.limits.turns >= 2 && Read(d, c.lib) == Ok(s)
    ensures match Written(s, step, c)
            case None => After(d, step, c) == d
            case Some(s') => Stores(After(d, step, c), d, s')
  {
    hide Read, RecentTurns.Recorded, Refreshed, ChooseTrigger, Silent, Merge, Serialize, EntityRegistryManager.Recorded;
    if step.EntitiesRecorded? && step.ps == [] { assert EntityRegistryManager.ChangedCount(s.registry, step.ps) == 0; }
  }

  lemma WrittenNormal(s: SessionState, step: Step, c: Config)
    requires Sound(c) && Timed(step) && NormalButTurns(s)
    ensures Written(s, step, c).Some? ==> NormalButTurns(Written(s, step, c).value)
  {
    hide NormalRegistry, NormalPending, NormalSummary, NonEmpty, NormalList, NormalOpt, Silent, ChooseTrigger, Worded,
      SourceRange, Annotated, Window, Appended, EntityRegistryManager.UpsertAll, EntityRegistryManager.Prune,
      ReadsNumerals, EntityRegistryManager.ChangedCount, TurnCounter, FocusKey, CounterOf, Put;
    match step {
      case Exchanged(x) =>
      case Summarized(req) =>
        WordedNormal(s, req, c.policy, SourceRange(s.recentTurns, c.lib), c.lib, c.clock);
      case EntitiesRecorded(ps) =>
        UpsertAllNormal(s.registry, ps);
        PruneNormal(EntityRegistryManager.UpsertAll(s.registry, ps), c.maxEntities, c.clock);
    }
  }

  lemma {:induction false} WrittenTracked(s: SessionState, step: Step, c: Config)
    requires Sound(c) && Tracked(s, c.limits, c.lib)
    ensures Written(s, step, c).Some? ==> Tracked(Written(s, step, c).value, c.limits, c.lib)
  {
    hide Numbered, Fits, Recorded, Silent, ChooseTrigger, SummaryOf, FocusKey, CounterOf, ReadsNumerals, AsInt,
      EntityRegistryManager.ChangedCount, EntityRegistryManager.Recorded;
    match step {
      case Exchanged(x) => ExchangeKeeps(s, x, c.limits, c.lib);
      case Summarized(req) =>
      case EntitiesRecorded(ps) =>
    }
  }

  /** What a step writes, the next reader sees. */
  lemma {:induction false} StepReadsBack(d: Dict, step: Step, c: Config)
    requires Sound(c) && Timed(step) && Read(d, c.lib).Ok?
    ensures Read(After(d, step, c), c.lib).Ok?
    ensures var written := Written(Read(d, c.lib).value, step, c);
            if written.None? then After(d, step, c) == d
                else ReadsBack(Read(After(d, step, c), c.lib).value, written.value)
  {
    hide Read, Written, After, Timed, ReadsBack, Sound, NormalButTurns, Stores;
    SoundLimits(c);
    ReadNormalButTurns(d, c.lib);
    var s := Read(d, c.lib).value;
    WrittenNormal(s, step, c);
    AfterStores(d, s, step, c);
    if Written(s, step, c).Some? { ReadBack(After(d, step, c), d, Written(s, step, c).value, c.lib); }
  }

  /** Every step keeps the session readable and its turns tracked. */
  lemma {:induction false} StepKeepsTracked(d: Dict, step: Step, c: Config)
    requires Sound(c) && Timed(step) && TrackedContext(d, c.limits, c.lib)
    ensures TrackedContext(After(d, step, c), c.limits, c.lib)
  {
    hide Read, Tracked, Written, Timed, After, ReadsBack, Sound;
    SoundLimits(c);
    var s := Read(d, c.lib).value;
    StepReadsBack(d, step, c);
    WrittenTracked(s, step, c);
    if Written(s, step, c).Some? {
      TrackedReadsBack(Read(After(d, step, c), c.lib).value, Written(s, step, c).value, c.limits, c.lib);
    }
  }

  lemma SoundLimits(c: Config)
    requires Sound(c)
    ensures c.limits.turns >= 2
  {}

  lemma {:induction false} ReadNormalButTurns(d: Dict, lib: Lib)
    requires Read(d, lib).Ok?
    ensures NormalButTurns(Read(d, lib).value)
  {
    ReadNormal(d, lib);
    hide Read, NormalButTurns;
  }

  /** Over every run, the turns are numbered consecutively up to the counter and the window is within its limits. */
  lemma {:induction false} RunKeepsTracked(d: Dict, steps: seq<Step>, c: Config)
    requires Sound(c) && TrackedContext(d, c.limits, c.lib) && forall s :: s in steps ==> Timed(s)
    ensures TrackedContext(Run(d, steps, c), c.limits, c.lib)
  {
    hide TrackedContext, After, Timed, Sound;
    SoundLimits(c);
    if steps != [] {
      RunKeepsTracked(d, steps[..|steps| - 1], c);
      StepKeepsTracked(Run(d, steps[..|steps| - 1], c), steps[|steps| - 1], c);
    }
  }

  /** In every run from an empty session, a refresh reads back with the range of exactly the turns kept. */
  lemma {:induction false} RefreshCoversWindow(steps: seq<Step>, req: Request, c: Config)
    requires Sound(c) && NonEmpty(req.now) && forall s :: s in steps ==> Timed(s)
    ensures var before := Run(EmptyDict, steps, c);
            && Read(before, c.lib).Ok?
            && var s := Read(before, c.lib).value;
               var after := After(before, Summarized(req), c);
               && Read(after, c.lib).Ok?
               && (ChooseTrigger(s, req, c.policy, c.lib).Some? ==>
                     Read(after, c.lib).value.summary.sourceTurnRange
                       == Span(TurnCounter(s.annotations, c.lib), |s.recentTurns|))
  {
    hide Read, Tracked, ChooseTrigger, NonEmpty, Run, After, Timed, Sound, Written, ReadsBack, Span, TurnCounter;
    EmptyIsTracked(c.limits, c.lib);
    SoundLimits(c);
    RunKeepsTracked(EmptyDict, steps, c);
    IsTimed(req);
    var d := Run(EmptyDict, steps, c);
    StepReadsBack(d, Summarized(req), c);
    RefreshedRange(Read(d, c.lib).value, Read(After(d, Summarized(req), c), c.lib).value, req, c);
  }

  lemma {:induction false} RefreshedRange(s: SessionState, t: SessionState, req: Request, c: Config)
    requires Sound(c) && Tracked(s, c.limits, c.lib)
    requires var w := Written(s, Summarized(req), c); w.Some? ==> ReadsBack(t, w.value)
    ensures ChooseTrigger(s, req, c.policy, c.lib).Some? ==>
              t.summary.sourceTurnRange == Span(TurnCounter(s.annotations, c.lib), |s.recentTurns|)
  {
    hide ChooseTrigger, Numbered, SourceRange, Dedupe, Truncate, OpenThreads, Annotated, Fits, CounterOf, TurnCounter,
      Span, ReadsNumerals;
    RangeIsSpan(s.recentTurns, TurnCounter(s.annotations, c.lib), c.lib);
  }

  lemma IsTimed(req: Request)
    requires NonEmpty(req.now)
    ensures Timed(Summarized(req))
  {}

  // ---- read your write, through the stored session ----

  /** Recording one entity, with no pruning and whether or not it changes anything, makes the next reader of the
      session resolve its name to it. */
  lemma {:induction false} RecordedNameResolves(d: Dict, p: EntityRegistryManager.Payload, c: Config)
    requires Sound(c) && NonEmpty(p.readAt) && Read(d, c.lib).Ok?
    requires EntityRegistryManager.Usable(p) && Normalize(p.displayName) != ""
    requires !ReferenceResolver.IsDeictic(p.displayName, EntityRegistryManager.CleanType(p))
    requires EntityRegistryManager.ChangedCount(Read(d, c.lib).value.registry, [p]) > 0 ==>
               |EntityRegistryManager.UpsertAll(Read(d, c.lib).value.registry, [p]).entities| <= c.maxEntities
    ensures var r := Read(d, c.lib).value.registry;
            var after := After(d, EntitiesRecorded([p]), c);
            && Read(after, c.lib).Ok?
            && ReferenceResolver.Resolve(p.displayName, Read(after, c.lib).value.registry,
                EntityRegistryManager.CleanDomain(p),
                                         EntityRegistryManager.CleanType(p), false, c.clock)
                 == Some(ReferenceResolver.Resolved(EntityRegistryManager.TargetOf(r, p), ReferenceResolver.ExactName))
  {
    hide Read, Sound, NonEmpty, Normalize, After, Written, ReadsBack, Timed, EntityRegistryManager.Usable,
      EntityRegistryManager.CleanType, EntityRegistryManager.CleanDomain, EntityRegistryManager.TargetOf,
      EntityRegistryManager.UpsertAll, EntityRegistryManager.Upsert, ReferenceResolver.IsDeictic,
      ReferenceResolver.Resolve, EntityRegistryManager.ChangedCount;
    SoundLimits(c);
    var s, step := Read(d, c.lib).value, EntitiesRecorded([p]);
    var r' := EntityRegistryManager.Upsert(s.registry, p).0;
    RecordingIsTimed(p);
    StepReadsBack(d, step, c);
    var t := Read(After(d, step, c), c.lib).value;
    OneRecorded(s, t, p, c);
    EntityProofs.UpsertResolves(s.registry, p, c.clock);
    ResolvesInLonger(p.displayName, r', t.registry, EntityRegistryManager.CleanDomain(p),
                     EntityRegistryManager.CleanType(p), c.clock);
  }

  lemma RecordingIsTimed(p: EntityRegistryManager.Payload)
    requires NonEmpty(p.readAt)
    ensures Timed(EntitiesRecorded([p]))
  {}

  /** One recorded payload, nothing pruned: the next reader's entities start with the upserted ones. */
  lemma OneRecorded(s: SessionState, t: SessionState, p: EntityRegistryManager.Payload, c: Config)
    requires c.limits.turns >= 2
    requires EntityRegistryManager.ChangedCount(s.registry, [p]) > 0 ==>
               |EntityRegistryManager.UpsertAll(s.registry, [p]).entities| <= c.maxEntities
    requires var w := Written(s, EntitiesRecorded([p]), c); if w.None? then t == s else ReadsBack(t, w.value)
    ensures EntityRegistryManager.Upsert(s.registry, p).0.entities <= t.registry.entities
  {
    hide EntityRegistryManager.Upsert, EntityRegistryManager.ChangedCount, EntityRegistryManager.Index, Restrip;
    EntityProofs.OneUpsert(s.registry, p);
    EntityRegistryManager.NothingChanged(s.registry, [p]);
  }

  /** Entities added behind change no exact match. */
  lemma ResolvesInLonger(value: string, r: EntityRegistry, r': EntityRegistry, domain: string, entityType: string,
                         clock: EntityRegistryManager.Clock)
    requires r.entities <= r'.entities
    requires ReferenceResolver.Resolve(value, r, domain, entityType, false, clock).Some?
    requires ReferenceResolver.Resolve(value, r, domain, entityType, false, clock).value.reason
              == ReferenceResolver.ExactName
    ensures ReferenceResolver.Resolve(value, r', domain, entityType, false, clock)
         == ReferenceResolver.Resolve(value, r, domain, entityType, false, clock)
  {
    hide Normalize, ReferenceResolver.IsDeictic, ReferenceResolver.Best, ReferenceResolver.FindShown,
      ReferenceResolver.Called;
    var n := Normalize(value);
    FirstIs(ReferenceResolver.Caller(n, domain, entityType), r'.entities,
        ReferenceResolver.Scan(r.entities, n, domain, entityType));
  }
}
