/** What a reader makes of stored values that are missing, blank, of another type, or not in order. */
module LenientReading {
  import opened Prelude
  import opened Text
  import opened Values
  import opened ContextTypes
  import opened ContextSerialization

  // ---- single fields ----

  predicate IsText(v: Value) { v.VStr? && !AllBlank(v.s) }

  /** A field holds this text: the stored one without outer blanks, or the default for anything but such a text. */
  predicate Shows(v: Value, default: string, text: string) {
    if IsText(v) then text == Strip(v.s) else text == default
  }

  predicate MayShow(v: Value, text: Option<string>) {
    if IsText(v) then text == Some(Strip(v.s)) else text == None
  }

  lemma TextRead(v: Value, default: string)
    ensures Shows(v, default, NonEmptyOr(v, default)) && MayShow(v, OptStr(v))
  {
    hide Strip, AllBlank;
    if v.VStr? { StripEmptyIff(v.s); }
  }

  lemma TextsRead()
    ensures forall v, d {:trigger NonEmptyOr(v, d)} :: Shows(v, d, NonEmptyOr(v, d))
    ensures forall v {:trigger OptStr(v)} :: MayShow(v, OptStr(v))
  {
    hide OptStr, NonEmptyOr, Shows, MayShow;
    forall v, d ensures Shows(v, d, NonEmptyOr(v, d)) { TextRead(v, d); }
    forall v ensures MayShow(v, OptStr(v)) { TextRead(v, ""); }
  }

  /** A stored number counts whatever its type, a fraction cut off towards zero; a truth value counts as 0 or 1. */
  lemma NumberRead(v: Value, default: int, lib: Lib)
    ensures var n := AsInt(v, default, lib);
            && (v.VInt? ==> n == v.i) && (v.VBool? ==> n == if v.b then 1 else 0)
            && (v.VFloat? && v.r >= 0.0 ==> n as real <= v.r < n as real + 1.0)
            && (v.VFloat? && v.r < 0.0 ==> n as real - 1.0 < v.r <= n as real)
            && (v.VStr? && IsText(v) ==> n == match lib.toInt(Strip(v.s)) case Some(i) => i case None => default)
            && (v.VStr? && !IsText(v) ==> n == default) && (v.VNull? || v.VList? || v.VDict? ==> n == default)
  {
    hide Strip, AllBlank;
    if v.VStr? { StripEmptyIff(v.s); }
  }

  lemma RealRead(v: Value, default: real, lib: Lib)
    ensures var r := AsFloat(v, default, lib);
            && (v.VInt? ==> r == v.i as real) && (v.VFloat? ==> r == v.r)
                && (v.VBool? ==> r == if v.b then 1.0 else 0.0)
            && (v.VStr? && IsText(v) ==> r == match lib.toFloat(Strip(v.s)) case Some(x) => x case None => default)
            && (v.VStr? && !IsText(v) ==> r == default) && (v.VNull? || v.VList? || v.VDict? ==> r == default)
  {
    hide Strip, AllBlank;
    if v.VStr? { StripEmptyIff(v.s); }
  }

  // ---- records ----

  /** Every dictionary is read as a turn, whatever it lacks. */
  lemma TurnRead(d: Dict)
    ensures ParseTurn(VDict(d)).Some?
    ensures var t := ParseTurn(VDict(d)).value;
            && MayShow(Get(d, "turn_id"), t.turnId) && Shows(Get(d, "role"), "", t.role)
            && Shows(Get(d, "text"), "", t.text) && Shows(Get(d, "normalized_text"), "", t.normalizedText)
            && MayShow(Get(d, "intent"), t.intent) && MayShow(Get(d, "skill_id"), t.skillId)
            && MayShow(Get(d, "timestamp"), t.timestamp)
            && (Get(d, "references").VDict? ==> VDict(t.references) == Get(d, "references"))
            && (!Get(d, "references").VDict? ==> t.references == EmptyDict)
  {
    hide OptStr, NonEmptyOr, Shows, MayShow;
    TextsRead();
  }

  lemma PendingRead(d: Dict)
    ensures ParsePending(VDict(d)).Some?
    ensures var p := ParsePending(VDict(d)).value;
            && Shows(Get(d, "kind"), "clarification", p.kind) && Shows(Get(d, "status"), "pending", p.status)
            && MayShow(Get(d, "intent"), p.intent) && MayShow(Get(d, "question"), p.question)
            && MayShow(Get(d, "expires_at"), p.expiresAt) && MayShow(Get(d, "created_at"), p.createdAt)
            && MayShow(Get(d, "origin_turn_id"), p.originTurnId) && MayShow(Get(d, "skill_id"), p.skillId)
            && (!Get(d, "proposed_action").VDict? ==> p.proposedAction == EmptyDict)
            && (!Get(d, "expected_fields").VList? ==> p.expectedFields == [])
  {
    hide OptStr, NonEmptyOr, Shows, MayShow;
    TextsRead();
  }

  lemma EntityRead(d: Dict, lib: Lib)
    ensures EntityParser(lib)(VDict(d)).Some?
    ensures var e := EntityParser(lib)(VDict(d)).value;
            && Shows(Get(d, "domain"), "", e.domain) && Shows(Get(d, "entity_type"), "", e.entityType)
            && Shows(Get(d, "display_name"), "", e.displayName) && MayShow(Get(d, "entity_id"), e.entityId)
            && MayShow(Get(d, "last_confirmed_at"), e.lastConfirmedAt)
            && (Get(d, "salience").VInt? ==> e.salience == Get(d, "salience").i as real)
            && (Get(d, "salience").VNull? ==> e.salience == 0.0)
            && (!Get(d, "aliases").VList? ==> e.aliases == [])
  {
    hide OptStr, NonEmptyOr, Shows, MayShow, AsFloat;
    TextsRead();
    RealRead(Get(d, "salience"), 0.0, lib);
  }

  // ---- lists ----

  lemma {:induction false} CollectConcat<A, B>(f: A -> Option<B>, a: seq<A>, b: seq<A>)
    ensures Collect(f, a + b) == Collect(f, a) + Collect(f, b)
  {
    if b == [] {
      assert a + b == a;
    } else {
      assert (a + b)[..|a + b| - 1] == a + b[..|b| - 1];
      CollectConcat(f, a, b[..|b| - 1]);
    }
  }

  lemma CollectSkips<A, B>(f: A -> Option<B>, a: seq<A>, x: A, b: seq<A>)
    requires f(x).None?
    ensures Collect(f, a + [x] + b) == Collect(f, a + b)
  {
    CollectConcat(f, a + [x], b);
    CollectConcat(f, a, [x]);
    CollectConcat(f, a, b);
    assert [x][..0] == [];
  }

  lemma {:induction false} CollectEach<A, B>(f: A -> Option<B>, xs: seq<A>, k: nat)
    requires k < |xs| && forall x :: x in xs ==> f(x).Some?
    ensures |Collect(f, xs)| == |xs| && Some(Collect(f, xs)[k]) == f(xs[k])
  {
    var front := xs[..|xs| - 1];
    if front == [] {
      assert Collect(f, front) == [];
    } else {
      CollectEach(f, front, if k < |front| then k else 0);
    }
  }

  const TURNS := "recent_turns"

  /** The two differ under the turns' key only. */
  ghost predicate SameElsewhere(a: Dict, b: Dict) {
    forall k :: k != TURNS ==> Get(a, k) == Get(b, k) && Has(a, k) == Has(b, k)
  }

  lemma OtherFields(a: Dict, b: Dict)
    requires SameElsewhere(a, b)
    ensures Get(a, "context_version") == Get(b, "context_version")
    ensures Get(a, "active_agent_id") == Get(b, "active_agent_id")
    ensures Get(a, "active_skill_id") == Get(b, "active_skill_id")
    ensures Get(a, "pending_interaction") == Get(b, "pending_interaction")
    ensures Get(a, "session_summary") == Get(b, "session_summary")
    ensures Get(a, "entity_registry") == Get(b, "entity_registry")
    ensures Get(a, "focus_stack") == Get(b, "focus_stack")
    ensures Get(a, "context_annotations") == Get(b, "context_annotations")
    ensures Get(a, "channel_runtime") == Get(b, "channel_runtime")
    ensures Get(a, "main_agent_token_session") == Get(b, "main_agent_token_session")
  {
    hide Get, Has;
  }

  lemma SameBase(a: Dict, b: Dict, lib: Lib)
    requires SameElsewhere(a, b)
    requires Collect(ParseTurn, Items(Get(a, TURNS))) == Collect(ParseTurn, Items(Get(b, TURNS)))
    ensures ReadBase(a, lib) == ReadBase(b, lib)
  {
    hide ParseTurn, AsInt, NonEmptyOr, OptStr, ParsePending, ParseSummary, ParseRegistry, ParseStrList, Get,
        SameElsewhere,
      Items, DictOr, Collect;
    OtherFields(a, b);
  }

  lemma OtherLegacyKeys(a: Dict, b: Dict)
    requires SameElsewhere(a, b)
    ensures Get(a, "pending_clarification") == Get(b, "pending_clarification")
    ensures Get(a, "last_list_name") == Get(b, "last_list_name")
    ensures Get(a, "last_switch_name") == Get(b, "last_switch_name")
    ensures Get(a, "last_calendar_person") == Get(b, "last_calendar_person")
    ensures Get(a, "main_sticky_followup_turns_remaining") == Get(b, "main_sticky_followup_turns_remaining")
    ensures Get(a, "main_sticky_followup_reason") == Get(b, "main_sticky_followup_reason")
    ensures Get(a, "main_agent_token_session") == Get(b, "main_agent_token_session")
    ensures Get(a, "channel_session") == Get(b, "channel_session")
  {
    hide Get, Has;
  }

  lemma SameLegacy(s: SessionState, a: Dict, b: Dict, lib: Lib)
    requires SameElsewhere(a, b)
    ensures Adapt(s, a, lib) == Adapt(s, b, lib)
  {
    hide AdaptPending, AdaptEntities, AdaptSticky, AdaptRuntime, SameElsewhere;
    var s1 := AdaptPending(s, a);
    SameParts(s, a, b, lib);
    SameParts(s1, a, b, lib);
    SameParts(AdaptEntities(s1, a), a, b, lib);
    SameParts(AdaptSticky(AdaptEntities(s1, a), a, lib), a, b, lib);
  }

  lemma SameParts(s: SessionState, a: Dict, b: Dict, lib: Lib)
    requires SameElsewhere(a, b)
    ensures AdaptPending(s, a) == AdaptPending(s, b) && AdaptEntities(s, a) == AdaptEntities(s, b)
    ensures AdaptSticky(s, a, lib) == AdaptSticky(s, b, lib) && AdaptRuntime(s, a) == AdaptRuntime(s, b)
  {
    hide Get, SameElsewhere, EnsureEntity, LegacyPending, AsInt, NonEmptyOr;
    OtherLegacyKeys(a, b);
  }

  /** An entry among the turns that is not a dictionary makes no difference to the context that is read. */
  lemma {:induction false} JunkTurnIsSkipped(raw: Dict, lib: Lib, a: seq<Value>, junk: Value, b: seq<Value>)
    requires !junk.VDict? && Get(raw, "recent_turns") == VList(a + [junk] + b)
    ensures Read(raw, lib) == Read(Put(raw, "recent_turns", VList(a + b)), lib)
  {
    hide ParseTurn, Adapt, FixVersion, ReadBase;
    var other := Put(raw, "recent_turns", VList(a + b));
    NotATurn(junk);
    CollectSkips(ParseTurn, a, junk, b);
    SameBase(raw, other, lib);
    if ReadBase(raw, lib).Ok? { SameLegacy(ReadBase(raw, lib).value, raw, other, lib); }
  }

  lemma NotATurn(junk: Value)
    requires !junk.VDict?
    ensures ParseTurn(junk) == None
  {}

  /** A list of dictionaries is read turn by turn, in order. */
  lemma TurnsRead(ds: seq<Dict>, k: nat)
    requires k < |ds|
    ensures var turns := Collect(ParseTurn, MapSeq(DictValue, ds));
            |turns| == |ds| && Some(turns[k]) == ParseTurn(VDict(ds[k]))
  {
    hide ParseTurn;
    forall d | d in ds ensures ParseTurn(VDict(d)).Some? { TurnRead(d); }
    var vs := MapSeq(DictValue, ds);
    forall v | v in vs ensures ParseTurn(v).Some? {
      var i :| 0 <= i < |vs| && vs[i] == v;
      assert v == VDict(ds[i]) && ds[i] in ds;
    }
    CollectEach(ParseTurn, vs, k);
  }
}
