/** Names across the registry and the resolver: what is written can be read, what resolved keeps resolving,
    and the alias index agrees with the entities. */
module EntityProofs {
  import opened Prelude
  import opened Text
  import opened Values
  import opened EntityNames
  import opened ContextTypes
  import opened EntityRegistryManager
  import opened ReferenceResolver

  // ---- aliases ----

  lemma ShortFormsNormal(base: string)
    requires Canonical(base)
    ensures forall s :: s in ShortForms(base) ==> Canonical(s)
  {
    hide Strip, Canonical;
    if EndsWith(base, " list") {
      SliceCanonical(base, 0, |base| - 5);
      assert base[0..|base| - 5] == base[..|base| - 5];
    }
    if StartsWith(base, "the ") { SliceCanonical(base, 4, |base|); assert base[4..|base|] == base[4..]; }
    if StartsWith(base, "my ") { SliceCanonical(base, 3, |base|); assert base[3..|base|] == base[3..]; }
  }

  lemma SliceCanonical(base: string, from: nat, to: nat)
    requires Canonical(base) && from <= to <= |base|
    ensures Canonical(Strip(base[from..to]))
  {
    hide Strip;
    var piece := base[from..to];
    var i, j := StripIsSlice(piece);
    var r := Strip(piece);
    assert forall k :: 0 <= k < |r| ==> r[k] == base[from + i + k];
  }

  lemma {:induction false} CollectTexts(xs: seq<string>)
    ensures forall y :: y in Collect(NonEmptyText, xs) <==> y in xs && y != ""
  {
    if xs != [] {
      var n := |xs| - 1;
      CollectTexts(xs[..n]);
      assert xs == xs[..n] + [xs[n]];
    }
  }

  /** Normalized aliases are sorted, canonical, not empty, and hold the name's own normal form. */
  lemma AliasesOfName(name: string, aliases: seq<string>)
    ensures var r := NormalizeAliases(name, aliases);
            && Increasing(r)
            && (forall a :: a in r ==> a != "" && Canonical(a))
            && (Normalize(name) != "" ==> Normalize(name) in r)
            && (forall a :: a in aliases && Normalize(a) != "" ==> Normalize(a) in r)
  {
    hide Normalize, Strip, ShortForms, Canonical;
    var base := Normalize(name);
    NormalizeCanonical(name);
    ShortFormsNormal(base);
    forall a | a in aliases && NonEmptyNormal(a).Some?
        ensures Canonical(NonEmptyNormal(a).value) { NormalizeCanonical(a); }
    CollectForall(NonEmptyNormal, aliases, a => Canonical(a));
    CollectHas(aliases);
    var all := [base] + Collect(NonEmptyNormal, aliases) + ShortForms(base);
    CollectTexts(all);
    InsertAllIncreasing([], Collect(NonEmptyText, all));
  }

  lemma {:induction false} CollectHas(aliases: seq<string>)
    ensures forall a :: a in aliases && Normalize(a) != "" ==> Normalize(a) in Collect(NonEmptyNormal, aliases)
  {
    hide Normalize;
    if aliases != [] {
      CollectHas(aliases[..|aliases| - 1]);
    }
  }

  lemma InAliasSet(aliases: seq<string>, a: string)
    requires a in aliases && a != "" && Canonical(a)
    ensures a in AliasSet(aliases)
  {
    CanonicalFixed(a);
  }

  lemma NameInOwnAliases(name: string, aliases: seq<string>)
    requires Normalize(name) != ""
    ensures Normalize(name) in AliasSet(NormalizeAliases(name, aliases))
  {
    AliasesOfName(name, aliases);
    hide NormalizeAliases;
    InAliasSet(NormalizeAliases(name, aliases), Normalize(name));
  }

  lemma AliasSetGrows(some: seq<string>, more: seq<string>)
    requires forall a :: a in some ==> a in more
    ensures AliasSet(some) <= AliasSet(more)
  {
    hide Normalize;
  }

  // ---- read your write ----

  /** Whoever the resolver would answer to, an upsert would recognize. */
  lemma CalledIsRecognized(e: TrackedEntity, name: string, aliases: seq<string>, domain: string, entityType: string)
    requires SameKind(e, domain, entityType) && Called(e, Normalize(name)) && Normalize(name) != ""
    ensures Recognized(e, domain, entityType, name, aliases)
  {
    hide Normalize, AliasSet;
  }

  /** `after` is `before` with entity `i` shown under the payload's name: merged, or new at the end. */
  ghost predicate WrittenAt(before: seq<TrackedEntity>, after: seq<TrackedEntity>, i: nat, p: Payload) {
    && i <= |before| && |after| == MaxInt(|before|, i + 1)
    && (forall j :: 0 <= j < |before| && j != i ==> after[j] == before[j])
    && after[i].displayName == CleanName(p) && SameKind(after[i], CleanDomain(p), CleanType(p))
    && after[i] == if i < |before| then MergeEntity(before[i], p) else NewEntity(p)
  }

  /** After an upsert the target entity is shown under the upserted name, and no other is touched. */
  lemma UpsertShape(r: EntityRegistry, p: Payload)
    requires Usable(p)
    ensures WrittenAt(r.entities, Upsert(r, p).0.entities, TargetOf(r, p), p)
  {
    hide CleanDomain, CleanType, CleanName, NormalizeAliases, Normalize, Index, NewEntity, MergeEntity, Usable,
      TargetOf;
    var i := TargetOf(r, p);
    TargetKind(r, p);
    NewEntityShape(p);
    if i < |r.entities| { MergeEntityShape(r.entities[i], p); }
  }

  lemma TargetKind(r: EntityRegistry, p: Payload)
    ensures var i := TargetOf(r, p);
            i <= |r.entities| && (i < |r.entities| ==> SameKind(r.entities[i], CleanDomain(p), CleanType(p)))
  {
    hide CleanDomain, CleanType, CleanName, NormalizeAliases, Normalize, AliasSet;
  }

  lemma NewEntityShape(p: Payload)
    ensures var e := NewEntity(p);
            && e.displayName == CleanName(p) && SameKind(e, CleanDomain(p), CleanType(p))
            && e.aliases == NormalizeAliases(CleanName(p), p.aliases)
  {
    hide CleanDomain, CleanType, CleanName, NormalizeAliases, ClampSalience, ConfirmedAt, OptText;
  }

  lemma MergeEntityShape(e: TrackedEntity, p: Payload)
    ensures var m := MergeEntity(e, p);
            && m.displayName == CleanName(p) && SameKind(m, e.domain, e.entityType)
            && m.aliases == InsertAll(InsertAll([], e.aliases), NormalizeAliases(CleanName(p), p.aliases))
  {
    hide CleanName, NormalizeAliases, ClampSalience, ConfirmedAt, OptText, InsertAll, NextSalience, MergeHints;
  }

  /** Read your write: the name just upserted resolves, in the same domain and type, to the upserted entity. */
  lemma {:induction false} UpsertResolves(r: EntityRegistry, p: Payload, clock: Clock)
    requires Usable(p) && Normalize(p.displayName) != "" && !IsDeictic(p.displayName, CleanType(p))
    ensures Resolve(p.displayName, Upsert(r, p).0, CleanDomain(p), CleanType(p), false, clock)
         == Some(Resolved(TargetOf(r, p), ExactName))
  {
    var n := Normalize(p.displayName);
    var aliases := NormalizeAliases(CleanName(p), p.aliases);
    NormalizeStripped(p.displayName);
    UpsertShape(r, p);
    var i, es := TargetOf(r, p), Upsert(r, p).0.entities;
    var caller := Caller(n, CleanDomain(p), CleanType(p));
    hide Upsert, Normalize, NormalizeAliases, IsDeictic, Strip, Lower, Recognized, Called, MergeEntity, NewEntity;
    forall j | 0 <= j < i ensures !caller(es[j]) {
      assert !Recognized(r.entities[j], CleanDomain(p), CleanType(p), CleanName(p), aliases);
      if caller(r.entities[j]) {
        CalledIsRecognized(r.entities[j], CleanName(p), aliases, CleanDomain(p), CleanType(p));
        assert false;
      }
    }
    ShownIsCalled(es[i], n);
    FirstIs(caller, es, i);
  }

  lemma ShownIsCalled(e: TrackedEntity, n: string)
    requires Normalize(e.displayName) == n
    ensures Called(e, n)
  {
    hide Normalize, AliasSet;
  }

  // ---- what an upsert writes ----

  /** A new entity holds what was recorded, its salience within 0 and 1 and its time as given or as the clock says. */
  lemma NewEntityHolds(p: Payload)
    ensures var e := NewEntity(p);
            && (match p.salience
                case None => e.salience == 0.5
                case Some(r) => (0.0 <= r <= 1.0 ==> e.salience == r) && (r < 0.0 ==> e.salience == 0.0)
                                && (r > 1.0 ==> e.salience == 1.0))
            && (AllBlank(p.lastConfirmedAt) ==> e.lastConfirmedAt == Some(p.readAt))
            && (!AllBlank(p.lastConfirmedAt) ==> e.lastConfirmedAt == Some(Strip(p.lastConfirmedAt)))
            && (AllBlank(p.entityId) ==> e.entityId == None)
            && (!AllBlank(p.entityId) ==> e.entityId == Some(Strip(p.entityId)))
            && e.hints == p.hints
  {
    hide Strip, AllBlank, CleanDomain, CleanType, CleanName, NormalizeAliases;
    StripEmptyIff(p.lastConfirmedAt);
    StripEmptyIff(p.entityId);
  }

  /** A merge takes over name, time, identifier and hints, unites the aliases, and never lowers the salience. */
  lemma MergeHolds(e: TrackedEntity, p: Payload)
    ensures var m, added := MergeEntity(e, p), NewEntity(p);
            && m.domain == e.domain && m.entityType == e.entityType
            && m.displayName == added.displayName && m.lastConfirmedAt == added.lastConfirmedAt
            && m.entityId == (if added.entityId.Some? then added.entityId else e.entityId)
            && (forall a :: a in m.aliases <==> a in e.aliases || a in added.aliases)
            && m.salience >= e.salience && m.salience >= added.salience - 0.000001
            && (m.salience == e.salience || m.salience == added.salience)
            && (forall k :: Has(m.hints, k) <==> Has(e.hints, k) || Has(p.hints, k))
            && (forall k :: Has(p.hints, k) ==> Get(m.hints, k) == Get(p.hints, k))
            && (forall k :: !Has(p.hints, k) ==> Get(m.hints, k) == Get(e.hints, k))
  {
    hide CleanDomain, CleanType, CleanName, NormalizeAliases, ConfirmedAt, OptText, ClampSalience;
    HintsMerged(e.hints, p.hints);
  }

  lemma HintsMerged(d: Dict, more: Dict)
    ensures var m := MergeHints(d, more);
            && (forall k :: Has(m, k) <==> Has(d, k) || Has(more, k))
            && (forall k :: Has(more, k) ==> Get(m, k) == Get(more, k))
            && (forall k :: !Has(more, k) ==> Get(m, k) == Get(d, k))
  {
    var united := d.vals + more.vals;
    forall k | Has(more, k) ensures united[k] == more.vals[k] {}
  }

  /** The forms an entity or a payload goes by: its name's and its aliases'. */
  function FormsOf(name: string, aliases: seq<string>): set<string> { {Normalize(name)} + AliasSet(aliases) }

  /** Two go by a common form: the same name, or a common form that is not empty. */
  predicate Share(e: TrackedEntity, name: string, aliases: seq<string>) {
    Normalize(e.displayName) == Normalize(name)
    || exists n | n in FormsOf(e.displayName, e.aliases) :: n != "" && n in FormsOf(name, aliases)
  }

  /** An upsert recognizes exactly the entities of its kind that go by a common form. */
  lemma RecognizedIff(e: TrackedEntity, domain: string, entityType: string, name: string, aliases: seq<string>)
    requires "" !in AliasSet(e.aliases) || "" !in AliasSet(aliases)
    ensures Recognized(e, domain, entityType, name, aliases) <==>
              SameKind(e, domain, entityType) && Share(e, name, aliases)
  {
    hide Normalize, AliasSet;
    var known, wanted := AliasSet(e.aliases), AliasSet(aliases);
    var candidate, target := Normalize(e.displayName), Normalize(name);
    if Recognized(e, domain, entityType, name, aliases) && candidate != target {
      var n := if target != "" && target in known then target
               else if candidate != "" && candidate in wanted then candidate
               else var k :| k in known * wanted; k;
      assert n in FormsOf(e.displayName, e.aliases) && n in FormsOf(name, aliases);
    }
    if SameKind(e, domain, entityType) && Share(e, name, aliases) && candidate != target {
      var n :| n in FormsOf(e.displayName, e.aliases) && n != "" && n in FormsOf(name, aliases);
      if n in known && n in wanted { assert n in known * wanted; }
    }
  }

  /** An upsert adds an entity exactly when no entity of its kind goes by a common form. */
  lemma {:induction false} AddsIffStranger(r: EntityRegistry, p: Payload)
    requires Usable(p)
    ensures var aliases := NormalizeAliases(CleanName(p), p.aliases);
            |Upsert(r, p).0.entities| == |r.entities| + 1 <==>
              forall e :: e in r.entities && SameKind(e, CleanDomain(p), CleanType(p)) ==>
                !Share(e, CleanName(p), aliases)
  {
    hide Usable, Upsert, Recognized, Share, NormalizeAliases, CleanName, CleanDomain, CleanType, TargetOf, Normalize;
    var aliases := NormalizeAliases(CleanName(p), p.aliases);
    AliasesOfName(CleanName(p), p.aliases);
    NoEmptyForm(aliases);
    UpsertShape(r, p);
    TargetIsFirst(r, p);
    forall e: TrackedEntity
      ensures Recognized(e, CleanDomain(p), CleanType(p), CleanName(p), aliases) <==>
                SameKind(e, CleanDomain(p), CleanType(p)) && Share(e, CleanName(p), aliases)
    {
      RecognizedIff(e, CleanDomain(p), CleanType(p), CleanName(p), aliases);
    }
  }

  lemma NoEmptyForm(aliases: seq<string>)
    requires forall a :: a in aliases ==> a != "" && Canonical(a)
    ensures "" !in AliasSet(aliases)
  {
    forall a | a in aliases ensures Normalize(a) != "" { CanonicalFixed(a); }
    hide Normalize;
  }

  lemma TargetIsFirst(r: EntityRegistry, p: Payload)
    ensures var i, aliases := TargetOf(r, p), NormalizeAliases(CleanName(p), p.aliases);
            && i <= |r.entities|
            && (i < |r.entities| ==> Recognized(r.entities[i], CleanDomain(p), CleanType(p), CleanName(p), aliases))
            && forall j :: 0 <= j < i ==> !Recognized(r.entities[j], CleanDomain(p), CleanType(p), CleanName(p),
                aliases)
  {
    hide NormalizeAliases, CleanName, CleanDomain, CleanType, Recognized;
  }

  /** The short forms: a name without its article or its trailing word "list" is an alias of it. */
  lemma ShortFormIsAlias(s: string, aliases: seq<string>)
    requires PlainWord(s)
    ensures s in NormalizeAliases(s + " list", aliases)
    ensures s in NormalizeAliases("the " + s, aliases)
    ensures s in NormalizeAliases("my " + s, aliases)
  {
    hide Normalize, Strip, ShortForms, NormalizeAliases;
    PlainWordIsNormal(s);
    NamedLists(s);
    ShortsOf(s);
    ShortIsAlias(s + " list", aliases, s);
    ShortIsAlias("the " + s, aliases, s);
    ShortIsAlias("my " + s, aliases, s);
  }

  lemma ShortIsAlias(name: string, aliases: seq<string>, short: string)
    requires short in ShortForms(Normalize(name)) && short != ""
    ensures short in NormalizeAliases(name, aliases)
  {
    hide Normalize, ShortForms;
    var all := [Normalize(name)] + Collect(NonEmptyNormal, aliases) + ShortForms(Normalize(name));
    CollectTexts(all);
  }

  lemma NamedLists(s: string)
    requires PlainWord(s)
    ensures Normalize(s + " list") == s + " list" && Normalize("the " + s) == "the " + s
              && Normalize("my " + s) == "my " + s
  {
    hide Normalize;
    CanonicalFixed(s + " list");
    CanonicalFixed("the " + s);
    CanonicalFixed("my " + s);
  }

  lemma ShortsOf(s: string)
    requires PlainWord(s)
    ensures s in ShortForms(s + " list") && s in ShortForms("the " + s) && s in ShortForms("my " + s)
  {
    hide Strip;
    PlainWordIsNormal(s);
    var list, the, my := s + " list", "the " + s, "my " + s;
    assert list[..|list| - 5] == s && list[|list| - 5..] == " list";
    assert the[4..] == s && my[3..] == s;
  }

  // ---- names persist ----

  predicate Named(e: TrackedEntity) {
    Normalize(e.displayName) != "" ==> Normalize(e.displayName) in AliasSet(e.aliases)
  }

  /** The normal form of every entity's name is among its normalized aliases. */
  ghost predicate NamesAreAliases(es: seq<TrackedEntity>) {
    forall i :: 0 <= i < |es| ==> Named(es[i])
  }

  lemma NewEntityNamed(p: Payload)
    ensures Named(NewEntity(p))
  {
    hide Normalize, NormalizeAliases, CleanName, CleanDomain, CleanType, AliasSet, NewEntity;
    NewEntityShape(p);
    if Normalize(CleanName(p)) != "" { NameInOwnAliases(CleanName(p), p.aliases); }
  }

  lemma MergeEntityNamed(e: TrackedEntity, p: Payload)
    ensures Named(MergeEntity(e, p))
    ensures AliasSet(e.aliases) <= AliasSet(MergeEntity(e, p).aliases)
  {
    hide Normalize, NormalizeAliases, CleanName, CleanDomain, CleanType, AliasSet, MergeEntity, InsertAll;
    MergeEntityShape(e, p);
    var m, added := MergeEntity(e, p), NormalizeAliases(CleanName(p), p.aliases);
    AliasSetGrows(e.aliases, m.aliases);
    AliasSetGrows(added, m.aliases);
    if Normalize(CleanName(p)) != "" { NameInOwnAliases(CleanName(p), p.aliases); }
  }

  /** Whoever is called `n` by an alias or a name of its own is still called `n` after a merge. */
  lemma MergeKeepsCaller(e: TrackedEntity, p: Payload, n: string)
    requires Named(e) && n != "" && Called(e, n)
    ensures SameKind(MergeEntity(e, p), e.domain, e.entityType) && Called(MergeEntity(e, p), n)
  {
    hide Normalize, NormalizeAliases, CleanName, AliasSet, MergeEntity, InsertAll;
    MergeEntityShape(e, p);
    MergeEntityNamed(e, p);
  }

  lemma {:induction false} UpsertKeepsNames(r: EntityRegistry, p: Payload, n: string, domain: string,
      entityType: string)
    requires NamesAreAliases(r.entities) && n != ""
    ensures var r' := Upsert(r, p).0;
            && NamesAreAliases(r'.entities) && |r'.entities| >= |r.entities|
            && (Scan(r.entities, n, domain, entityType) < |r.entities| ==>
                  Scan(r'.entities, n, domain, entityType) <= Scan(r.entities, n, domain, entityType))
  {
    hide Usable, Upsert, TargetOf, Named, Called, MergeEntity, NewEntity, CleanName, CleanDomain, CleanType;
    if !Usable(p) {
      UnusableUpsert(r, p);
      return;
    }
    var es, es', i := r.entities, Upsert(r, p).0.entities, TargetOf(r, p);
    UpsertShape(r, p);
    if i < |es| { MergeEntityNamed(es[i], p); } else { NewEntityNamed(p); }
    var k := Scan(es, n, domain, entityType);
    if k < |es| {
      if k == i { MergeKeepsCaller(es[k], p, n); }
      assert Caller(n, domain, entityType)(es'[k]);
    }
  }

  lemma UnusableUpsert(r: EntityRegistry, p: Payload)
    requires !Usable(p)
    ensures Upsert(r, p) == (r, false)
  {
    hide TargetOf, Usable;
  }

  lemma {:induction false} NamesPersist(r: EntityRegistry, ps: seq<Payload>, n: string, domain: string,
      entityType: string)
    requires NamesAreAliases(r.entities) && n != "" && Scan(r.entities, n, domain, entityType) < |r.entities|
    ensures var r' := UpsertAll(r, ps);
            && NamesAreAliases(r'.entities)
            && Scan(r'.entities, n, domain, entityType) < |r'.entities|
            && Scan(r'.entities, n, domain, entityType) <= Scan(r.entities, n, domain, entityType)
  {
    hide Upsert, NamesAreAliases, Scan;
    if ps != [] {
      var mid := UpsertAll(r, ps[..|ps| - 1]);
      NamesPersist(r, ps[..|ps| - 1], n, domain, entityType);
      UpsertKeepsNames(mid, ps[|ps| - 1], n, domain, entityType);
    }
  }

  // ---- the index ----

  lemma {:induction false} IndexAppend(es: seq<TrackedEntity>, e: TrackedEntity)
    ensures Index(es + [e]) == AddEntity(Index(es), e)
  {
    assert (es + [e])[..|es|] == es;
  }

  lemma {:induction false} AddedAlias(m: Dict, display: string, aliases: seq<string>, n: string)
    requires n != ""
    ensures Get(AddAliases(m, display, aliases), n)
         == if exists a | a in aliases :: Normalize(a) == n then VStr(display) else Get(m, n)
  {
    hide Normalize, Put;
    if aliases != [] {
      var k := |aliases| - 1;
      AddedAlias(m, display, aliases[..k], n);
      assert aliases == aliases[..k] + [aliases[k]];
    }
  }

  // ---- exactly when a name persists ----

  /** A canonical text longer than every text in play. */
  function Longer(c: char, n: nat): (s: string)
    ensures |s| == n && forall i :: 0 <= i < n ==> s[i] == c
  {
    seq(n, i => c)
  }

  lemma LongerIsClean(c: char, n: nat)
    requires 'a' <= c <= 'z' && n > 0
    ensures Strip(Longer(c, n)) == Longer(c, n) && Lower(Longer(c, n)) == Longer(c, n)
  {
    hide Strip, Longer;
    StripFixed(Longer(c, n));
    assert Lower(Longer(c, n)) == Longer(c, n);
  }

  function LongestName(es: seq<TrackedEntity>): (n: nat)
    ensures forall i :: 0 <= i < |es| ==> |es[i].domain| <= n && |Strip(es[i].displayName)| <= n
  {
    if es == [] then 0
    else
      var rest, e := LongestName(es[1..]), es[0];
      MaxInt(rest, MaxInt(|e.domain|, |Strip(e.displayName)|))
  }

  /** Somebody else records the alias `n` for a fresh name in a fresh domain. */
  function Intruder(r: EntityRegistry, n: string): Payload {
    var long := LongestName(r.entities) + 1;
    Payload(Longer('d', long), "t", Longer('z', long), [n], None, "", "", EmptyDict, "t")
  }

  lemma IntruderText(r: EntityRegistry, n: string)
    ensures var p := Intruder(r, n);
            && CleanDomain(p) == p.domain && CleanType(p) == p.entityType && CleanName(p) == p.displayName
            && |p.domain| > LongestName(r.entities) && |p.displayName| > LongestName(r.entities) && p.entityType == "t"
            && p.aliases == [n]
  {
    hide Strip, Longer, LongestName;
    var long := LongestName(r.entities) + 1;
    LongerIsClean('d', long);
    LongerIsClean('z', long);
    StripFixed("t");
    assert Lower("t") == "t";
  }

  lemma IntruderIsNew(r: EntityRegistry, n: string)
    ensures Usable(Intruder(r, n)) && TargetOf(r, Intruder(r, n)) == |r.entities|
  {
    hide CleanDomain, CleanType, CleanName, NormalizeAliases, Normalize, AliasSet, Intruder, LongestName;
    var p := Intruder(r, n);
    IntruderText(r, n);
    TargetKind(r, p);
  }

  /** The registry after the intruder: one more entity, in a domain of its own, which takes over the alias. */
  lemma {:induction false} IntruderTakesAlias(r: EntityRegistry, n: string)
    requires Canonical(n) && n != ""
    ensures var p := Intruder(r, n);
            && Upsert(r, p).0.entities == r.entities + [NewEntity(p)]
            && Get(Upsert(r, p).0.aliasMap, n) == VStr(p.displayName)
  {
    hide CleanDomain, CleanType, NormalizeAliases, Normalize, Intruder, LongestName, TargetOf, Usable, NewEntity,
      Canonical, Index, Strip;
    var p := Intruder(r, n);
    IntruderIsNew(r, n);
    IntruderText(r, n);
    NewEntityShape(p);
    CanonicalFixed(n);
    AliasesOfName(CleanName(p), p.aliases);
    assert n in p.aliases;
    var e := NewEntity(p);
    assert n in e.aliases && Normalize(n) == n;
    IndexAppend(r.entities, e);
    AddedAlias(Index(r.entities), Strip(e.displayName), e.aliases, n);
  }

  /** A name that only the alias index finds is lost when someone else records that alias. */
  lemma {:induction false} IndexOnlyNameLost(r: EntityRegistry, n: string, domain: string, entityType: string)
    requires Canonical(n) && n != "" && Scan(r.entities, n, domain, entityType) == |r.entities|
    requires AliasHit(r, n, domain, entityType).Some?
    ensures var r' := Upsert(r, Intruder(r, n)).0;
            Scan(r'.entities, n, domain, entityType) == |r'.entities| && AliasHit(r', n, domain, entityType) == None
  {
    hide Scan, Canonical, CleanDomain, CleanType, CleanName, Upsert, Intruder, LongestName, NewEntity, Strip;
    var p := Intruder(r, n);
    IntruderText(r, n);
    IntruderTakesAlias(r, n);
    NewEntityShape(p);
    var e := NewEntity(p);
    var shown := FindShown(r.entities, Get(r.aliasMap, n).s, domain, entityType);
    assert e.domain != domain;
    LostScan(r.entities, e, n, domain, entityType);
    var es := r.entities + [e];
    forall j | 0 <= j < |es| ensures !Shower(e.displayName, domain, entityType)(es[j]) {
    }
  }

  lemma LostScan(es: seq<TrackedEntity>, e: TrackedEntity, n: string, domain: string, entityType: string)
    requires Scan(es, n, domain, entityType) == |es| && e.domain != domain
    ensures Scan(es + [e], n, domain, entityType) == |es + [e]|
  {
    hide Called;
    FirstIs(Caller(n, domain, entityType), es + [e], |es| + 1);
  }

  /** A name that resolves now keeps resolving over every sequence of upserts if and only if an entity of
      that domain and type carries it; a hit found only through the alias index can be lost. */
  lemma {:induction false} NamePersistsIff(value: string, r: EntityRegistry, domain: string, entityType: string,
      clock: Clock)
    requires NamesAreAliases(r.entities) && !IsDeictic(value, entityType)
    requires Resolve(value, r, domain, entityType, false, clock).Some?
    ensures (forall ps :: Resolve(value, UpsertAll(r, ps), domain, entityType, false, clock).Some?)
        <==> Resolve(value, r, domain, entityType, false, clock).value.reason != AliasIndex
  {
    var n := Normalize(value);
    NormalizeCanonical(value);
    hide Upsert, Normalize, IsDeictic, NamesAreAliases, Best, Intruder, FindShown;
    if Scan(r.entities, n, domain, entityType) < |r.entities| {
      forall ps ensures Resolve(value, UpsertAll(r, ps), domain, entityType, false, clock).Some? {
        NamesPersist(r, ps, n, domain, entityType);
      }
    } else {
      IndexOnlyNameLost(r, n, domain, entityType);
      OneUpsert(r, Intruder(r, n));
      var lost := [Intruder(r, n)];
      assert !Resolve(value, UpsertAll(r, lost), domain, entityType, false, clock).Some?;
      assert exists ps :: !Resolve(value, UpsertAll(r, ps), domain, entityType, false, clock).Some?;
    }
  }

  lemma OneUpsert(r: EntityRegistry, p: Payload)
    ensures UpsertAll(r, [p]) == Upsert(r, p).0
  {
    hide Upsert;
    assert [p][..0] == [] && UpsertAll(r, []) == r;
  }

  // ---- an index-only hit that upserts reach ----

  const Shopping := Payload("lists", "list", "groceries", ["food"], None, "", "", EmptyDict, "t")
  const Plug := Payload("home", "switch", "groceries", [], None, "", "", EmptyDict, "t")

  predicate PlainWord(s: string) { s != "" && forall i :: 0 <= i < |s| ==> 'a' <= s[i] <= 'z' }

  lemma PlainWordIsNormal(s: string)
    requires PlainWord(s)
    ensures Strip(s) == s && Lower(s) == s && Canonical(s) && Normalize(s) == s
  {
    hide Strip, Normalize;
    StripFixed(s);
    assert Lower(s) == s;
    CanonicalFixed(s);
  }

  /** A word given no aliases is its own only alias. */
  lemma SoleAlias(s: string)
    requires PlainWord(s)
    ensures NormalizeAliases(s, []) == [s] && AliasSet([s]) == {s}
  {
    hide Strip, Normalize, ShortForms, Collect, InsertAll;
    PlainWordIsNormal(s);
    NoArticle(s);
    CollectNone();
    InsertOne(s);
    assert [s] + [] + [] == [s];
  }

  lemma CollectNone()
    ensures Collect(NonEmptyNormal, []) == []
  {
    hide Normalize;
  }

  lemma InsertOne(s: string)
    requires s != ""
    ensures Collect(NonEmptyText, [s]) == [s] && InsertAll([], [s]) == [s]
  {
    assert [s][..0] == [] && Collect(NonEmptyText, []) == [] && InsertAll([], []) == [];
  }

  lemma NoArticle(s: string)
    requires PlainWord(s)
    ensures ShortForms(s) == []
  {
    hide Strip;
    if EndsWith(s, " list") { ListHasBlank(s); }
    if StartsWith(s, "the ") { ArticleHasBlank(s, "the "); }
    if StartsWith(s, "my ") { ArticleHasBlank(s, "my "); }
  }

  lemma ListHasBlank(s: string)
    requires EndsWith(s, " list")
    ensures s[|s| - 5] == ' '
  {
    assert s[|s| - 5] == s[|s| - 5..][0];
  }

  lemma ArticleHasBlank(s: string, article: string)
    requires article != "" && article[|article| - 1] == ' ' && StartsWith(s, article)
    ensures s[|article| - 1] == ' '
  {}

  /** The two entities and their index. */
  lemma TwoGroceries()
    ensures var e1, e2, r := NewEntity(Shopping), NewEntity(Plug),
              UpsertAll(EntityRegistry([], EmptyDict), [Shopping, Plug]);
            && r.entities == [e1, e2] && r.aliasMap == Index([e1, e2])
            && SameKind(e1, "lists", "list") && SameKind(e2, "home", "switch")
            && e1.displayName == "groceries" && e2.displayName == "groceries" && "food" in e1.aliases
                && e2.aliases == ["groceries"]
  {
    hide Strip, Normalize, NormalizeAliases, Index, TargetOf, CleanDomain, CleanType, CleanName, NewEntity, MergeEntity;
    ShoppingText();
    PlugText();
    var empty := EntityRegistry([], EmptyDict);
    NewEntityShape(Shopping);
    NewEntityShape(Plug);
    AliasesOfName("groceries", ["food"]);
    FoodIsPlain();
    SoleAlias("groceries");
    TargetKind(empty, Shopping);
    OneUpsert(empty, Shopping);
    var r1 := Upsert(empty, Shopping).0;
    assert r1.entities == [] + [NewEntity(Shopping)];
    TargetKind(r1, Plug);
    assert [Shopping, Plug][..1] == [Shopping];
    assert [NewEntity(Shopping)] + [NewEntity(Plug)] == [NewEntity(Shopping), NewEntity(Plug)];
  }

  lemma ShoppingText()
    ensures CleanDomain(Shopping) == "lists" && CleanType(Shopping) == "list" && CleanName(Shopping) == "groceries"
    ensures Usable(Shopping)
  {
    hide Strip, Normalize;
    PlainWordIsNormal("lists");
    PlainWordIsNormal("list");
    PlainWordIsNormal("groceries");
  }

  lemma PlugText()
    ensures CleanDomain(Plug) == "home" && CleanType(Plug) == "switch" && CleanName(Plug) == "groceries" && Usable(Plug)
  {
    hide Strip, Normalize;
    PlainWordIsNormal("home");
    PlainWordIsNormal("switch");
    PlainWordIsNormal("groceries");
  }

  lemma FoodIsPlain()
    ensures Normalize("food") == "food" && Normalize("groceries") == "groceries" && "food" != "groceries"
    ensures !IsDeictic("food", "switch")
  {
    hide Strip, Normalize;
    PlainWordIsNormal("food");
    PlainWordIsNormal("groceries");
    OneWord();
  }

  lemma OneWord()
    ensures "food" !in SWITCH_PHRASES && Words("food") == ["food"] && "food" !in {"it", "that", "this"}
  {
    WordsOfPlainWord("food");
  }

  lemma {:induction false} WordsOfPlainWord(s: string)
    requires PlainWord(s)
    ensures Words(s) == [s]
  {
    var rest := Words(s[1..]);
    if |s| > 1 {
      WordsOfPlainWord(s[1..]);
      assert [s[0]] + rest[0] == s && rest[1..] == [];
      assert Words(s) == [[s[0]] + rest[0]] + rest[1..];
    } else {
      assert rest == [] && [s[0]] == s;
    }
  }

  /** Two upserts make one: a shopping list known as "food" and a switch of the same shown name. "food" then
      names the switch through the index alone, and some later upsert loses it. */
  lemma {:induction false} IndexOnlyReached(clock: Clock)
    ensures var r := UpsertAll(EntityRegistry([], EmptyDict), [Shopping, Plug]);
            && NamesAreAliases(r.entities)
            && Resolve("food", r, "home", "switch", false, clock) == Some(Resolved(1, AliasIndex))
            && exists ps :: Resolve("food", UpsertAll(r, ps), "home", "switch", false, clock) == None
  {
    hide Normalize, NormalizeAliases, Index, UpsertAll, NewEntity, IsDeictic, AliasSet, Strip, NamesAreAliases;
    var empty := EntityRegistry([], EmptyDict);
    var r := UpsertAll(empty, [Shopping, Plug]);
    TwoGroceries();
    FoodIsPlain();
    FoodInIndex();
    NamesFromEmpty();
    PlainWordIsNormal("groceries");
    SoleAlias("groceries");
    FirstIs(Caller("food", "home", "switch"), r.entities, 2);
    FirstIs(Shower("groceries", "home", "switch"), r.entities, 1);
    NamePersistsIff("food", r, "home", "switch", clock);
  }

  lemma NamesFromEmpty()
    ensures NamesAreAliases(UpsertAll(EntityRegistry([], EmptyDict), [Shopping, Plug]).entities)
  {
    hide Upsert, Named, Shopping, Plug;
    var empty := EntityRegistry([], EmptyDict);
    UpsertKeepsNames(empty, Shopping, "n", "d", "t");
    OneUpsert(empty, Shopping);
    assert [Shopping, Plug][..1] == [Shopping];
    UpsertKeepsNames(Upsert(empty, Shopping).0, Plug, "n", "d", "t");
  }

  lemma FoodInIndex()
    ensures Get(Index([NewEntity(Shopping), NewEntity(Plug)]), "food") == VStr("groceries")
  {
    hide Normalize, NormalizeAliases, NewEntity, Strip, AddAliases;
    var e1, e2 := NewEntity(Shopping), NewEntity(Plug);
    TwoGroceries();
    FoodIsPlain();
    PlainWordIsNormal("groceries");
    IndexAppend([], e1);
    IndexAppend([e1], e2);
    assert [] + [e1] == [e1] && [e1] + [e2] == [e1, e2];
    AddedAlias(EmptyDict, "groceries", e1.aliases, "food");
    AddedAlias(Index([e1]), "groceries", e2.aliases, "food");
  }

  // ---- deictic references ----

  /** A shown entity of the kind: what "it" may stand for. */
  predicate Eligible(e: TrackedEntity, domain: string, entityType: string) {
    SameKind(e, domain, entityType) && Strip(e.displayName) != ""
  }

  /** The candidate chosen outranks every earlier one and is outranked by none. */
  ghost predicate Champion(es: seq<TrackedEntity>, i: nat, domain: string, entityType: string, clock: Clock) {
    && i < |es| && Eligible(es[i], domain, entityType)
    && (forall k :: 0 <= k < i && Eligible(es[k], domain, entityType) ==> Outranks(es[i], es[k], clock))
    && (forall k :: 0 <= k < |es| && Eligible(es[k], domain, entityType) ==> !Outranks(es[k], es[i], clock))
  }

  lemma {:induction false} BestIsChampion(es: seq<TrackedEntity>, domain: string, entityType: string, clock: Clock)
    ensures match Best(es, domain, entityType, clock)
            case None => forall k :: 0 <= k < |es| ==> !Eligible(es[k], domain, entityType)
            case Some(i) => Champion(es, i, domain, entityType, clock)
  {
    hide Strip, StampOf;
    if es != [] {
      BestIsChampion(es[..|es| - 1], domain, entityType, clock);
    }
  }

  /** "It" means the entity of the kind that no other one outranks, the first of equals, or nothing if there is none. */
  lemma DeicticMeansBest(value: string, r: EntityRegistry, domain: string, entityType: string, deicticOnly: bool,
      clock: Clock)
    requires IsDeictic(value, entityType)
    ensures match Resolve(value, r, domain, entityType, deicticOnly, clock)
            case None => forall k :: 0 <= k < |r.entities| ==> !Eligible(r.entities[k], domain, entityType)
            case Some(found) => found.reason == Deictic && Champion(r.entities, found.index, domain, entityType, clock)
  {
    hide Normalize, Best, Eligible, Champion, Scan, AliasHit, Words, StripListWords;
    BestIsChampion(r.entities, domain, entityType, clock);
  }

  // ---- index agreement and pruning ----

  /** A registry whose index is the one its entities give. */
  ghost predicate Synced(r: EntityRegistry) {
    r.aliasMap == Index(r.entities)
  }

  lemma {:induction false} BatchSyncs(r: EntityRegistry, ps: seq<Payload>)
    ensures ChangedCount(r, ps) > 0 || Synced(r) ==> Synced(UpsertAll(r, ps))
  {
    if ps != [] {
      BatchSyncs(r, ps[..|ps| - 1]);
      UpsertSyncs(UpsertAll(r, ps[..|ps| - 1]), ps[|ps| - 1]);
      hide Upsert, Index;
    }
  }

  lemma UpsertSyncs(r: EntityRegistry, p: Payload)
    ensures Upsert(r, p).1 || Synced(r) ==> Synced(Upsert(r, p).0)
    ensures !Upsert(r, p).1 ==> Upsert(r, p).0 == r
  {
    hide Index, Normalize, NormalizeAliases, MergeEntity, NewEntity, TargetOf;
  }

  ghost predicate Descending(es: seq<TrackedEntity>, clock: Clock) {
    forall i, j :: 0 <= i < j < |es| ==> !Outranks(es[j], es[i], clock)
  }

  lemma {:induction false} PlaceDescending(es: seq<TrackedEntity>, e: TrackedEntity, clock: Clock)
    requires Descending(es, clock)
    ensures Descending(Place(es, e, clock), clock)
    ensures forall x :: x in Place(es, e, clock) ==> x in es || x == e
  {
    hide Outranks;
    if es != [] {
      var last := es[|es| - 1];
      if Outranks(e, last, clock) {
        PlaceDescending(es[..|es| - 1], e, clock);
        OneWay(e, last, clock);
        var front := Place(es[..|es| - 1], e, clock);
        forall i | 0 <= i < |front| ensures !Outranks(last, front[i], clock) { assert front[i] in front; }
      } else {
        forall i | 0 <= i < |es| ensures !Outranks(e, es[i], clock) { NotAcross(e, last, es[i], clock); }
      }
    }
  }

  lemma OneWay(a: TrackedEntity, b: TrackedEntity, clock: Clock)
    ensures !(Outranks(a, b, clock) && Outranks(b, a, clock)) && !Outranks(a, a, clock)
  {}

  lemma NotAcross(a: TrackedEntity, b: TrackedEntity, c: TrackedEntity, clock: Clock)
    ensures !Outranks(a, b, clock) && !Outranks(b, c, clock) ==> !Outranks(a, c, clock)
    ensures b == c ==> Outranks(a, b, clock) == Outranks(a, c, clock)
  {}

  lemma {:induction false} RankedDescending(es: seq<TrackedEntity>, clock: Clock)
    ensures Descending(Ranked(es, clock), clock)
  {
    hide Outranks;
    if es != [] {
      RankedDescending(es[..|es| - 1], clock);
      PlaceDescending(Ranked(es[..|es| - 1], clock), es[|es| - 1], clock);
    }
  }

  /** `kept` and `dropped` share out `all`, and nobody dropped outranks anybody kept. */
  ghost predicate KeepsTheBest(all: seq<TrackedEntity>, kept: seq<TrackedEntity>, dropped: seq<TrackedEntity>,
      clock: Clock)
  {
    && multiset(kept) + multiset(dropped) == multiset(all)
    && forall i, j :: 0 <= i < |kept| && 0 <= j < |dropped| ==> !Outranks(dropped[j], kept[i], clock)
  }

  lemma PruneKeepsTheBest(r: EntityRegistry, maxEntities: nat, clock: Clock)
    requires Synced(r)
    ensures var kept := Prune(r, maxEntities, clock);
            && Synced(kept) && |kept.entities| == MinInt(|r.entities|, maxEntities)
            && exists dropped :: KeepsTheBest(r.entities, kept.entities, dropped, clock)
  {
    hide Outranks, Index;
    if |r.entities| <= maxEntities {
      var none: seq<TrackedEntity> := [];
      assert KeepsTheBest(r.entities, r.entities, none, clock);
    } else {
      var ranked := Ranked(r.entities, clock);
      RankedDescending(r.entities, clock);
      var kept, dropped := ranked[..maxEntities], ranked[maxEntities..];
      assert ranked == kept + dropped;
      assert KeepsTheBest(r.entities, kept, dropped, clock);
    }
  }

  /** What a batch that changed something leaves: an index rebuilt from the surviving entities, at most the
      limit of them, and nobody dropped who outranks somebody kept. */
  lemma {:induction false} RecordedRegistry(r: EntityRegistry, ps: seq<Payload>, maxEntities: nat, clock: Clock)
    requires ChangedCount(r, ps) > 0
    ensures var all, kept := UpsertAll(r, ps), Recorded(r, ps, maxEntities, clock);
            && Synced(kept) && |kept.entities| == MinInt(|all.entities|, maxEntities)
            && exists dropped :: KeepsTheBest(all.entities, kept.entities, dropped, clock)
  {
    hide UpsertAll, ChangedCount, Prune, Synced;
    BatchSyncs(r, ps);
    PruneKeepsTheBest(UpsertAll(r, ps), maxEntities, clock);
  }
}
