/** What a summary's lists and text have to say, stated over the turns, the pending interaction and the entities. */
module SummaryContents {
  import opened Prelude
  import opened Text
  import opened Values
  import opened ContextTypes
  import opened ContextSerialization
  import opened ContextRoundTrip
  import EntityRegistryManager
  import EntityProofs
  import opened RecentTurns
  import opened SummaryWording

  // ---- phrases ----

  /** The phrase at this place is not blank, and none before it says the same. */
  predicate NewAt(values: seq<string>, k: nat)
    requires k < |values|
  {
    !AllBlank(values[k]) && forall j :: 0 <= j < k ==> Lower(Strip(values[j])) != Lower(Strip(values[k]))
  }

  /** The phrases kept are those that are new where they stand, in the order given and without outer blanks. */
  lemma {:induction false} FirstsAreNew(values: seq<string>) returns (places: seq<nat>)
    ensures |places| == |Firsts(values)|
    ensures forall i, j :: 0 <= i < j < |places| ==> places[i] < places[j]
    ensures forall i :: 0 <= i < |places| ==>
              places[i] < |values| && NewAt(values, places[i]) && Firsts(values)[i] == Strip(values[places[i]])
    ensures forall k :: 0 <= k < |values| && NewAt(values, k) ==> k in places
  {
    hide Strip, Lower, AllBlank, NewAt;
    places := [];
    if values != [] {
      var n := |values| - 1;
      var front, rest, clean := values[..n], Firsts(values[..n]), Strip(values[n]);
      places := FirstsAreNew(front);
      forall k: nat | k < n ensures NewAt(front, k) == NewAt(values, k) { NewInFront(values, n, k); }
      StripEmptyIff(values[n]);
      if clean != "" { KeptIffGiven(front, places, clean); }
      NewLast(values);
      if NewAt(values, n) { places := places + [n]; }
    }
  }

  lemma NewInFront(values: seq<string>, n: nat, k: nat)
    requires k < n <= |values|
    ensures NewAt(values[..n], k) == NewAt(values, k)
  {
    hide Strip, Lower, AllBlank;
    assert forall j :: 0 <= j < n ==> values[..n][j] == values[j];
  }

  lemma NewLast(values: seq<string>)
    requires values != []
    ensures var n := |values| - 1;
            NewAt(values, n) <==>
              !AllBlank(values[n]) && !exists j :: 0 <= j < n && Lower(Strip(values[..n][j])) == Lower(Strip(values[n]))
  {
    hide Strip, Lower, AllBlank;
    var n := |values| - 1;
    forall j | 0 <= j < n ensures values[..n][j] == values[j] {}
    if NewAt(values, n) {
      forall j | 0 <= j < n ensures Lower(Strip(values[..n][j])) != Lower(Strip(values[n])) {
        assert Lower(Strip(values[j])) != Lower(Strip(values[n]));
      }
    } else if j :| 0 <= j < n && Lower(Strip(values[j])) == Lower(Strip(values[n])) {
      assert Lower(Strip(values[..n][j])) == Lower(Strip(values[n]));
    }
  }

  /** A phrase kept says what one of those given says, and the other way round. */
  lemma KeptIffGiven(values: seq<string>, places: seq<nat>, clean: string)
    requires |places| == |Firsts(values)| && clean != ""
    requires forall i :: 0 <= i < |places| ==> places[i] < |values| && Firsts(values)[i] == Strip(values[places[i]])
    ensures (exists y | y in Firsts(values) :: Lower(y) == Lower(clean)) <==>
            exists j :: 0 <= j < |values| && Lower(Strip(values[j])) == Lower(clean)
  {
    hide Strip, Lower;
    FirstsDistinct(values);
    var kept := Firsts(values);
    if y :| y in kept && Lower(y) == Lower(clean) {
      var i :| 0 <= i < |kept| && kept[i] == y;
      assert Lower(Strip(values[places[i]])) == Lower(clean);
    }
    if j :| 0 <= j < |values| && Lower(Strip(values[j])) == Lower(clean) {
      SameLength(Strip(values[j]), clean);
      assert values[j] in values;
    }
  }

  lemma SameLength(s: string, t: string)
    requires Lower(s) == Lower(t)
    ensures |s| == |t|
  {
    assert |Lower(s)| == |Lower(t)|;
  }

  // ---- the lists ----

  /** The latest text is that of the last turn of the role that says anything. */
  lemma {:induction false} LatestIsLast(ts: seq<RecentTurn>, role: string)
    ensures var text := LatestText(ts, role);
            if text == "" then forall t :: t in ts && t.role == role ==> AllBlank(t.text)
            else exists k :: 0 <= k < |ts| && ts[k].role == role && text == Strip(ts[k].text)
                             && forall j :: k < j < |ts| && ts[j].role == role ==> AllBlank(ts[j].text)
  {
    hide Strip, AllBlank;
    if ts != [] {
      var n := |ts| - 1;
      LatestIsLast(ts[..n], role);
      StripEmptyIff(ts[n].text);
      assert ts == ts[..n] + [ts[n]];
      if LatestText(ts[..n], role) != "" && !(ts[n].role == role && Strip(ts[n].text) != "") {
        var k :| 0 <= k < n && ts[..n][k].role == role && LatestText(ts[..n], role) == Strip(ts[..n][k].text)
                 && forall j :: k < j < n && ts[..n][j].role == role ==> AllBlank(ts[..n][j].text);
        assert ts[k] == ts[..n][k];
        forall j | k < j < |ts| && ts[j].role == role ensures AllBlank(ts[j].text) {
          if j < n { assert ts[..n][j] == ts[j]; }
        }
      }
    }
  }

  /** The goals are what is pending, what is asked for now and what the user said last, as far as there is any. */
  lemma GoalsMean(s: SessionState, req: Request, policy: Policy)
    ensures var goals := GoalCandidates(s, req, policy);
            var pending := s.pending.Some? && s.pending.value.intent.Some? && !AllBlank(s.pending.value.intent.value);
            var asked := req.intent.Some? && req.intent.value != "";
            var said := LatestText(s.recentTurns, "user") != "";
            && |goals| == (if pending then 1 else 0) + (if asked then 1 else 0) + (if said then 1 else 0)
            && (pending ==> goals[0] == "continue " + Strip(s.pending.value.intent.value))
            && (asked ==> "current_intent:" + req.intent.value in goals)
            && (said ==> EndsWith(goals[|goals| - 1], ":"
                + Truncate(LatestText(s.recentTurns, "user"), policy.itemChars)))
  {
    hide Strip, AllBlank, Truncate, LatestText;
    if s.pending.Some? { CleanOptionalIs(s.pending.value.intent); }
    var latest := Truncate(LatestText(s.recentTurns, "user"), policy.itemChars);
    assert EndsWith("latest_user:" + latest, ":" + latest) by {
      assert "latest_user:" + latest == "latest_user" + (":" + latest);
    }
  }

  /** An answer settles what was asked when its stored status, blanks and letter case aside, is one of these; its
      decision then names its intent and that status. */
  lemma DecisionMeans(t: RecentTurn, lib: Lib)
    requires Get(t.references, "status").VStr?
    ensures var status := Lower(Strip(Get(t.references, "status").s));
            && (Settles(t, lib) <==>
                  t.role == "assistant" && status in {"ok", "partial", "executed", "cancelled", "completed"})
            && (t.intent.Some? && !AllBlank(t.intent.value) ==>
                  DecisionOf(t, lib) == Lower(Strip(t.intent.value)) + ":" + status)
            && (t.intent.None? || AllBlank(t.intent.value) ==> DecisionOf(t, lib) == "unknown:" + status)
  {
    hide Strip;
    if t.intent.Some? { StripEmptyIff(t.intent.value); }
    StripEmptyIff("");
    LowerEmptyIff(Strip(TextOr(t.intent)));
  }

  lemma LowerEmptyIff(s: string)
    ensures Lower(s) == "" <==> s == ""
  {
    assert |Lower(s)| == |s|;
  }

  /** Decisions are listed with the latest first: one for each settling answer, at places that go back. */
  lemma {:induction false} DecisionsGoBack(ts: seq<RecentTurn>, lib: Lib) returns (places: seq<nat>)
    ensures |places| == |DecisionCandidates(ts, lib)|
    ensures forall i, j :: 0 <= i < j < |places| ==> places[i] > places[j]
    ensures forall i :: 0 <= i < |places| ==>
              && places[i] < |ts| && Settles(ts[places[i]], lib)
              && DecisionCandidates(ts, lib)[i] == DecisionOf(ts[places[i]], lib)
    ensures forall k :: 0 <= k < |ts| && Settles(ts[k], lib) ==> k in places
  {
    hide Settles, DecisionOf;
    places := [];
    if ts != [] {
      var n := |ts| - 1;
      var rest := DecisionsGoBack(ts[..n], lib);
      places := (if Settles(ts[n], lib) then [n] else []) + rest;
      forall k | 0 <= k < |ts| && Settles(ts[k], lib) ensures k in places {
        if k < n { assert ts[..n][k] == ts[k] && k in rest; } else if k == n { assert places[0] == n; }
      }
    }
  }

  /** A pending interaction is an open thread exactly unless it is completed or cancelled, and the thread names what
      it is about and the first two fields it waits for. */
  lemma ThreadMeans(p: PendingInteraction)
    ensures OpenThreads(None) == []
    ensures OpenThreads(Some(p)) == [] <==>
              Lower(Strip(p.status)) == "completed" || Lower(Strip(p.status)) == "cancelled"
    ensures OpenThreads(Some(p)) != [] ==>
              && |OpenThreads(Some(p))| == 1
              && (p.intent.Some? && !AllBlank(p.intent.value) ==> Strip(p.intent.value) <= OpenThreads(Some(p))[0])
              && forall k :: 0 <= k < MinInt(2, |ParseStrList(StrList(p.expectedFields))|) ==>
                   Contains(OpenThreads(Some(p))[0], ParseStrList(StrList(p.expectedFields))[k])
  {
    hide Strip, Lower, ParseStrList, AllBlank, Contains;
    if p.intent.Some? { StripEmptyIff(p.intent.value); }
    var missing := ParseStrList(StrList(p.expectedFields));
    if OpenThreads(Some(p)) != [] && missing != [] {
      var t := OpenThreads(Some(p))[0];
      var head := NonEmptyOr(OptValue(p.intent), "unknown_intent") + ":" + NonEmptyOr(VStr(p.kind), "followup")
                  + ":awaiting(";
      if |missing| > 1 {
        assert t == head + missing[0] + (", " + missing[1] + ")") == head + missing[0] + ", " + missing[1] + ")";
        Within(head, missing[0], ", " + missing[1] + ")");
        Within(head + missing[0] + ", ", missing[1], ")");
      } else {
        assert t == head + missing[0] + ")";
        Within(head, missing[0], ")");
      }
    }
  }

  lemma Within(a: string, s: string, b: string)
    ensures Contains(a + s + b, s)
  {
    ContainsAt(a + s + b, s, |a|);
  }

  /** Entities are named in the order of their rank: a shown entity that is ahead outranks or equals those behind. */
  lemma EntitiesByRank(es: seq<TrackedEntity>, policy: Policy, clock: EntityRegistryManager.Clock)
      returns (ranked: seq<TrackedEntity>)
    ensures multiset(ranked) == multiset(Collect(ShownEntity, es))
    ensures forall i, j :: 0 <= i < j < |ranked| ==> !EntityRegistryManager.Outranks(ranked[j], ranked[i], clock)
    ensures EntityCandidates(es, policy, clock) == MapSeq(EntityPhrase(policy), ranked)
    ensures forall e :: e in ranked <==> e in es && !AllBlank(e.displayName)
  {
    hide Collect, ShownEntity, EntityPhrase, AllBlank, EntityRegistryManager.Outranks, EntityRegistryManager.Ranked;
    var shown := Collect(ShownEntity, es);
    ShownAre(es);
    ranked := EntityRegistryManager.Ranked(shown, clock);
    SameMembers(ranked, shown);
    EntityProofs.RankedDescending(shown, clock);
  }

  lemma SameMembers(a: seq<TrackedEntity>, b: seq<TrackedEntity>)
    requires multiset(a) == multiset(b)
    ensures forall e :: e in a <==> e in b
  {
    forall e ensures e in a <==> e in b { assert e in multiset(a) <==> e in multiset(b); }
  }

  lemma {:induction false} ShownAre(es: seq<TrackedEntity>)
    ensures forall e :: e in Collect(ShownEntity, es) <==> e in es && !AllBlank(e.displayName)
  {
    hide Strip, AllBlank;
    if es != [] {
      ShownAre(es[..|es| - 1]);
      StripEmptyIff(es[|es| - 1].displayName);
      assert es == es[..|es| - 1] + [es[|es| - 1]];
    }
  }

  /** An entity's phrase names its domain and, as far as there is room, the entity. */
  lemma PhraseNames(e: TrackedEntity, policy: Policy)
    ensures var phrase, name := EntityPhrase(policy)(e), Strip(e.displayName);
            && (AllBlank(e.domain) ==> "unknown:" <= phrase)
            && (!AllBlank(e.domain) ==> Lower(Strip(e.domain)) + ":" <= phrase)
            && (|name| <= policy.itemChars ==> EndsWith(phrase, ":" + name))
            && (|name| > policy.itemChars ==> EndsWith(phrase, "..."))
  {
    hide Strip, AllBlank;
    StripEmptyIff(e.domain);
    StripTwice(e.displayName);
  }

  lemma StripTwice(s: string)
    ensures Strip(Strip(s)) == Strip(s)
  {
    StripFixed(Strip(s));
  }

  // ---- the text ----

  lemma {:induction false} CommasHold(parts: seq<string>, i: nat)
    requires i < |parts|
    ensures Contains(Commas(parts), parts[i])
  {
    hide Contains;
    var n := |parts| - 1;
    if n == 0 {
      ContainsAt(parts[0], parts[0], 0);
    } else if i == n {
      ContainsAt(parts[n], parts[n], 0);
      ContainsRight(Commas(parts[..n]) + ", ", parts[n], parts[n]);
    } else {
      CommasHold(parts[..n], i);
      ContainsLeft(Commas(parts[..n]), ", ", parts[i]);
      ContainsLeft(Commas(parts[..n]) + ", ", parts[n], parts[i]);
    }
  }

  lemma {:induction false} BarsHold(parts: seq<string>, i: nat)
    requires i < |parts|
    ensures Contains(Bars(parts), parts[i])
  {
    hide Contains;
    var n := |parts| - 1;
    if n == 0 {
      ContainsAt(parts[0], parts[0], 0);
    } else if i == n {
      ContainsAt(parts[n], parts[n], 0);
      ContainsRight(Bars(parts[..n]) + " | ", parts[n], parts[n]);
    } else {
      BarsHold(parts[..n], i);
      ContainsLeft(Bars(parts[..n]), " | ", parts[i]);
      ContainsLeft(Bars(parts[..n]) + " | ", parts[n], parts[i]);
    }
  }

  lemma PartHolds(head: string, phrases: seq<string>, n: nat, phrase: string)
    requires phrase in phrases[..MinInt(n, |phrases|)]
    ensures |Part(head, phrases, n)| == 1 && Contains(Part(head, phrases, n)[0], phrase)
  {
    hide Contains, Commas;
    var shown := Take(phrases, n);
    assert shown == phrases[..MinInt(n, |phrases|)];
    var i :| 0 <= i < |shown| && shown[i] == phrase;
    CommasHold(shown, i);
    ContainsRight(head, Commas(shown), phrase);
  }

  /** The phrases that a text has room for: the first two of a list, and the first three entities. */
  predicate Highlight(phrase: string, goals: seq<string>, decisions: seq<string>, threads: seq<string>,
                      entities: seq<string>)
  {
    || phrase in goals[..MinInt(2, |goals|)] || phrase in decisions[..MinInt(2, |decisions|)]
    || phrase in threads[..MinInt(2, |threads|)] || phrase in entities[..MinInt(3, |entities|)]
  }

  /** A summary's text names every highlight, unless it was cut at the limit, and then it says so. */
  lemma TextNames(goals: seq<string>, decisions: seq<string>, threads: seq<string>, entities: seq<string>,
                  route: Option<string>, policy: Policy, phrase: string)
    requires Highlight(phrase, goals, decisions, threads, entities) && Stripped(phrase)
    ensures var text := ComposedText(goals, decisions, threads, entities, route, policy);
            Contains(text, phrase) || (|text| >= policy.textChars && EndsWith(text, "..."))
  {
    hide Contains, Commas, Bars, Strip, Stripped, Part;
    var clean := CleanOptional(route);
    var a := if clean.Some? then ["route=" + clean.value] else [];
    var g, d, t, e := Part("goals=", goals, 2), Part("resolved=", decisions, 2), Part("open=", threads, 2),
        Part("entities=", entities, 3);
    var parts := a + g + d + t + e;
    var k: nat;
    if phrase in goals[..MinInt(2, |goals|)] {
      PartHolds("goals=", goals, 2, phrase);
      k := |a|;
      assert parts[k] == g[0];
    } else if phrase in decisions[..MinInt(2, |decisions|)] {
      PartHolds("resolved=", decisions, 2, phrase);
      k := |a + g|;
      assert parts[k] == d[0];
    } else if phrase in threads[..MinInt(2, |threads|)] {
      PartHolds("open=", threads, 2, phrase);
      k := |a + g + d|;
      assert parts[k] == t[0];
    } else {
      PartHolds("entities=", entities, 3, phrase);
      k := |a + g + d + t|;
      assert parts[k] == e[0];
    }
    BarsHold(parts, k);
    ContainsNested(Bars(parts), parts[k], phrase);
    StripKeepsPart(Bars(parts), phrase);
  }
}
