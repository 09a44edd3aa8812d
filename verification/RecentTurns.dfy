/** The bounded window of recent turns. */
module RecentTurns {
  import opened Prelude
  import opened Text
  import opened Values
  import opened EntityNames
  import opened ContextTypes
  import opened ContextSerialization
  import opened ContextRoundTrip

  datatype Limits = Limits(turns: nat, chars: nat, single: nat)

  /** One exchange: the two texts, what they were about, and the clock at each turn. */
  datatype Exchange = Exchange(
    user: string, assistant: string, intent: Option<string>, route: Option<string>, skill: Option<string>,
    status: Option<string>, userTime: string, assistantTime: string)

  // ---- text ----

  /** Runs of blanks become one space, the ends are stripped, and the rest is cut to the limit. */
  function TruncateText(s: string, limit: nat): (r: string)
    ensures |r| <= limit
  {
    var clean := Strip(Collapse(s));
    if |clean| <= limit then clean else clean[..limit]
  }

  function NormalizeText(s: string): string { Lower(Strip(Collapse(s))) }

  function CleanOptional(o: Option<string>): Option<string> {
    match o case None => None case Some(s) => OptStr(VStr(s))
  }

  // ---- the new turns ----

  function TurnId(n: nat): string { "turn-" + ToDec(n) }

  function UserTurn(x: Exchange, text: string, n: nat): (t: RecentTurn)
    ensures t.turnId == Some(TurnId(n)) && t.role == "user" && t.text == text
  {
    RecentTurn(Some(TurnId(n)), "user", text, NormalizeText(text), CleanOptional(x.intent), CleanOptional(x.skill),
               Some(x.userTime),
               Fields(map["route" := OptValue(CleanOptional(x.route)), "phase" := VStr("request")]))
  }

  function ResponseReferences(x: Exchange): Dict {
    var d := Fields(map["route" := OptValue(CleanOptional(x.route)), "phase" := VStr("response")]);
    match CleanOptional(x.status) case None => d case Some(s) => Put(d, "status", VStr(s))
  }

  function AssistantTurn(x: Exchange, text: string, n: nat): (t: RecentTurn)
    ensures t.turnId == Some(TurnId(n)) && t.role == "assistant" && t.text == text
  {
    RecentTurn(Some(TurnId(n)), "assistant", text, NormalizeText(text), CleanOptional(x.intent), CleanOptional(x.skill),
               Some(x.assistantTime), ResponseReferences(x))
  }

  function UserText(x: Exchange, limits: Limits): string { TruncateText(x.user, limits.single) }

  function AssistantText(x: Exchange, limits: Limits): string { TruncateText(x.assistant, limits.single) }

  predicate Silent(x: Exchange, limits: Limits) { UserText(x, limits) == "" && AssistantText(x, limits) == "" }

  /** The turns an exchange appends, numbered on from `counter`. */
  function Appended(x: Exchange, limits: Limits, counter: nat): seq<RecentTurn> {
    var user, assistant := UserText(x, limits), AssistantText(x, limits);
    var first := if user == "" then [] else [UserTurn(x, user, counter + 1)];
    if assistant == "" then first else first + [AssistantTurn(x, assistant, counter + |first| + 1)]
  }

  lemma AppendedShape(x: Exchange, limits: Limits, counter: nat)
    ensures var ts := Appended(x, limits, counter);
            && |ts| <= 2 && (ts == [] <==> Silent(x, limits))
            && (forall i :: 0 <= i < |ts| ==> ts[i].turnId == Some(TurnId(counter + 1 + i)))
            && (UserText(x, limits) != "" ==> ts[0].role == "user" && ts[0].text == UserText(x, limits))
            && (AssistantText(x, limits) != "" ==>
                  ts[|ts| - 1].role == "assistant" && ts[|ts| - 1].text == AssistantText(x, limits))
  {
    hide UserTurn, AssistantTurn, UserText, AssistantText, TurnId;
  }

  // ---- the window ----

  function TurnChars(t: RecentTurn): nat { |t.text| + |t.normalizedText| }

  function Chars(ts: seq<RecentTurn>): nat {
    if ts == [] then 0 else Chars(ts[..|ts| - 1]) + TurnChars(ts[|ts| - 1])
  }

  predicate Fits(ts: seq<RecentTurn>, limits: Limits) {
    |ts| <= limits.turns && (|ts| <= 1 || Chars(ts) <= limits.chars)
  }

  /** How many turns go: the least number whose removal from the front makes the rest fit. */
  function DropCount(ts: seq<RecentTurn>, limits: Limits): (k: nat)
    requires limits.turns >= 2
    ensures k <= |ts| && Fits(ts[k..], limits)
    ensures forall j :: 0 <= j < k ==> !Fits(ts[j..], limits)
  {
    if Fits(ts, limits) then 0
    else
      var k := 1 + DropCount(ts[1..], limits);
      assert ts[k..] == ts[1..][k - 1..];
      assert forall j :: 0 < j < k ==> ts[j..] == ts[1..][j - 1..];
      k
  }

  function Window(ts: seq<RecentTurn>, limits: Limits): seq<RecentTurn>
    requires limits.turns >= 2
  {
    ts[DropCount(ts, limits)..]
  }

  lemma {:induction false} CharsSplit(a: seq<RecentTurn>, b: seq<RecentTurn>)
    ensures Chars(a + b) == Chars(a) + Chars(b)
  {
    if b == [] {
      assert a + b == a;
    } else {
      CharsSplit(a, b[..|b| - 1]);
      assert (a + b)[..|a + b| - 1] == a + b[..|b| - 1];
    }
  }

  /** A suffix of what fits fits. */
  lemma FitsSuffix(ts: seq<RecentTurn>, d: nat, k: nat, limits: Limits)
    requires d <= k <= |ts| && Fits(ts[d..], limits)
    ensures Fits(ts[k..], limits)
  {
    assert ts[d..] == ts[d..k] + ts[k..];
    CharsSplit(ts[d..k], ts[k..]);
  }

  /** The kept turns are the longest suffix that fits: a suffix fits if and only if it is no longer. */
  lemma WindowIsLongest(ts: seq<RecentTurn>, k: nat, limits: Limits)
    requires limits.turns >= 2 && k <= |ts|
    ensures Fits(ts[k..], limits) <==> |ts[k..]| <= |Window(ts, limits)|
    ensures ts[..DropCount(ts, limits)] + Window(ts, limits) == ts
    ensures ts != [] ==> Window(ts, limits) != []
  {
    hide Fits;
    var d := DropCount(ts, limits);
    if k >= d { FitsSuffix(ts, d, k, limits); }
    if ts != [] { OneFits(ts[|ts| - 1..], limits); }
  }

  lemma OneFits(ts: seq<RecentTurn>, limits: Limits)
    requires limits.turns >= 2 && |ts| == 1
    ensures Fits(ts, limits)
  {}

  lemma DropIs(ts: seq<RecentTurn>, k: nat, limits: Limits)
    requires limits.turns >= 2 && k <= |ts| && Fits(ts[k..], limits) && (k > 0 ==> !Fits(ts[k - 1..], limits))
    ensures DropCount(ts, limits) == k
  {
    hide Fits;
    var d := DropCount(ts, limits);
    if d < k { FitsSuffix(ts, d, k - 1, limits); }
  }

  // ---- recording ----

  const COUNTER := "recent_turn_counter"

  function TurnCounter(annotations: Dict, lib: Lib): nat {
    MaxInt(0, AsInt(Get(annotations, COUNTER), 0, lib))
  }

  /** The state after an exchange that is not silent. */
  function Recorded(s: SessionState, x: Exchange, limits: Limits, lib: Lib): SessionState
    requires limits.turns >= 2
  {
    var counter := TurnCounter(s.annotations, lib);
    var added := Appended(x, limits, counter);
    s.(recentTurns := Window(s.recentTurns + added, limits),
       annotations := Put(s.annotations, COUNTER, VInt(counter + |added|)))
  }

  /** The stored context after `record_exchange`. */
  function RecordedContext(d: Dict, x: Exchange, limits: Limits, lib: Lib): Dict
    requires limits.turns >= 2
  {
    if Silent(x, limits) || Read(d, lib).Err? then d
    else Merge(d, Serialize(Recorded(Read(d, lib).value, x, limits, lib)))
  }

  datatype TurnUpdate = TurnUpdate(updated: bool, appended: nat, pruned: nat, total: nat, chars: nat)

  function UpdateOf(s: SessionState, x: Exchange, limits: Limits, lib: Lib): TurnUpdate
    requires limits.turns >= 2
  {
    var added := Appended(x, limits, TurnCounter(s.annotations, lib));
    var all := s.recentTurns + added;
    TurnUpdate(true, |added|, DropCount(all, limits), |Window(all, limits)|, Chars(Window(all, limits)))
  }

  /** The counts add up: what was there and what was appended is what was pruned and what is left. */
  lemma CountsAddUp(s: SessionState, x: Exchange, limits: Limits, lib: Lib)
    requires limits.turns >= 2
    ensures var u, after := UpdateOf(s, x, limits, lib), Recorded(s, x, limits, lib).recentTurns;
            && |s.recentTurns| + u.appended == u.pruned + u.total && u.total == |after| && u.chars == Chars(after)
            && u.total <= limits.turns && (u.total > 1 ==> u.chars <= limits.chars)
  {
    hide Appended, TurnCounter, Chars, Serialize;
  }

  /** Reading leaves every annotation but the sticky follow-up as it is stored. */
  lemma ReadKeepsAnnotations(d: Dict, lib: Lib, key: string)
    requires Read(d, lib).Ok? && key != "main_sticky_followup"
    ensures Get(Read(d, lib).value.annotations, key) == Get(DictOr(Get(d, "context_annotations")), key)
  {
    hide ParseTurn, ParsePending, ParseSummary, ParseRegistry, ParseStrList, NonEmptyOr, AdaptEntities, LegacyPending,
      StickyRecord, AsInt, OptStr, Get, Put;
    EntitiesOnly(AdaptPending(ReadBase(d, lib).value, d), d);
  }

  /** The counter alone makes every exchange that is not silent a change. */
  lemma {:induction false} RecordingChanges(d: Dict, s: SessionState, x: Exchange, limits: Limits, lib: Lib)
    requires limits.turns >= 2 && !Silent(x, limits) && Read(d, lib) == Ok(s)
    ensures Merge(d, Serialize(Recorded(s, x, limits, lib))).vals != d.vals
  {
    hide Read, Appended, Window, Silent, TurnValue, PendingValue, SummaryValue, RegistryValue, Serialize;
    AppendedShape(x, limits, TurnCounter(s.annotations, lib));
    ReadKeepsAnnotations(d, lib, COUNTER);
    var s' := Recorded(s, x, limits, lib);
    MergePrints(d, s');
  }

  method TurnsChars(ts: seq<RecentTurn>) returns (total: nat)
    ensures total == Chars(ts)
  {
    total := 0;
    for i := 0 to |ts|
      invariant total == Chars(ts[..i])
    {
      assert ts[..i + 1][..i] == ts[..i];
      total := total + |ts[i].text| + |ts[i].normalizedText|;
    }
    assert ts[..|ts|] == ts;
  }

  class SessionContextManager {
    const limits: Limits

    constructor (maxTurns: int, maxChars: int, maxSingle: int)
      ensures limits == Limits(MaxInt(2, maxTurns), MaxInt(512, maxChars), MaxInt(128, maxSingle))
    {
      limits := Limits(MaxInt(2, maxTurns), MaxInt(512, maxChars), MaxInt(128, maxSingle));
    }

    method PruneByCount(ts: seq<RecentTurn>) returns (kept: seq<RecentTurn>, removed: nat)
      requires limits.turns >= 2
      ensures removed == MaxInt(0, |ts| - limits.turns) && kept == ts[removed..]
    {
      if |ts| <= limits.turns { return ts, 0; }
      removed := |ts| - limits.turns;
      kept := ts[|ts| - limits.turns..];
    }

    /** Pop the oldest turn while more than one is left and they are over the budget. */
    method PruneByChars(ts: seq<RecentTurn>) returns (kept: seq<RecentTurn>, removed: nat)
      requires limits.turns >= 2 && |ts| <= limits.turns
      ensures removed == DropCount(ts, limits) && kept == ts[removed..]
    {
      kept, removed := ts, 0;
      var chars := TurnsChars(kept);
      while |kept| > 1 && chars > limits.chars
        invariant removed <= |ts| && kept == ts[removed..] && chars == Chars(kept)
        invariant removed > 0 ==> !Fits(ts[removed - 1..], limits)
        decreases |kept|
      {
        assert ts[removed..][1..] == ts[removed + 1..];
        kept, removed := kept[1..], removed + 1;
        chars := TurnsChars(kept);
      }
      DropIs(ts, removed, limits);
    }

    /** The new turns, each with the next number. */
    method AppendTurns(x: Exchange, from: nat) returns (added: seq<RecentTurn>, counter: nat)
      ensures added == Appended(x, limits, from) && counter == from + |added|
    {
      hide UserTurn, AssistantTurn, TruncateText;
      var user, assistant := UserText(x, limits), AssistantText(x, limits);
      added, counter := [], from;
      if user != "" {
        counter := counter + 1;
        added := added + [UserTurn(x, user, counter)];
      }
      if assistant != "" {
        counter := counter + 1;
        added := added + [AssistantTurn(x, assistant, counter)];
      }
    }

    method PruneTurns(all: seq<RecentTurn>) returns (kept: seq<RecentTurn>, removed: nat)
      requires limits.turns >= 2
      ensures kept == Window(all, limits) && removed == DropCount(all, limits)
    {
      hide DropCount;
      var byCount, excess := PruneByCount(all);
      var byChars, more := PruneByChars(byCount);
      PrunedTwice(all, excess, limits);
      kept, removed := byChars, excess + more;
    }

    method RecordExchange(session: SessionRecord, x: Exchange, lib: Lib) returns (r: Result<TurnUpdate, ContextError>)
      requires limits.turns >= 2
      modifies session
      ensures session.contextReference == RecordedContext(old(session.contextReference), x, limits, lib)
      ensures var read := Read(old(session.contextReference), lib);
              r == if Silent(x, limits) then Ok(TurnUpdate(false, 0, 0, 0, 0))
                   else if read.Err? then Err(read.error)
                   else Ok(UpdateOf(read.value, x, limits, lib))
    {
      hide Read, Serialize, Merge, Window, DropCount, Appended, UserText, AssistantText, TurnCounter, Chars, Put;
      if UserText(x, limits) == "" && AssistantText(x, limits) == "" { return Ok(TurnUpdate(false, 0, 0, 0, 0)); }
      var read := Read(session.contextReference, lib);
      if read.Err? { return Err(read.error); }
      var s := read.value;
      var added, counter := AppendTurns(x, TurnCounter(s.annotations, lib));
      var kept, removed := PruneTurns(s.recentTurns + added);
      var s' := s.(recentTurns := kept, annotations := Put(s.annotations, COUNTER, VInt(counter)));
      var merged := Merge(session.contextReference, Serialize(s'));
      RecordingChanges(session.contextReference, s, x, limits, lib);
      var changed := merged.vals != session.contextReference.vals;
      if changed { session.contextReference := merged; }
      var chars := TurnsChars(kept);
      return Ok(TurnUpdate(changed, |added|, removed, |kept|, chars));
    }
  }

  /** Dropping by count and then by length drops what one search for the longest fitting suffix drops. */
  lemma PrunedTwice(ts: seq<RecentTurn>, removed: nat, limits: Limits)
    requires limits.turns >= 2 && removed == MaxInt(0, |ts| - limits.turns)
    ensures DropCount(ts, limits) == removed + DropCount(ts[removed..], limits)
  {
    var k := removed + DropCount(ts[removed..], limits);
    assert ts[removed..][k - removed..] == ts[k..];
    if k > removed { assert ts[removed..][k - 1 - removed..] == ts[k - 1..]; }
    DropIs(ts, k, limits);
  }

  // ---- what the turns hold ----

  /** The characters of a text that are not blank, in order. */
  function Letters(s: string): string {
    if s == "" then "" else (if Blank(s[0]) then "" else [s[0]]) + Letters(s[1..])
  }

  lemma {:induction false} LettersConcat(a: string, b: string)
    ensures Letters(a + b) == Letters(a) + Letters(b)
  {
    if a == "" {
      assert a + b == b;
    } else {
      assert (a + b)[1..] == a[1..] + b;
      LettersConcat(a[1..], b);
    }
  }

  lemma {:induction false} NoLetters(s: string)
    requires AllBlank(s)
    ensures Letters(s) == ""
  {
    if s != "" { NoLetters(s[1..]); }
  }

  lemma {:induction false} CollapseKeepsLetters(s: string)
    ensures Letters(Collapse(s)) == Letters(s)
  {
    if s != "" {
      CollapseKeepsLetters(s[1..]);
      var rest := Collapse(s[1..]);
      if !IsSpace(s[0]) { LettersConcat([s[0]], rest); assert [s[0]][1..] == ""; }
      else { LettersConcat(" ", rest); assert " "[1..] == ""; }
    }
  }

  lemma StripKeepsLetters(s: string)
    ensures Letters(Strip(s)) == Letters(s)
  {
    var before, after := StripTakesBlanks(s);
    hide Strip, Blank;
    NoLetters(before);
    NoLetters(after);
    LettersConcat(before, Strip(s));
    LettersConcat(before + Strip(s), after);
  }

  /** A turn's text is the start, up to the limit, of a text without outer blanks and without two blanks in a row that
      has every letter of what was said; its normalized text is its variant without capitals. */
  lemma TextKept(s: string, limit: nat) returns (clean: string)
    ensures Stripped(clean) && SingleSpaced(clean) && Letters(clean) == Letters(s)
    ensures TruncateText(s, limit) == if |clean| <= limit then clean else clean[..limit]
    ensures CaseVariant(clean, NormalizeText(s)) && NoCapitals(NormalizeText(s))
  {
    hide Letters, CaseVariant, NoCapitals, SingleSpaced, Stripped, Lower, Strip, Collapse;
    clean := Strip(Collapse(s));
    CleanKeepsLetters(s);
    CleanSpacing(s);
    LowerIsVariant(clean);
  }

  lemma CleanKeepsLetters(s: string)
    ensures Letters(Strip(Collapse(s))) == Letters(s)
  {
    hide *;
    CollapseKeepsLetters(s);
    StripKeepsLetters(Collapse(s));
  }

  lemma CleanSpacing(s: string)
    ensures Stripped(Strip(Collapse(s))) && SingleSpaced(Strip(Collapse(s)))
  {
    hide SingleSpaced, Collapse, Strip;
    CollapseSpacing(s);
    var from, to := StripIsSlice(Collapse(s));
    SliceSpacing(Collapse(s), from, to);
  }

  ghost predicate NoCapitals(s: string) {
    forall i :: 0 <= i < |s| ==> !('A' <= s[i] <= 'Z')
  }

  lemma LowerIsVariant(s: string)
    ensures CaseVariant(s, Lower(s)) && NoCapitals(Lower(s))
  {
    assert forall i :: 0 <= i < |s| ==> Lower(s)[i] == LowerChar(s[i]);
  }

  lemma SliceSpacing(s: string, from: nat, to: nat)
    requires from <= to <= |s| && SingleSpaced(s)
    ensures SingleSpaced(s[from..to])
  {
    var r := s[from..to];
    forall i | 0 < i < |r| ensures !(IsSpace(r[i - 1]) && IsSpace(r[i])) {
      assert !(IsSpace(s[from + i - 1]) && IsSpace(s[from + i]));
    }
  }

  /** What both turns of an exchange say about it. */
  predicate TurnAbout(t: RecentTurn, x: Exchange, phase: string) {
    && t.normalizedText == NormalizeText(t.text)
    && t.intent == (if x.intent.None? || AllBlank(x.intent.value) then None else Some(Strip(x.intent.value)))
    && t.skillId == (if x.skill.None? || AllBlank(x.skill.value) then None else Some(Strip(x.skill.value)))
    && Get(t.references, "phase") == VStr(phase)
    && Get(t.references, "route")
       == (if x.route.None? || AllBlank(x.route.value) then VNull else VStr(Strip(x.route.value)))
  }

  lemma CleanOptionalIs(o: Option<string>)
    ensures CleanOptional(o) == if o.None? || AllBlank(o.value) then None else Some(Strip(o.value))
  {
    hide Strip, AllBlank;
    if o.Some? { StripEmptyIff(o.value); }
  }

  lemma TurnsAbout(x: Exchange, text: string, n: nat)
    ensures TurnAbout(UserTurn(x, text, n), x, "request") && UserTurn(x, text, n).timestamp == Some(x.userTime)
    ensures TurnAbout(AssistantTurn(x, text, n), x, "response")
              && AssistantTurn(x, text, n).timestamp == Some(x.assistantTime)
    ensures var t := AssistantTurn(x, text, n);
            if x.status.None? || AllBlank(x.status.value) then !Has(t.references, "status")
            else Get(t.references, "status") == VStr(Strip(x.status.value))
  {
    hide Strip, AllBlank, NormalizeText, CleanOptional, TurnId;
    CleanOptionalIs(x.intent);
    CleanOptionalIs(x.skill);
    CleanOptionalIs(x.route);
    CleanOptionalIs(x.status);
  }
}
