/** Resolving a spoken reference against the registry. */
module ReferenceResolver {
  import opened Prelude
  import opened Text
  import opened Values
  import opened EntityNames
  import opened ContextTypes
  import opened EntityRegistryManager

  datatype Reason = Deictic | ExactName | Alias | AliasIndex

  /** The position of the entity found, and why. */
  datatype Resolved = Resolved(index: nat, reason: Reason)

  // ---- deictic references ----

  /** Drop a leading "my ", "the " or "our ". */
  function DropArticle(s: string): string {
    if StartsWith(s, "my ") then s[3..]
    else if StartsWith(s, "the ") then s[4..]
    else if StartsWith(s, "our ") then s[4..]
    else s
  }

  function StripListWords(s: string): string {
    var rest := DropArticle(Strip(s));
    Strip(if EndsWith(rest, " list") then rest[..|rest| - 5] else rest)
  }

  /** `split()` on text whose only blanks are single spaces. */
  function Words(s: string): seq<string> {
    if s == "" then []
    else if s[0] == ' ' then Words(s[1..])
    else
      var rest := Words(s[1..]);
      if |s| > 1 && s[1] != ' ' && rest != [] then [[s[0]] + rest[0]] + rest[1..] else [[s[0]]] + rest
  }

  const LIST_WORDS := {"it", "that", "this", "same", "same list", "that list", "this list"}
  const SWITCH_PHRASES := {"it", "that", "this", "that one", "this one", "the one", "the light", "that light",
                           "this light", "the lamp", "that lamp", "this lamp", "same"}
  const SWITCH_TRAILING := {"back", "again", "one", "light", "lamp", "same"}
  const OTHER_PHRASES := {"it", "that", "this", "same", "that one", "this one"}

  predicate IsDeictic(value: string, entityType: string) {
    var n := Normalize(value);
    if n == "" then false
    else if entityType == "list" then StripListWords(n) in LIST_WORDS
    else if entityType == "switch" then
      || n in SWITCH_PHRASES
      || var words := Words(n);
         && words != [] && words[0] in {"it", "that", "this"}
         && forall w | w in words[1..] :: w in SWITCH_TRAILING
    else n in OTHER_PHRASES
  }

  /** Not worse than any earlier candidate, better than none: the first of the stable descending sort. */
  function Best(es: seq<TrackedEntity>, domain: string, entityType: string, clock: Clock): Option<nat> {
    if es == [] then None
    else
      var n, best := |es| - 1, Best(es[..|es| - 1], domain, entityType, clock);
      if es[n].domain != domain || es[n].entityType != entityType || Strip(es[n].displayName) == "" then best
      else if best.Some? && best.value < n && !Outranks(es[n], es[best.value], clock) then best
      else Some(n)
  }

  // ---- scanning ----

  predicate SameKind(e: TrackedEntity, domain: string, entityType: string) {
    e.domain == domain && e.entityType == entityType
  }

  predicate Called(e: TrackedEntity, n: string) {
    Normalize(e.displayName) == n || n in AliasSet(e.aliases)
  }

  function Caller(n: string, domain: string, entityType: string): TrackedEntity -> bool {
    (e: TrackedEntity) => SameKind(e, domain, entityType) && Called(e, n)
  }

  /** The first entity of the kind that is called `n`, or the length of the list. */
  function Scan(es: seq<TrackedEntity>, n: string, domain: string, entityType: string): nat {
    First(Caller(n, domain, entityType), es)
  }

  function Shower(display: string, domain: string, entityType: string): TrackedEntity -> bool {
    (e: TrackedEntity) => SameKind(e, domain, entityType) && Strip(e.displayName) == display
  }

  /** The first entity of the kind shown under exactly this name. */
  function FindShown(es: seq<TrackedEntity>, display: string, domain: string, entityType: string): nat {
    First(Shower(display, domain, entityType), es)
  }

  function AliasHit(r: EntityRegistry, n: string, domain: string, entityType: string): Option<Resolved> {
    match Get(r.aliasMap, n)
    case VStr(display) =>
      if display == "" then None
      else
        var i := FindShown(r.entities, display, domain, entityType);
        if i < |r.entities| then Some(Resolved(i, AliasIndex)) else None
    case _ => None
  }

  /** `resolve_reference`. */
  function Resolve(value: string, r: EntityRegistry, domain: string, entityType: string, deicticOnly: bool,
      clock: Clock)
    : Option<Resolved>
  {
    var n := Normalize(value);
    if n == "" then None
    else if IsDeictic(value, entityType) then
      match Best(r.entities, domain, entityType, clock)
      case None => None
      case Some(i) => Some(Resolved(i, Deictic))
    else if deicticOnly then None
    else
      var i := Scan(r.entities, n, domain, entityType);
      if i < |r.entities| then
        Some(Resolved(i, if Normalize(r.entities[i].displayName) == n then ExactName else Alias))
      else AliasHit(r, n, domain, entityType)
  }
}
