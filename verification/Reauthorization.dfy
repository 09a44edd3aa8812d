/** The checks between a claim and its dispatch: everything the approval was bound to is derived again. */
module Reauthorization {
  import opened Prelude
  import opened Values
  import opened ActionLedger
  import opened JsonPointer

  datatype TransferField = TransferField(pattern: string, scope: string)

  /** `content` is the descriptor's storage form, which its hash covers. */
  datatype Descriptor = Descriptor(
    content: Value, toolId: string, skillId: string, contractVersion: int, cardinality: string,
    sensitivity: string, persistence: string, fields: seq<TransferField>)

  datatype Envelope = Envelope(
    operationId: string, argumentsHash: string, authorizationRef: string, requestId: string, requestHash: string,
    userId: string, agentId: string, channelHash: string, skillId: string, toolId: string, contractVersion: int)

  datatype Prepared =
    | Declined(reason: string)
    | Prepared(envelope: Option<Envelope>, descriptor: Option<Descriptor>, descriptorHash: string,
        resourceVersion: string)

  datatype Identity = Identity(active: bool, userId: string, agentId: string)

  datatype SourceAnswer = SourceDenied | SourceGranted(descriptor: Option<Descriptor>, descriptorHash: string,
      resourceVersion: string)

  /** What the other services answer while one invocation checks. `sha` is the canonical-JSON hash. */
  datatype World = World(
    identity: Option<Identity>, canPrepare: bool, prepared: Prepared, canDispatch: bool,
    batch: Option<(Value, string)>, canAuthorizeSource: bool, authorizeSource: (string, int) -> SourceAnswer,
    sha: Value -> string)

  // ---- reason codes ----

  const ARGUMENTS_UNAVAILABLE := "approval_arguments_unavailable"
  const BATCH_MANIFEST_MISSING := "approval_batch_manifest_missing"
  const BATCH_MANIFEST_UNEXPECTED := "approval_batch_manifest_unexpected"
  const BATCH_REAUTHORIZATION_CHANGED := "approval_batch_reauthorization_changed"
  const BATCH_REAUTHORIZATION_INVALID := "approval_batch_reauthorization_invalid"
  const EXECUTOR_UNAVAILABLE := "approval_executor_unavailable"
  const IDENTITY_REVOKED := "approval_identity_revoked"
  const REAUTHORIZATION_CHANGED := "approval_reauthorization_changed"
  const REAUTHORIZATION_DENIED := "approval_reauthorization_denied"
  const TRANSFER_DESTINATION_CHANGED := "approval_transfer_destination_changed"
  const TRANSFER_DESTINATION_VALUE_CHANGED := "approval_transfer_destination_value_changed"
  const TRANSFER_DESTINATION_VALUES_INVALID := "approval_transfer_destination_values_invalid"
  const TRANSFER_HASH_UNEXPECTED := "approval_transfer_hash_unexpected"
  const TRANSFER_MANIFEST_CHANGED := "approval_transfer_manifest_changed"
  const TRANSFER_MANIFEST_INVALID := "approval_transfer_manifest_invalid"
  const TRANSFER_POLICY_CHANGED := "approval_transfer_policy_changed"
  const TRANSFER_REQUEST_CHANGED := "approval_transfer_request_changed"
  const TRANSFER_SOURCE_CHANGED := "approval_transfer_source_changed"
  const TRANSFER_SOURCE_DESCRIPTOR_INVALID := "approval_transfer_source_descriptor_invalid"
  const TRANSFER_SOURCE_POINTER_CHANGED := "approval_transfer_source_pointer_changed"
  const TRANSFER_SOURCE_REAUTHORIZATION_UNAVAILABLE := "approval_transfer_source_reauthorization_unavailable"
  const TRANSFER_SOURCE_SCOPE_CHANGED := "approval_transfer_source_scope_changed"
  const TRANSFER_SOURCE_UNAUTHORIZED := "approval_transfer_source_unauthorized"
  const TRANSFER_SOURCES_INVALID := "approval_transfer_sources_invalid"

  const MATRIX: map<string, set<string>> := map[
    "normal" := {"normal", "private", "financial", "identity", "highly_restricted"},
    "private" := {"private", "highly_restricted"},
    "financial" := {"financial", "highly_restricted"},
    "identity" := {"identity", "highly_restricted"},
    "highly_restricted" := {}
  ]

  /** Data of one sensitivity may cross into a domain whose tool has the other. */
  predicate MayCross(from: string, to: string) {
    from in MATRIX && to in MATRIX[from]
  }

  function TextOf(v: Value): string {
    if v.VStr? then v.s else ""
  }

  function NumberOf(v: Value): int {
    if v.VInt? then v.i else 0
  }

  /** `tool_id.partition(".")[0]`. */
  function DomainOf(toolId: string): string {
    if toolId == "" || toolId[0] == '.' then "" else [toolId[0]] + DomainOf(toolId[1..])
  }

  function BatchFailure(t: Terms, d: Descriptor, w: World): Option<string> {
    if d.cardinality != "independent_batch" then
      if t.batchManifest != None || t.batchHash != None then Some(BATCH_MANIFEST_UNEXPECTED) else None
    else if t.batchManifest == None || !t.batchManifest.value.VDict? || t.batchHash == None
    then Some(BATCH_MANIFEST_MISSING)
    else
      match w.batch
      case None => Some(BATCH_REAUTHORIZATION_INVALID)
      case Some((manifest, hash)) =>
        if Content(t.batchManifest.value) != Content(manifest) || t.batchHash.value != hash
        then Some(BATCH_REAUTHORIZATION_CHANGED) else None
  }

  function ExpectedDestination(t: Terms, e: Envelope, d: Descriptor, w: World): map<string, Value> {
    map["skill_id" := VStr(e.skillId),
        "domain" := VStr(DomainOf(e.toolId)),
        "tool_id" := VStr(e.toolId),
        "contract_version" := VInt(e.contractVersion),
        "descriptor_hash" := VStr(w.sha(d.content)),
        "resource_version" := VStr(t.resourceVersion),
        "arguments_hash" := VStr(e.argumentsHash),
        "sensitivity" := VStr(d.sensitivity),
        "persistence" := VStr(d.persistence)]
  }

  function RequestUnchanged(m: Dict, e: Envelope): bool {
    && Get(m, "request_id") == VStr(e.requestId)
    && Get(m, "request_hash") == VStr(e.requestHash)
    && Get(m, "requester_user_id") == VStr(e.userId)
    && Get(m, "agent_id") == VStr(e.agentId)
    && Get(m, "channel_binding_hash") == VStr(e.channelHash)
  }

  // ---- one destination value, one source ----

  function ValueFailure(entry: Value, arguments: Value, w: World): Option<string> {
    if !entry.VDict? then Some(TRANSFER_DESTINATION_VALUES_INVALID)
    else
      match Evaluate(arguments, TextOf(Get(entry.d, "destination_pointer")))
      case None => Some(TRANSFER_DESTINATION_VALUE_CHANGED)
      case Some(v) =>
        if Get(entry.d, "value_hash") != VStr(w.sha(v)) then Some(TRANSFER_DESTINATION_VALUE_CHANGED) else None
  }

  predicate SameSource(source: Dict, d: Descriptor, answer: SourceAnswer)
    requires answer.SourceGranted?
  {
    && Get(source, "skill_id") == VStr(d.skillId)
    && Get(source, "tool_id") == VStr(d.toolId)
    && Get(source, "domain") == VStr(DomainOf(d.toolId))
    && Get(source, "contract_version") == VInt(d.contractVersion)
    && Get(source, "descriptor_hash") == VStr(answer.descriptorHash)
    && Get(source, "resource_version") == VStr(answer.resourceVersion)
    && Get(source, "sensitivity") == VStr(d.sensitivity)
    && Get(source, "persistence") == VStr(d.persistence)
  }

  predicate PointerAllowed(pattern: string, pointer: string) {
    pointer == "" || PatternMatches(pattern, pointer)
  }

  function SourceFailure(entry: Value, destination: Descriptor, w: World): Option<string> {
    if !entry.VDict? then Some(TRANSFER_SOURCES_INVALID)
    else
      var source := entry.d;
      match w.authorizeSource(TextOf(Get(source, "tool_id")), NumberOf(Get(source, "contract_version")))
      case SourceDenied => Some(TRANSFER_SOURCE_UNAUTHORIZED)
      case SourceGranted(None, _, _) => Some(TRANSFER_SOURCE_DESCRIPTOR_INVALID)
      case SourceGranted(Some(d), hash, version) =>
        var pattern, scope := TextOf(Get(source, "transfer_pattern")), TextOf(Get(source, "transfer_scope"));
        var pointer := TextOf(Get(source, "source_pointer"));
        if !SameSource(source, d, SourceGranted(Some(d), hash, version)) then Some(TRANSFER_SOURCE_CHANGED)
        else if TextOf(Get(source, "domain")) != DomainOf(destination.toolId)
                && (scope != "cross_domain" || !MayCross(d.sensitivity, destination.sensitivity))
        then Some(TRANSFER_POLICY_CHANGED)
        else if !PointerAllowed(pattern, pointer) then Some(TRANSFER_SOURCE_POINTER_CHANGED)
        else if !exists f | f in d.fields ::
                  f.pattern == pattern && f.scope == scope && PointerAllowed(f.pattern, pointer)
        then Some(TRANSFER_SOURCE_SCOPE_CHANGED)
        else None
  }

  /** The reason of the first entry that fails. */
  function FirstFailure(check: Value -> Option<string>, entries: seq<Value>): (r: Option<string>)
    ensures r == None <==> forall x :: x in entries ==> check(x) == None
    ensures r.Some? ==> exists i :: 0 <= i < |entries| && check(entries[i]) == r && forall j :: 0 <= j < i ==>
              check(entries[j]) == None
  {
    if entries == [] then None
    else if check(entries[0]).Some? then check(entries[0])
    else FirstFailure(check, entries[1..])
  }

  function TransferFailure(t: Terms, e: Envelope, d: Descriptor, arguments: Value, w: World): Option<string> {
    if t.transferManifest == None then
      if t.transferHash != None then Some(TRANSFER_HASH_UNEXPECTED) else None
    else if !t.transferManifest.value.VDict? || t.transferHash == None then Some(TRANSFER_MANIFEST_INVALID)
    else if w.sha(t.transferManifest.value) != t.transferHash.value then Some(TRANSFER_MANIFEST_CHANGED)
    else
      var m := t.transferManifest.value.d;
      var destination, values, sources := Get(m, "destination"), Get(m, "destination_values"), Get(m, "sources");
      if !RequestUnchanged(m, e) then Some(TRANSFER_REQUEST_CHANGED)
      else if !destination.VDict? || destination.d.vals != ExpectedDestination(t, e, d, w)
      then Some(TRANSFER_DESTINATION_CHANGED)
      else EntriesFailure(values, sources, d, arguments, w)
  }

  /** The destination values, then the sources. */
  function EntriesFailure(values: Value, sources: Value, d: Descriptor, arguments: Value, w: World): Option<string> {
    if !values.VList? || values.items == [] then Some(TRANSFER_DESTINATION_VALUES_INVALID)
    else
      match FirstFailure(x => ValueFailure(x, arguments, w), values.items)
      case Some(reason) => Some(reason)
      case None =>
        if !w.canAuthorizeSource then Some(TRANSFER_SOURCE_REAUTHORIZATION_UNAVAILABLE)
        else if !sources.VList? || sources.items == [] then Some(TRANSFER_SOURCES_INVALID)
        else FirstFailure(x => SourceFailure(x, d, w), sources.items)
  }

  /** The loop form: stop at the first entry that fails. */
  method FindFailure(check: Value -> Option<string>, entries: seq<Value>) returns (r: Option<string>)
    ensures r == FirstFailure(check, entries)
  {
    for i := 0 to |entries|
      invariant FirstFailure(check, entries) == FirstFailure(check, entries[i..])
    {
      var failure := check(entries[i]);
      if failure.Some? { return failure; }
      assert entries[i..][1..] == entries[i + 1..];
    }
    return None;
  }

  // ---- all the checks ----

  predicate EnvelopeMatches(t: Terms, e: Envelope) {
    e.operationId == t.operationId && e.argumentsHash == t.argumentsHash && e.authorizationRef == t.authorization
  }

  predicate PreparedMatches(t: Terms, p: Prepared, sha: Value -> string)
    requires p.Prepared?
  {
    && p.envelope.Some? && p.descriptor.Some? && EnvelopeMatches(t, p.envelope.value)
    && sha(p.descriptor.value.content) == t.descriptorHash && p.descriptorHash == t.descriptorHash
    && p.resourceVersion == t.resourceVersion
  }

  function CallFailure(t: Terms, arguments: Value, w: World): Option<string> {
    match w.prepared
    case Declined(reason) => Some(if reason == "" then REAUTHORIZATION_DENIED else reason)
    case Prepared(envelope, descriptor, hash, version) =>
      if !PreparedMatches(t, w.prepared, w.sha) then Some(REAUTHORIZATION_CHANGED)
      else
        match BatchFailure(t, descriptor.value, w)
        case Some(reason) => Some(reason)
        case None => TransferFailure(t, envelope.value, descriptor.value, arguments, w)
  }

  /** Why a claimed proposal may not be dispatched; none if it may. */
  function Reauthorize(p: Proposal, w: World): Option<string> {
    if p.arguments == None || !p.arguments.value.VDict? then Some(ARGUMENTS_UNAVAILABLE)
    else if w.identity == None || !w.identity.value.active || w.identity.value.userId != p.terms.requesterId
            || w.identity.value.agentId != p.terms.agentId
    then Some(IDENTITY_REVOKED)
    else if !w.canPrepare then Some(EXECUTOR_UNAVAILABLE)
    else
      match CallFailure(p.terms, p.arguments.value, w)
      case Some(reason) => Some(reason)
      case None => if !w.canDispatch then Some(EXECUTOR_UNAVAILABLE) else None
  }

  /** The checks as the source runs them, the two loops included. */
  method FindTransferFailure(t: Terms, e: Envelope, d: Descriptor, arguments: Value, w: World)
      returns (r: Option<string>)
    ensures r == TransferFailure(t, e, d, arguments, w)
  {
    hide EntriesFailure, RequestUnchanged, ExpectedDestination, TRANSFER_HASH_UNEXPECTED, TRANSFER_MANIFEST_INVALID,
      TRANSFER_MANIFEST_CHANGED, TRANSFER_REQUEST_CHANGED, TRANSFER_DESTINATION_CHANGED;
    if t.transferManifest == None {
      return if t.transferHash != None then Some(TRANSFER_HASH_UNEXPECTED) else None;
    }
    var manifest := t.transferManifest.value;
    if !manifest.VDict? || t.transferHash == None { return Some(TRANSFER_MANIFEST_INVALID); }
    if w.sha(manifest) != t.transferHash.value { return Some(TRANSFER_MANIFEST_CHANGED); }
    var m := manifest.d;
    if !RequestUnchanged(m, e) { return Some(TRANSFER_REQUEST_CHANGED); }
    var destination := Get(m, "destination");
    if !destination.VDict? || destination.d.vals != ExpectedDestination(t, e, d, w) {
      return Some(TRANSFER_DESTINATION_CHANGED);
    }
    r := FindEntriesFailure(Get(m, "destination_values"), Get(m, "sources"), d, arguments, w);
  }

  method FindEntriesFailure(values: Value, sources: Value, d: Descriptor, arguments: Value, w: World)
      returns (r: Option<string>)
    ensures r == EntriesFailure(values, sources, d, arguments, w)
  {
    hide ValueFailure, SourceFailure, FirstFailure, TRANSFER_DESTINATION_VALUES_INVALID,
      TRANSFER_SOURCE_REAUTHORIZATION_UNAVAILABLE, TRANSFER_SOURCES_INVALID;
    if !values.VList? || values.items == [] { return Some(TRANSFER_DESTINATION_VALUES_INVALID); }
    r := FindFailure(x => ValueFailure(x, arguments, w), values.items);
    if r.Some? { return; }
    if !w.canAuthorizeSource { return Some(TRANSFER_SOURCE_REAUTHORIZATION_UNAVAILABLE); }
    if !sources.VList? || sources.items == [] { return Some(TRANSFER_SOURCES_INVALID); }
    r := FindFailure(x => SourceFailure(x, d, w), sources.items);
  }

  method FindCallFailure(t: Terms, arguments: Value, w: World) returns (r: Option<string>)
    ensures r == CallFailure(t, arguments, w)
  {
    hide BatchFailure, TransferFailure, EnvelopeMatches, REAUTHORIZATION_DENIED, REAUTHORIZATION_CHANGED;
    if w.prepared.Declined? {
      return Some(if w.prepared.reason == "" then REAUTHORIZATION_DENIED else w.prepared.reason);
    }
    if !PreparedMatches(t, w.prepared, w.sha) { return Some(REAUTHORIZATION_CHANGED); }
    var e, d := w.prepared.envelope.value, w.prepared.descriptor.value;
    r := BatchFailure(t, d, w);
    if r.Some? { return; }
    r := FindTransferFailure(t, e, d, arguments, w);
  }

  // ---- what passing the checks means ----

  predicate ValueAsApproved(entry: Value, arguments: Value, w: World) {
    && entry.VDict?
    && var found := Evaluate(arguments, TextOf(Get(entry.d, "destination_pointer")));
       found.Some? && Get(entry.d, "value_hash") == VStr(w.sha(found.value))
  }

  /** The tool belongs to the domain: it is named before the first dot of the tool's id. */
  predicate InDomain(toolId: string, domain: string) {
    '.' !in domain && (toolId == domain || domain + "." <= toolId)
  }

  lemma {:induction false} DomainOfIff(toolId: string, domain: string)
    ensures DomainOf(toolId) == domain <==> InDomain(toolId, domain)
  {
    if toolId != "" && toolId[0] != '.' {
      if domain == "" {
        assert domain + "." == ".";
      } else {
        DomainOfIff(toolId[1..], domain[1..]);
        assert toolId == [toolId[0]] + toolId[1..] && domain == [domain[0]] + domain[1..];
        assert domain + "." == [domain[0]] + (domain[1..] + ".");
      }
    }
  }

  /** Ordinary data may go anywhere; anything else only to its own kind or to what is highly restricted, which gives
      nothing away. */
  lemma CrossesIff(from: string, to: string)
    ensures MayCross(from, to) <==>
              || (from == "normal" && to in {"normal", "private", "financial", "identity", "highly_restricted"})
              || (from in {"private", "financial", "identity"} && (to == from || to == "highly_restricted"))
  {}

  /** The tool named by the source is granted again, with everything the approval recorded of it. */
  predicate GrantedAgain(source: Dict, answer: SourceAnswer) {
    && answer.SourceGranted? && answer.descriptor.Some?
    && var d := answer.descriptor.value;
       && Get(source, "skill_id") == VStr(d.skillId) && Get(source, "tool_id") == VStr(d.toolId)
       && Get(source, "contract_version") == VInt(d.contractVersion)
       && Get(source, "descriptor_hash") == VStr(answer.descriptorHash)
       && Get(source, "resource_version") == VStr(answer.resourceVersion)
       && Get(source, "sensitivity") == VStr(d.sensitivity) && Get(source, "persistence") == VStr(d.persistence)
       && Get(source, "domain").VStr? && InDomain(d.toolId, Get(source, "domain").s)
  }

  /** The source is granted again unchanged, offers what was taken under the approved pattern and scope, and
      crosses into another domain only where the matrix lets it. */
  predicate SourceAsApproved(entry: Value, to: Descriptor, w: World) {
    && entry.VDict? && Get(entry.d, "tool_id").VStr? && Get(entry.d, "contract_version").VInt?
    && var source := entry.d;
       var answer := w.authorizeSource(Get(source, "tool_id").s, Get(source, "contract_version").i);
       var pattern, scope, pointer :=
         TextOf(Get(source, "transfer_pattern")), TextOf(Get(source, "transfer_scope")),
             TextOf(Get(source, "source_pointer"));
       && GrantedAgain(source, answer)
       && (!InDomain(to.toolId, Get(source, "domain").s) ==>
             scope == "cross_domain" && MayCross(answer.descriptor.value.sensitivity, to.sensitivity))
       && (pointer != "" ==> PatternMatches(pattern, pointer))
       && exists f | f in answer.descriptor.value.fields :: f.pattern == pattern && f.scope == scope
  }

  lemma SameSourceIff(source: Dict, answer: SourceAnswer)
    requires answer.SourceGranted? && answer.descriptor.Some?
    ensures SameSource(source, answer.descriptor.value, answer) <==> GrantedAgain(source, answer)
  {
    hide DomainOf, InDomain;
    if Get(source, "domain").VStr? { DomainOfIff(answer.descriptor.value.toolId, Get(source, "domain").s); }
  }

  predicate BatchAsApproved(t: Terms, d: Descriptor, w: World) {
    && (d.cardinality == "independent_batch" <==> t.batchManifest.Some?)
        && (t.batchManifest.Some? <==> t.batchHash.Some?)
    && (t.batchManifest.Some? ==>
          t.batchManifest.value.VDict? && w.batch.Some? && Content(t.batchManifest.value) == Content(w.batch.value.0)
          && t.batchHash.value == w.batch.value.1)
  }

  const REQUEST_KEYS := ["request_id", "request_hash", "requester_user_id", "agent_id", "channel_binding_hash"]

  /** The transfer was approved for this very request. */
  predicate FromRequest(m: Dict, e: Envelope) {
    var texts := [e.requestId, e.requestHash, e.userId, e.agentId, e.channelHash];
    forall i :: 0 <= i < 5 ==> Get(m, REQUEST_KEYS[i]) == VStr(texts[i])
  }

  lemma FromRequestIff(m: Dict, e: Envelope)
    ensures RequestUnchanged(m, e) <==> FromRequest(m, e)
  {
    hide Get;
    var k := REQUEST_KEYS;
    if FromRequest(m, e) {
      assert Get(m, k[0]) == VStr(e.requestId) && Get(m, k[1]) == VStr(e.requestHash) && Get(m, k[2]) == VStr(e.userId);
      assert Get(m, k[3]) == VStr(e.agentId) && Get(m, k[4]) == VStr(e.channelHash);
    }
  }

  /** The destination recorded is the tool called now, with the arguments called with, and records nothing else. */
  predicate GoesTo(m: Dict, t: Terms, e: Envelope, d: Descriptor, w: World) {
    && m.vals.Keys == {"skill_id", "domain", "tool_id", "contract_version", "descriptor_hash", "resource_version",
                       "arguments_hash", "sensitivity", "persistence"}
    && Get(m, "tool_id") == VStr(e.toolId) && Get(m, "arguments_hash") == VStr(e.argumentsHash)
    && Get(m, "skill_id") == VStr(e.skillId) && Get(m, "contract_version") == VInt(e.contractVersion)
    && Get(m, "domain").VStr? && InDomain(e.toolId, Get(m, "domain").s)
    && Get(m, "descriptor_hash") == VStr(w.sha(d.content)) && Get(m, "resource_version") == VStr(t.resourceVersion)
    && Get(m, "sensitivity") == VStr(d.sensitivity) && Get(m, "persistence") == VStr(d.persistence)
  }

  lemma GoesToIff(m: Dict, t: Terms, e: Envelope, d: Descriptor, w: World)
    ensures m.vals == ExpectedDestination(t, e, d, w) <==> GoesTo(m, t, e, d, w)
  {
    hide ExpectedDestination, GoesTo;
    DestinationGoes(m, t, e, d, w);
    if GoesTo(m, t, e, d, w) { GoesToDestination(m, t, e, d, w); }
  }

  lemma DestinationGoes(m: Dict, t: Terms, e: Envelope, d: Descriptor, w: World)
    ensures m.vals == ExpectedDestination(t, e, d, w) ==> GoesTo(m, t, e, d, w)
  {
    hide DomainOf, InDomain;
    DomainOfIff(e.toolId, DomainOf(e.toolId));
  }

  lemma GoesToDestination(m: Dict, t: Terms, e: Envelope, d: Descriptor, w: World)
    requires GoesTo(m, t, e, d, w)
    ensures m.vals == ExpectedDestination(t, e, d, w)
  {
    hide DomainOf, InDomain;
    DomainOfIff(e.toolId, Get(m, "domain").s);
    var expected := ExpectedDestination(t, e, d, w);
    assert m.vals.Keys == expected.Keys;
    assert forall k | k in m.vals :: m.vals[k] == expected[k];
  }

  predicate TransferAsApproved(t: Terms, e: Envelope, d: Descriptor, arguments: Value, w: World) {
    && (t.transferManifest.Some? <==> t.transferHash.Some?)
    && (t.transferManifest.Some? ==>
          && t.transferManifest.value.VDict? && w.sha(t.transferManifest.value) == t.transferHash.value
          && var m := t.transferManifest.value.d;
             var destination, values, sources := Get(m, "destination"), Get(m, "destination_values"), Get(m, "sources");
             && FromRequest(m, e) && destination.VDict? && GoesTo(destination.d, t, e, d, w)
             && values.VList? && values.items != []
                 && (forall x | x in values.items :: ValueAsApproved(x, arguments, w))
             && sources.VList? && sources.items != [] && w.canAuthorizeSource
             && forall x | x in sources.items :: SourceAsApproved(x, d, w))
  }

  /** The prepared call is the one that was approved, for the people it was approved for. */
  predicate CallAsApproved(t: Terms, arguments: Value, w: World) {
    && arguments.VDict? && w.identity == Some(Identity(true, t.requesterId, t.agentId))
    && w.prepared.Prepared? && w.prepared.envelope.Some? && w.prepared.descriptor.Some?
    && var e, d := w.prepared.envelope.value, w.prepared.descriptor.value;
       && e.operationId == t.operationId && e.argumentsHash == t.argumentsHash && e.authorizationRef == t.authorization
       && w.sha(d.content) == t.descriptorHash && w.prepared.descriptorHash == t.descriptorHash
       && w.prepared.resourceVersion == t.resourceVersion
       && BatchAsApproved(t, d, w) && TransferAsApproved(t, e, d, arguments, w)
  }

  lemma ValueAsApprovedIff(entry: Value, arguments: Value, w: World)
    ensures ValueFailure(entry, arguments, w) == None <==> ValueAsApproved(entry, arguments, w)
  {
    hide Evaluate;
  }

  lemma SourceAsApprovedIff(entry: Value, d: Descriptor, w: World)
    ensures SourceFailure(entry, d, w) == None <==> SourceAsApproved(entry, d, w)
  {
    hide PatternMatches, DomainOf, InDomain, MayCross, SameSource, GrantedAgain;
    if entry.VDict? {
      var source := entry.d;
      var answer := w.authorizeSource(TextOf(Get(source, "tool_id")), NumberOf(Get(source, "contract_version")));
      if answer.SourceGranted? && answer.descriptor.Some? {
        SameSourceIff(source, answer);
        GrantedTexts(source, answer);
      }
      if Get(source, "domain").VStr? { DomainOfIff(d.toolId, Get(source, "domain").s); }
      if Get(source, "tool_id").VStr? && Get(source, "contract_version").VInt? {
        var again := w.authorizeSource(Get(source, "tool_id").s, Get(source, "contract_version").i);
        assert again == answer;
        if GrantedAgain(source, again) { GrantedTexts(source, again); }
      }
    }
  }

  lemma GrantedTexts(source: Dict, answer: SourceAnswer)
    ensures GrantedAgain(source, answer) ==>
              answer.SourceGranted? && answer.descriptor.Some? && Get(source, "tool_id").VStr?
              && Get(source, "contract_version").VInt? && Get(source, "domain").VStr?
  {
    hide InDomain;
  }

  lemma BatchAsApprovedIff(t: Terms, d: Descriptor, w: World)
    ensures BatchFailure(t, d, w) == None <==> BatchAsApproved(t, d, w)
  {
    hide Content;
  }

  lemma TransferAsApprovedIff(t: Terms, e: Envelope, d: Descriptor, arguments: Value, w: World)
    ensures TransferFailure(t, e, d, arguments, w) == None <==> TransferAsApproved(t, e, d, arguments, w)
  {
    hide ValueFailure, SourceFailure, ValueAsApproved, SourceAsApproved, ExpectedDestination, RequestUnchanged,
      FirstFailure, FromRequest, GoesTo;
    if t.transferManifest.Some? && t.transferManifest.value.VDict? {
      var m := t.transferManifest.value.d;
      FromRequestIff(m, e);
      if Get(m, "destination").VDict? { GoesToIff(Get(m, "destination").d, t, e, d, w); }
    }
    forall x ensures ValueFailure(x, arguments, w) == None <==> ValueAsApproved(x, arguments, w) {
      ValueAsApprovedIff(x, arguments, w);
    }
    forall x ensures SourceFailure(x, d, w) == None <==> SourceAsApproved(x, d, w) { SourceAsApprovedIff(x, d, w); }
  }

  /** The checks let a claimed proposal through exactly when the prepared call is the approved one. */
  lemma {:induction false} ReauthorizeIff(p: Proposal, w: World)
    ensures Reauthorize(p, w) == None <==>
            p.arguments.Some? && w.canPrepare && w.canDispatch && CallAsApproved(p.terms, p.arguments.value, w)
  {
    hide BatchFailure, BatchAsApproved, TransferFailure, TransferAsApproved;
    if w.prepared.Prepared? && w.prepared.envelope.Some? && w.prepared.descriptor.Some? {
      var e, d := w.prepared.envelope.value, w.prepared.descriptor.value;
      BatchAsApprovedIff(p.terms, d, w);
      if p.arguments.Some? { TransferAsApprovedIff(p.terms, e, d, p.arguments.value, w); }
    }
  }

  ghost predicate Injective(sha: Value -> string) {
    forall a, b :: sha(a) == sha(b) ==> Content(a) == Content(b)
  }

  /** The call that passes is the approved one: same operation, arguments, authorization, descriptor and
      resource version, for the requester's own active identity. */
  lemma DispatchIsTheApprovedCall(p: Proposal, w: World)
    requires Reauthorize(p, w) == None
    ensures w.prepared.Prepared? && w.prepared.envelope.Some? && w.prepared.descriptor.Some?
    ensures EnvelopeMatches(p.terms, w.prepared.envelope.value)
    ensures w.prepared.descriptorHash == p.terms.descriptorHash && w.prepared.resourceVersion == p.terms.resourceVersion
    ensures w.identity == Some(Identity(true, p.terms.requesterId, p.terms.agentId))
    ensures forall approved: Descriptor ::
              Injective(w.sha) && w.sha(approved.content) == p.terms.descriptorHash ==>
              Content(w.prepared.descriptor.value.content) == Content(approved.content)
  {}

  lemma TransferPassed(p: Proposal, w: World)
    requires Reauthorize(p, w) == None && p.terms.transferManifest.Some? && p.terms.transferManifest.value.VDict?
    ensures w.prepared.Prepared? && w.prepared.descriptor.Some?
    ensures var m := p.terms.transferManifest.value.d;
            && Get(m, "destination_values").VList? && Get(m, "sources").VList?
            && (forall x :: x in Get(m, "destination_values").items ==> ValueFailure(x, p.arguments.value, w) == None)
            && (forall x :: x in Get(m, "sources").items ==> SourceFailure(x, w.prepared.descriptor.value, w) == None)
  {
    hide ValueFailure, SourceFailure, BatchFailure, ExpectedDestination, RequestUnchanged, EnvelopeMatches,
      FirstFailure;
    var m := p.terms.transferManifest.value.d;
    assert FirstFailure(x => ValueFailure(x, p.arguments.value, w), Get(m, "destination_values").items) == None;
    assert FirstFailure(x => SourceFailure(x, w.prepared.descriptor.value, w), Get(m, "sources").items) == None;
  }

  /** Every value the approval recorded for a destination pointer is the value now found there,
      up to the key order that canonical JSON forgets. */
  lemma TransferredValuesUnchanged(p: Proposal, w: World, entry: Value, approved: Value)
    requires Reauthorize(p, w) == None && p.terms.transferManifest.Some? && Injective(w.sha)
    requires p.terms.transferManifest.value.VDict?
    requires var values := Get(p.terms.transferManifest.value.d, "destination_values");
             values.VList? && entry in values.items
    requires entry.VDict? && Get(entry.d, "value_hash") == VStr(w.sha(approved))
    ensures p.arguments.Some?
    ensures var found := Evaluate(p.arguments.value, TextOf(Get(entry.d, "destination_pointer")));
            found.Some? && Content(found.value) == Content(approved)
  {
    TransferPassed(p, w);
    hide Evaluate, CallFailure;
  }

  /** Every source is still authorized with the same descriptor, its pointer lies under an approved
      pattern that the descriptor still offers, and a cross-domain flow is one the matrix allows. */
  lemma SourcesStillAllowed(p: Proposal, w: World, entry: Value)
    requires Reauthorize(p, w) == None && p.terms.transferManifest.Some? && p.terms.transferManifest.value.VDict?
    requires var sources := Get(p.terms.transferManifest.value.d, "sources");
             sources.VList? && entry in sources.items
    ensures entry.VDict? && w.prepared.Prepared? && w.prepared.descriptor.Some?
    ensures SourceAsApproved(entry, w.prepared.descriptor.value, w)
  {
    TransferPassed(p, w);
    hide SourceFailure, SourceAsApproved, CallFailure;
    SourceAsApprovedIff(entry, w.prepared.descriptor.value, w);
  }

  /** Transfers cannot be chained around the matrix: any chain of allowed crossings is allowed directly. */
  lemma {:induction false} NoLaundering(chain: seq<string>)
    requires |chain| >= 2 && forall i :: 0 <= i < |chain| - 1 ==> MayCross(chain[i], chain[i + 1])
    ensures MayCross(chain[0], chain[|chain| - 1])
  {
    if |chain| > 2 {
      var rest := chain[..|chain| - 1];
      NoLaundering(rest);
      assert MayCross(chain[|chain| - 2], chain[|chain| - 1]);
      CrossTransitive(chain[0], chain[|chain| - 2], chain[|chain| - 1]);
    } else {
      assert MayCross(chain[0], chain[0 + 1]);
    }
  }

  lemma CrossTransitive(a: string, b: string, c: string)
    requires MayCross(a, b) && MayCross(b, c)
    ensures MayCross(a, c)
  {}
}
