/** Admission of document uploads: how many at once, in all and for each principal, and how many bytes each. */
module UploadGuard {
  import opened Prelude
  import opened Text

  datatype Limits = Limits(bytes: nat, timeout: real, global: nat, perPrincipal: nat)

  type Bucket = string

  // ---- framing ----

  datatype Rejection = Rejection(status: int, code: string)

  const AMBIGUOUS_LENGTH := Rejection(400, "ambiguous_content_length")
  const AMBIGUOUS_FRAMING := Rejection(400, "ambiguous_body_framing")
  const INVALID_LENGTH := Rejection(400, "invalid_content_length")
  const TOO_LARGE := Rejection(413, "request_body_too_large")
  const TIMED_OUT := Rejection(408, "request_body_timeout")
  const TOO_MANY := Rejection(429, "document_upload_concurrency_exceeded")

  /** The checks on the declared length, before a slot is taken. */
  function FramingFault(lengths: seq<string>, transferEncoding: bool, limits: Limits): Option<Rejection> {
    if |lengths| > 1 || (|lengths| == 1 && ',' in lengths[0]) then Some(AMBIGUOUS_LENGTH)
    else if |lengths| == 1 && transferEncoding then Some(AMBIGUOUS_FRAMING)
    else if |lengths| == 0 || lengths[0] == "" then None
    else if !AllDigits(lengths[0]) then Some(INVALID_LENGTH)
    else if ParseNat(lengths[0]) > limits.bytes then Some(TOO_LARGE)
    else None
  }

  /** A single declared length is accepted, without transfer encoding, if and only if it is a number within
      the limit; a length printed in decimal is read as itself. */
  lemma DeclaredLengthIff(n: nat, limits: Limits)
    ensures FramingFault([ToDec(n)], false, limits) == None <==> n <= limits.bytes
  {
    DecimalRoundTrip(n);
    assert ',' !in ToDec(n) by { assert !IsDigit(','); }
  }

  /** The checks on framing let through no length, an empty one, or one number within the limit that stands
      alone and without transfer encoding. */
  lemma FramingIff(lengths: seq<string>, transferEncoding: bool, limits: Limits)
    ensures FramingFault(lengths, transferEncoding, limits) == None <==>
              lengths == []
              || (|lengths| == 1 && !transferEncoding
                  && (lengths[0] == "" || (AllDigits(lengths[0]) && ParseNat(lengths[0]) <= limits.bytes)))
    ensures |lengths| > 1 || (|lengths| == 1 && ',' in lengths[0]) ==>
              FramingFault(lengths, transferEncoding, limits) == Some(Rejection(400, "ambiguous_content_length"))
    ensures |lengths| == 1 && ',' !in lengths[0] && transferEncoding ==>
              FramingFault(lengths, transferEncoding, limits) == Some(Rejection(400, "ambiguous_body_framing"))
    ensures |lengths| == 1 && !transferEncoding && lengths[0] != "" && ',' !in lengths[0] && !AllDigits(lengths[0]) ==>
              FramingFault(lengths, transferEncoding, limits) == Some(Rejection(400, "invalid_content_length"))
    ensures |lengths| == 1 && !transferEncoding && lengths[0] != "" && AllDigits(lengths[0])
            && ParseNat(lengths[0]) > limits.bytes ==>
              FramingFault(lengths, transferEncoding, limits) == Some(Rejection(413, "request_body_too_large"))
  {
    hide ParseNat;
    if |lengths| == 1 && AllDigits(lengths[0]) { assert ',' !in lengths[0] by { assert !IsDigit(','); } }
  }

  /** A run of digits is worth its decimal value: the last digit counts one, the rest ten times as much. */
  lemma ParsedValue(digits: string, last: char)
    requires AllDigits(digits) && IsDigit(last)
    ensures ParseNat(digits + [last]) == 10 * ParseNat(digits) + (last as int - '0' as int) && ParseNat("") == 0
  {
    assert (digits + [last])[..|digits|] == digits;
  }

  // ---- the counters ----

  /** The two counters, and the requests in flight, which the program does not keep but the counters are for. */
  datatype Counters = Counters(active: int, principals: map<Bucket, int>, inFlight: map<nat, Bucket>)

  const Idle := Counters(0, map[], map[])

  datatype Event = Start(id: nat, bucket: Bucket) | End(id: nat)

  function PrincipalCount(c: Counters, b: Bucket): int {
    if b in c.principals then c.principals[b] else 0
  }

  predicate Refused(c: Counters, b: Bucket, limits: Limits) {
    c.active >= limits.global || PrincipalCount(c, b) >= limits.perPrincipal
  }

  function Admitted(c: Counters, id: nat, b: Bucket): Counters {
    Counters(c.active + 1, c.principals[b := PrincipalCount(c, b) + 1], c.inFlight[id := b])
  }

  function Released(c: Counters, id: nat, b: Bucket): Counters {
    var next := (if b in c.principals then c.principals[b] else 1) - 1;
    Counters(c.active - 1, if next <= 0 then c.principals - {b} else c.principals[b := next], c.inFlight - {id})
  }

  /** A request takes a slot or is refused; one in flight gives its slot back, however it ended. */
  function Next(c: Counters, e: Event, limits: Limits): Counters {
    match e
    case Start(id, b) => if id in c.inFlight || Refused(c, b, limits) then c else Admitted(c, id, b)
    case End(id) => if id in c.inFlight then Released(c, id, c.inFlight[id]) else c
  }

  function Run(c: Counters, events: seq<Event>, limits: Limits): Counters {
    if events == [] then c else Next(Run(c, events[..|events| - 1], limits), events[|events| - 1], limits)
  }

  function Holders(m: map<nat, Bucket>, b: Bucket): set<nat> { set id | id in m && m[id] == b }

  /** A bucket's entry is the number of its requests in flight, there is none at zero, and the limit holds. */
  ghost predicate BucketRight(principals: map<Bucket, int>, m: map<nat, Bucket>, b: Bucket, limits: Limits) {
    if b in principals then 0 < principals[b] == |Holders(m, b)| <= limits.perPrincipal else Holders(m, b) == {}
  }

  /** The counters are what is in flight, no bucket is stored at zero, and both limits hold. */
  ghost predicate Inv(c: Counters, limits: Limits) {
    c.active == |c.inFlight| <= limits.global && forall b :: BucketRight(c.principals, c.inFlight, b, limits)
  }

  lemma HoldersAdded(m: map<nat, Bucket>, id: nat, b: Bucket, x: Bucket)
    requires id !in m
    ensures Holders(m[id := b], x) == if x == b then Holders(m, x) + {id} else Holders(m, x)
    ensures id !in Holders(m, x) && |m[id := b]| == |m| + 1
  {
    assert m[id := b].Keys == m.Keys + {id};
    assert |m[id := b].Keys| == |m[id := b]| && |m.Keys| == |m|;
  }

  lemma AdmitKeepsInv(c: Counters, id: nat, b: Bucket, limits: Limits)
    requires Inv(c, limits) && id !in c.inFlight && !Refused(c, b, limits)
    ensures Inv(Admitted(c, id, b), limits)
  {
    hide Holders;
    var c' := Admitted(c, id, b);
    forall x ensures BucketRight(c'.principals, c'.inFlight, x, limits) {
      HoldersAdded(c.inFlight, id, b, x);
      assert BucketRight(c.principals, c.inFlight, x, limits);
    }
    HoldersAdded(c.inFlight, id, b, b);
  }

  lemma ReleaseKeepsInv(c: Counters, id: nat, limits: Limits)
    requires Inv(c, limits) && id in c.inFlight
    ensures Inv(Released(c, id, c.inFlight[id]), limits)
  {
    hide Holders;
    var b := c.inFlight[id];
    var c' := Released(c, id, b);
    assert c.inFlight == c'.inFlight[id := b];
    forall x ensures BucketRight(c'.principals, c'.inFlight, x, limits) {
      HoldersAdded(c'.inFlight, id, b, x);
      assert BucketRight(c.principals, c.inFlight, x, limits);
    }
    HoldersAdded(c'.inFlight, id, b, b);
  }

  lemma StepKeepsInv(c: Counters, e: Event, limits: Limits)
    requires Inv(c, limits)
    ensures Inv(Next(c, e, limits), limits)
  {
    hide Inv, Refused, Admitted, Released;
    match e {
      case Start(id, b) => if !(id in c.inFlight || Refused(c, b, limits)) { AdmitKeepsInv(c, id, b, limits); }
      case End(id) => if id in c.inFlight { ReleaseKeepsInv(c, id, limits); }
    }
  }

  /** Over every interleaving of request starts and ends. */
  lemma {:induction false} RunKeepsInv(events: seq<Event>, limits: Limits)
    ensures Inv(Run(Idle, events, limits), limits)
  {
    hide Next, Inv;
    if events == [] {
      IdleInv(limits);
    } else {
      RunKeepsInv(events[..|events| - 1], limits);
      StepKeepsInv(Run(Idle, events[..|events| - 1], limits), events[|events| - 1], limits);
    }
  }

  lemma IdleInv(limits: Limits)
    ensures Inv(Idle, limits)
  {}

  /** In every run: a new request is refused exactly when as many uploads are in flight as the limit, in all
      or for its principal; and when nothing is in flight nothing is left in the counters. */
  lemma RefusedIffFull(events: seq<Event>, id: nat, b: Bucket, limits: Limits)
    ensures var c := Run(Idle, events, limits);
            && |c.inFlight| <= limits.global && |Holders(c.inFlight, b)| <= limits.perPrincipal
            && (id !in c.inFlight ==>
                  (id !in Next(c, Start(id, b), limits).inFlight <==>
                     |c.inFlight| == limits.global || |Holders(c.inFlight, b)| == limits.perPrincipal))
            && (c.inFlight == map[] ==> c == Idle)
  {
    hide Run;
    RunKeepsInv(events, limits);
    var c := Run(Idle, events, limits);
    assert BucketRight(c.principals, c.inFlight, b, limits);
    if c.inFlight == map[] {
      forall x ensures x !in c.principals {
        assert BucketRight(c.principals, c.inFlight, x, limits) && Holders(c.inFlight, x) == {};
      }
    }
  }

  // ---- the body of one request ----

  /** One call of the wrapped receive: the seconds since the request started, and what arrives in time. */
  datatype Call = Call(elapsed: real, arrival: Option<Message>)

  datatype Message = Body(size: nat) | OtherMessage

  function BodySize(m: Message): nat { match m case Body(n) => n case OtherMessage => 0 }

  /** The call reads a message, whether or not it is handed on. */
  predicate Reads(c: Call, limits: Limits) { c.elapsed < limits.timeout && c.arrival.Some? }

  /** Bytes read from the client over some calls. */
  function Observed(calls: seq<Call>, limits: Limits): nat {
    if calls == [] then 0
    else
      var rest, c := Observed(calls[..|calls| - 1], limits), calls[|calls| - 1];
      if Reads(c, limits) then rest + BodySize(c.arrival.value) else rest
  }

  /** Bytes handed to the application, which may go on calling after a rejection. */
  function Handed(calls: seq<Call>, limits: Limits): nat {
    if calls == [] then 0
    else
      var rest, c := Handed(calls[..|calls| - 1], limits), calls[|calls| - 1];
      if Reads(c, limits) && c.arrival.value.Body? && Observed(calls, limits) <= limits.bytes
      then rest + c.arrival.value.size else rest
  }

  /** Never more than the limit, whatever the client sends and however long the application keeps reading;
      and everything read, as long as that is within the limit. */
  lemma {:induction false} HandedWithinLimit(calls: seq<Call>, limits: Limits)
    ensures Handed(calls, limits) <= limits.bytes
    ensures Observed(calls, limits) <= limits.bytes <==> Handed(calls, limits) == Observed(calls, limits)
    ensures Handed(calls, limits) <= Observed(calls, limits)
  {
    if calls != [] { HandedWithinLimit(calls[..|calls| - 1], limits); }
  }

  class BodyReader {
    const limits: Limits
    var observed: nat
    ghost var calls: seq<Call>

    ghost predicate Valid()
      reads this
    {
      observed == Observed(calls, limits)
    }

    constructor (limits: Limits)
      ensures Valid() && calls == [] && this.limits == limits
    {
      this.limits, observed, calls := limits, 0, [];
    }

    /** `guarded_receive`. */
    method Receive(c: Call) returns (r: Result<Message, Rejection>)
      requires Valid()
      modifies this
      ensures Valid() && calls == old(calls) + [c]
      ensures r.Ok? <==> c.elapsed < limits.timeout && c.arrival.Some?
                         && (c.arrival.value.Body? ==> Observed(calls, limits) <= limits.bytes)
      ensures r.Ok? ==> r.value == c.arrival.value
      ensures r.Err? ==>
                r.error == if c.elapsed < limits.timeout
                    && c.arrival.Some? then Rejection(413, "request_body_too_large")
                           else Rejection(408, "request_body_timeout")
      ensures Handed(calls, limits) == Handed(old(calls), limits) + (if r.Ok? then BodySize(r.value) else 0)
    {
      calls := calls + [c];
      assert calls[..|calls| - 1] == old(calls);
      if c.elapsed >= limits.timeout || c.arrival.None? { return Err(TIMED_OUT); }
      var message := c.arrival.value;
      if message.Body? {
        observed := observed + message.size;
        if observed > limits.bytes { return Err(TOO_LARGE); }
      }
      return Ok(message);
    }
  }

  // ---- the guard ----

  datatype Response = Refusal(r: Rejection) | FromApplication | Cut(r: Rejection)

  class DocumentRequestGuard {
    const limits: Limits
    var active: int
    var principals: map<Bucket, int>
    // The requests between their two locked blocks; only the proofs and the other requests look at it.
    var inFlight: map<nat, Bucket>

    function View(): Counters
      reads this
    {
      Counters(active, principals, inFlight)
    }

    ghost predicate Valid()
      reads this
    {
      Inv(View(), limits)
    }

    constructor (bytes: int, timeout: real, global: int, perPrincipal: int)
      ensures View() == Idle && Valid()
      ensures limits == Limits(MaxInt(1, bytes), MaxReal(1.0, timeout), MaxInt(1, global), MaxInt(1, perPrincipal))
    {
      limits := Limits(MaxInt(1, bytes), MaxReal(1.0, timeout), MaxInt(1, global), MaxInt(1, perPrincipal));
      active, principals, inFlight := 0, map[], map[];
    }

    /** The first locked block: count the request in, unless a limit is reached. */
    method Admit(id: nat, b: Bucket) returns (ok: bool)
      requires Valid() && id !in inFlight
      modifies this
      ensures Valid() && View() == Next(old(View()), Start(id, b), limits)
      ensures ok <==> |old(inFlight)| < limits.global && |Holders(old(inFlight), b)| < limits.perPrincipal
      ensures inFlight == if ok then old(inFlight)[id := b] else old(inFlight)
    {
      StepKeepsInv(View(), Start(id, b), limits);
      var principalCount := if b in principals then principals[b] else 0;
      ok := !(active >= limits.global || principalCount >= limits.perPrincipal);
      assert BucketRight(principals, inFlight, b, limits);
      if ok {
        active := active + 1;
        principals := principals[b := principalCount + 1];
        inFlight := inFlight[id := b];
      }
    }

    /** The block in `finally`: count the request out. */
    method Release(id: nat, b: Bucket)
      requires Valid() && id in inFlight && inFlight[id] == b
      modifies this
      ensures Valid() && View() == Next(old(View()), End(id), limits)
      ensures inFlight == old(inFlight) - {id}
    {
      StepKeepsInv(View(), End(id), limits);
      active := active - 1;
      var nextCount := (if b in principals then principals[b] else 1) - 1;
      if nextCount <= 0 {
        principals := principals - {b};
      } else {
        principals := principals[b := nextCount];
      }
      inFlight := inFlight - {id};
    }

    /** Other requests starting and ending meanwhile. */
    method Interfere(events: seq<Event>)
      requires Valid()
      modifies this
      ensures Valid() && View() == Run(old(View()), events, limits)
    {
      hide Next, Inv;
      for n := 0 to |events|
        invariant Valid() && View() == Run(old(View()), events[..n], limits)
      {
        assert events[..n + 1][..n] == events[..n];
        StepKeepsInv(View(), events[n], limits);
        var next := Next(View(), events[n], limits);
        active, principals, inFlight := next.active, next.principals, next.inFlight;
      }
      assert events[..|events|] == events;
    }

    /** One upload from its admission to its release. The application reads the body through the guard until
        it has enough, is cut off, or fails; other requests come and go before each message and at the end. */
    method Serve(id: nat, b: Bucket, lengths: seq<string>, transferEncoding: bool, waits: seq<Wait>,
        closing: seq<Event>)
      returns (response: Response, handed: nat, done: nat)
      requires Valid() && id !in inFlight && Spares(closing, id) && forall r :: r in waits ==> Spares(r.others, id)
      modifies this
      ensures Valid() && id !in inFlight && handed <= limits.bytes && done <= |waits|
      ensures response.Refusal? ==> View() == old(View()) && handed == 0
      ensures FramingFault(lengths, transferEncoding, limits).Some? ==>
                response == Refusal(FramingFault(lengths, transferEncoding, limits).value)
      ensures FramingFault(lengths, transferEncoding, limits).None? ==>
                (response == Refusal(TOO_MANY) <==>
                   |old(inFlight)| >= limits.global || |Holders(old(inFlight), b)| >= limits.perPrincipal)
      ensures !response.Refusal? ==>
                && handed == Handed(CallsOf(waits[..done]), limits)
                && (response.FromApplication? ==> done == |waits|)
                && View() == Run(old(View()), [Start(id, b)] + Others(waits[..done]) + closing + [End(id)], limits)
    {
      handed, done := 0, 0;
      var fault := FramingFault(lengths, transferEncoding, limits);
      if fault.Some? { return Refusal(fault.value), 0, 0; }
      hide Next, Run, Inv, Holders, FramingFault, Spares, Handed, Observed, Others, CallsOf, Refused, TOO_MANY;
      var before := View();
      var ok := Admit(id, b);
      if !ok {
        RefusedUnchanged(before, id, b, limits);
        return Refusal(TOO_MANY), 0, 0;
      }
      response, handed, done := Feed(id, b, waits);
      StillInFlight(View(), id, closing, limits);
      Interfere(closing);
      Release(id, b);
      Bracket(before, id, b, Others(waits[..done]), closing, limits);
    }

    /** The application's reads: it stops at the first rejection, or when it has read all it wants. */
    method Feed(id: nat, b: Bucket, waits: seq<Wait>) returns (response: Response, handed: nat, done: nat)
      requires Valid() && id in inFlight && inFlight[id] == b && forall r :: r in waits ==> Spares(r.others, id)
      modifies this
      ensures Valid() && id in inFlight && inFlight[id] == b && done <= |waits|
      ensures View() == Run(old(View()), Others(waits[..done]), limits)
      ensures handed == Handed(CallsOf(waits[..done]), limits) <= limits.bytes
      ensures !response.Refusal? && (response.FromApplication? ==> done == |waits|)
    {
      hide Next, Run, Inv, Spares, Handed, Observed;
      var start := View();
      var reader := new BodyReader(limits);
      handed, done := 0, 0;
      NothingRead(start, limits);
      while done < |waits|
        invariant done <= |waits| && fresh(reader) && reader.Valid() && reader.limits == limits
        invariant Valid() && id in inFlight && inFlight[id] == b
        invariant View() == Run(start, Others(waits[..done]), limits)
        invariant reader.calls == CallsOf(waits[..done]) && handed == Handed(reader.calls, limits)
      {
        WaitsStep(waits, done);
        StillInFlight(View(), id, waits[done].others, limits);
        RunConcat(start, Others(waits[..done]), waits[done].others, limits);
        Interfere(waits[done].others);
        var r := reader.Receive(waits[done].call);
        HandedWithinLimit(reader.calls, limits);
        done := done + 1;
        if r.Err? { return Cut(r.error), handed, done; }
        handed := handed + BodySize(r.value);
      }
      HandedWithinLimit(reader.calls, limits);
      response := FromApplication;
    }
  }

  // ---- one request among others ----

  /** One message awaited, and what other requests do meanwhile. */
  datatype Wait = Wait(others: seq<Event>, call: Call)

  function CallsOf(waits: seq<Wait>): seq<Call> {
    if waits == [] then [] else CallsOf(waits[..|waits| - 1]) + [waits[|waits| - 1].call]
  }

  function Others(waits: seq<Wait>): seq<Event> {
    if waits == [] then [] else Others(waits[..|waits| - 1]) + waits[|waits| - 1].others
  }

  /** None of the events starts or ends this request. */
  predicate Spares(events: seq<Event>, id: nat) { forall e :: e in events ==> e.id != id }

  lemma WaitsStep(waits: seq<Wait>, n: nat)
    requires n < |waits|
    ensures CallsOf(waits[..n + 1]) == CallsOf(waits[..n]) + [waits[n].call]
    ensures Others(waits[..n + 1]) == Others(waits[..n]) + waits[n].others
    ensures waits[n] in waits
  {
    assert waits[..n + 1][..n] == waits[..n];
  }

  lemma NothingRead(c: Counters, limits: Limits)
    ensures Run(c, [], limits) == c && Handed([], limits) == 0
  {}

  lemma {:induction false} RunConcat(c: Counters, a: seq<Event>, b: seq<Event>, limits: Limits)
    ensures Run(c, a + b, limits) == Run(Run(c, a, limits), b, limits)
  {
    hide Next;
    if b == [] {
      assert a + b == a;
    } else {
      RunConcat(c, a, b[..|b| - 1], limits);
      assert (a + b)[..|a + b| - 1] == a + b[..|b| - 1];
    }
  }

  lemma RefusedUnchanged(c: Counters, id: nat, b: Bucket, limits: Limits)
    requires Next(c, Start(id, b), limits).inFlight == c.inFlight && id !in c.inFlight
    ensures Next(c, Start(id, b), limits) == c
  {
    assert id in Admitted(c, id, b).inFlight;
  }

  /** Nobody else's steps end a request. */
  lemma {:induction false} StillInFlight(c: Counters, id: nat, others: seq<Event>, limits: Limits)
    requires id in c.inFlight && Spares(others, id)
    ensures id in Run(c, others, limits).inFlight && Run(c, others, limits).inFlight[id] == c.inFlight[id]
  {
    if others != [] {
      StillInFlight(c, id, others[..|others| - 1], limits);
      OtherStep(Run(c, others[..|others| - 1], limits), id, others[|others| - 1], limits);
      hide Next;
    }
  }

  lemma OtherStep(c: Counters, id: nat, e: Event, limits: Limits)
    requires id in c.inFlight && e.id != id
    ensures id in Next(c, e, limits).inFlight && Next(c, e, limits).inFlight[id] == c.inFlight[id]
  {}

  lemma Bracket(c: Counters, id: nat, b: Bucket, others: seq<Event>, closing: seq<Event>, limits: Limits)
    ensures Run(c, [Start(id, b)] + others + closing + [End(id)], limits)
         == Next(Run(Run(Next(c, Start(id, b), limits), others, limits), closing, limits), End(id), limits)
  {
    hide Next;
    var start := [Start(id, b)];
    assert start[..0] == [] && Run(c, start, limits) == Next(c, Start(id, b), limits);
    RunConcat(c, start, others, limits);
    RunConcat(c, start + others, closing, limits);
    var all := start + others + closing + [End(id)];
    assert all[..|all| - 1] == start + others + closing;
  }
}
