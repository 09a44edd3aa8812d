/** The accelerator lease ledger as data, and every repository call as one atomic step on it. */
module AcceleratorModel {
  import opened Prelude
  import opened Text

  /** Seconds. Stored timestamps are fixed-width UTC text, which sorts like this. */
  type Time = real

  /** A uuid4 is fixed-width hex text; only its order and its uniqueness matter. */
  type WaiterId = nat

  const GPU0 := "gpu0"

  datatype Status = Queued | Acquired | Completed | Cancelled | Expired

  datatype Waiter = Waiter(resourceId: string, lane: string, priority: int, status: Status,
                           createdAt: Time, expiresAt: Time)

  /** The four nullable lease columns, which every update sets or clears together. */
  datatype Holder = Holder(owner: WaiterId, lane: string, priority: int, expiresAt: Time)

  datatype Resource = Resource(fencingToken: nat, holder: Option<Holder>)

  datatype Lease = Lease(waiterId: WaiterId, resourceId: string, lane: string, priority: int,
                         fencingToken: nat, expiresAt: Time)

  /** The schema inserts exactly one resource row, gpu0. */
  datatype Db = Db(resource: Resource, waiters: map<WaiterId, Waiter>)

  const EmptyDb := Db(Resource(0, None), map[])

  function ClampLease(seconds: real): (r: real)
    ensures 5.0 <= r <= 900.0
  {
    MaxReal(5.0, MinReal(seconds, 900.0))
  }

  function ClampPriority(p: int): (r: int)
    ensures 1 <= r <= 1000
  {
    MaxInt(1, MinInt(p, 1000))
  }

  function Normalized(lane: string): string { Lower(Strip(lane)) }

  /** `[a-z][a-z0-9_]{1,63}` in full. */
  predicate ValidLane(lane: string) {
    && 2 <= |lane| <= 64
    && 'a' <= lane[0] <= 'z'
    && forall i :: 1 <= i < |lane| ==> 'a' <= lane[i] <= 'z' || IsDigit(lane[i]) || lane[i] == '_'
  }

  // ---- queue order ----

  /** ORDER BY priority DESC, created_at, waiter_id. */
  predicate Ahead(a: WaiterId, wa: Waiter, b: WaiterId, wb: Waiter) {
    || wa.priority > wb.priority
    || (wa.priority == wb.priority && wa.createdAt < wb.createdAt)
    || (wa.priority == wb.priority && wa.createdAt == wb.createdAt && a < b)
  }

  predicate Candidate(w: Waiter, now: Time) {
    w.resourceId == GPU0 && w.status == Queued && w.expiresAt > now
  }

  /** `id` is the row that ORDER BY ... LIMIT 1 selects. */
  predicate IsFirst(waiters: map<WaiterId, Waiter>, id: WaiterId, now: Time) {
    && id in waiters && Candidate(waiters[id], now)
    && forall other | other in waiters ::
         other != id && Candidate(waiters[other], now) ==> Ahead(id, waiters[id], other, waiters[other])
  }

  // ---- expiry ----

  predicate Overdue(r: Resource, now: Time) {
    r.holder.Some? && r.holder.value.expiresAt <= now
  }

  predicate Reaped(r: Resource, id: WaiterId, now: Time) {
    Overdue(r, now) && r.holder.value.owner == id
  }

  function ExpireWaiter(w: Waiter, reaped: bool, now: Time): Waiter {
    if (reaped && w.status == Acquired) || (w.status == Queued && w.expiresAt <= now)
    then w.(status := Expired) else w
  }

  function Expire(db: Db, now: Time): Db {
    Db(if Overdue(db.resource, now) then db.resource.(holder := None) else db.resource,
       map id | id in db.waiters :: ExpireWaiter(db.waiters[id], Reaped(db.resource, id, now), now))
  }

  // ---- steps ----

  datatype Error = LaneInvalid | DuplicateWaiter | ResourceMissing

  datatype Step =
    | Enqueue(now: Time, id: WaiterId, lane: string, priority: int, waitSeconds: real, resourceId: string)
    | TryAcquire(now: Time, id: WaiterId, leaseSeconds: real)
    | Heartbeat(now: Time, lease: Lease, leaseSeconds: real)
    | Release(now: Time, lease: Lease)
    | CancelWaiter(now: Time, id: WaiterId)
    | Snapshot(now: Time)

  datatype Reply =
    | Enqueued(id: WaiterId)
    | Granted(lease: Lease)
    | NotGranted
    | Flag(ok: bool)
    | Done
    | View(token: nat, lane: string, priority: int, expiresAt: Option<Time>, queued: nat)
    | Failed(error: Error)

  function NewWaiter(s: Step): Waiter
    requires s.Enqueue?
  {
    Waiter(s.resourceId, Normalized(s.lane), ClampPriority(s.priority), Queued,
           s.now, s.now + MaxReal(1.0, s.waitSeconds))
  }

  predicate Matches(db: Db, lease: Lease) {
    && lease.resourceId == GPU0
    && db.resource.holder.Some?
    && db.resource.holder.value.owner == lease.waiterId
    && db.resource.fencingToken == lease.fencingToken
  }

  function SetStatus(db: Db, id: WaiterId, from: Status, to: Status): Db {
    if id in db.waiters && db.waiters[id].status == from
    then db.(waiters := db.waiters[id := db.waiters[id].(status := to)]) else db
  }

  function Grant(db: Db, s: Step): (r: (Db, Reply))
    requires s.TryAcquire? && s.id in db.waiters
    ensures r.1.Granted?
  {
    var w := db.waiters[s.id];
    var token := db.resource.fencingToken + 1;
    var until := s.now + ClampLease(s.leaseSeconds);
    (SetStatus(db.(resource := Resource(token, Some(Holder(s.id, w.lane, w.priority, until)))), s.id, Queued, Acquired),
     Granted(Lease(s.id, w.resourceId, w.lane, w.priority, token, until)))
  }

  ghost function QueuedIds(db: Db): set<WaiterId> {
    set id | id in db.waiters && db.waiters[id].status == Queued
  }

  ghost function ViewOf(db: Db): (r: Reply)
    ensures r.View?
  {
    var r := db.resource;
    var q := |QueuedIds(db)|;
    match r.holder
    case None => View(r.fencingToken, "", 0, None, q)
    case Some(h) => View(r.fencingToken, h.lane, h.priority, Some(h.expiresAt), q)
  }

  /** One locked repository call: the ledger after it and what the caller gets back. */
  ghost function Apply(db: Db, s: Step): (Db, Reply) {
    match s
    case Enqueue(_, _, _, _, _, _) =>
      if !ValidLane(Normalized(s.lane)) then (db, Failed(LaneInvalid))
      else
        var e := Expire(db, s.now);
        if s.id in e.waiters then (e, Failed(DuplicateWaiter))
        else (e.(waiters := e.waiters[s.id := NewWaiter(s)]), Enqueued(s.id))
    case TryAcquire(_, _, _) =>
      var e := Expire(db, s.now);
      if s.id !in e.waiters || e.waiters[s.id].status != Queued || e.waiters[s.id].expiresAt <= s.now
      then (e, NotGranted)
      else if e.waiters[s.id].resourceId != GPU0
      then (db, Failed(ResourceMissing))
      else if e.resource.holder.Some? && e.resource.holder.value.expiresAt > s.now then (e, NotGranted)
      else if !IsFirst(e.waiters, s.id, s.now) then (e, NotGranted)
      else Grant(e, s)
    case Heartbeat(now, lease, seconds) =>
      if Matches(db, lease)
      then (db.(resource :=
                  db.resource.(holder := Some(db.resource.holder.value.(expiresAt := now + ClampLease(seconds))))),
            Flag(true))
      else (db, Flag(false))
    case Release(_, lease) =>
      if Matches(db, lease)
      then (SetStatus(db.(resource := db.resource.(holder := None)), lease.waiterId, Acquired, Completed), Flag(true))
      else (db, Flag(false))
    case CancelWaiter(_, id) => (SetStatus(db, id, Queued, Cancelled), Done)
    case Snapshot(now) => var e := Expire(db, now); (e, ViewOf(e))
  }

  ghost function Next(db: Db, s: Step): Db { Apply(db, s).0 }

  ghost function ReplyOf(db: Db, s: Step): Reply { Apply(db, s).1 }

  /** The waiter granted by a step, if any, as a list. */
  ghost function GrantOf(db: Db, s: Step): seq<WaiterId> {
    if ReplyOf(db, s).Granted? then [s.id] else []
  }

  // ---- runs: any interleaving of calls by any number of clients ----

  ghost function Run(db: Db, steps: seq<Step>): Db
    decreases |steps|
  {
    if steps == [] then db else Run(Next(db, steps[0]), steps[1..])
  }

  ghost function Grants(db: Db, steps: seq<Step>): seq<WaiterId>
    decreases |steps|
  {
    if steps == [] then [] else GrantOf(db, steps[0]) + Grants(Next(db, steps[0]), steps[1..])
  }

  lemma {:induction false} RunAppend(db: Db, a: seq<Step>, b: seq<Step>)
    ensures Run(db, a + b) == Run(Run(db, a), b)
    ensures Grants(db, a + b) == Grants(db, a) + Grants(Run(db, a), b)
    decreases |a|
  {
    hide Apply;
    if a == [] {
      assert a + b == b;
    } else {
      assert (a + b)[1..] == a[1..] + b;
      RunAppend(Next(db, a[0]), a[1..], b);
    }
  }
}
