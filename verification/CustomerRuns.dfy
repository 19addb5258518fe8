/**
 Runs of the customer protocol: drivers reserve, discover, claim, POST and finish at any
 speed, crash at any point, and may hold arbitrarily old snapshots.
 One clock measures both the database lease and the driver's preflight budget.
 */
module CustomerRuns {
  import opened Options
  import opened CustomerModel

  /** A reservation; the driver's discovery runs after it. */
  datatype Read = Read(view: Opening, at: nat, time: int)

  /** How an attempt ended, and whether its own transaction retired its fence. */
  datatype End = End(time: int, step: nat, retired: bool)

  /** One granted claim: the reservation it rests on, its driver's budget, its lease and its POST. */
  datatype Attempt = Attempt(
    fence: Id,
    read: Read,
    budgetStart: int,
    claimAt: int,
    expiry: int,
    dispatched: Option<int>,
    ended: Option<End>)

  datatype Track = Track(openings: seq<Read>, attempts: seq<Attempt>)

  datatype World = World(db: Db, lease: Lease, clock: int, step: nat, tracks: map<Id, Track>)

  datatype Event =
    | Wait(seconds: nat)
    | ReserveSlot(account: Id, user: Id)
    | ClaimSend(cid: Id, read: nat, user: Id, budgetStart: int)
    | Dispatch(cid: Id, attempt: nat)
    | EndAttempt(cid: Id, attempt: nat)
    | EndUnsent(cid: Id, attempt: nat)
    | SaveReceipt(expected: Opening, providerId: int)
    | PointRead(expected: Opening, providerId: int, outerKey: Option<Id>)
    | AmbiguousRead(expected: Opening)
    | EscalateOverdue(cid: Id, instant: int)

  function Start(lease: Lease): World {
    World(EMPTY_DB, lease, 0, 0, map[])
  }

  function TrackOf(w: World, cid: Id): Track {
    if cid in w.tracks then w.tracks[cid] else Track([], [])
  }

  function WithTrack(w: World, db: Db, cid: Id, t: Track): World {
    w.(db := db, step := w.step + 1, tracks := w.tracks[cid := t])
  }

  function WithDb(w: World, db: Db): World {
    w.(db := db, step := w.step + 1)
  }

  /** The snapshot a driver holds while it runs its attempt. */
  function Mine(w: World, cid: Id, a: Attempt): Opening
    requires cid in w.db.customers
  {
    Opening(cid, Some(a.fence), w.db.customers[cid].key, None, None, true)
  }

  predicate Running(w: World, cid: Id, i: nat) {
    cid in w.db.customers && i < |TrackOf(w, cid).attempts| && TrackOf(w, cid).attempts[i].ended.None?
  }

  ghost function AfterReserve(w: World, account: Id, user: Id): World {
    var (db', reply) := Reserve(w.db, account, user);
    if reply.Ok? then
      var cid := reply.value.customer;
      var t := TrackOf(w, cid);
      WithTrack(w, db', cid, t.(openings := t.openings + [Read(reply.value, w.step, w.clock)]))
    else WithDb(w, db')
  }

  /** A driver claims with a reservation made inside its own budget. */
  function AfterClaim(w: World, cid: Id, k: nat, user: Id, budgetStart: int): World {
    var t := TrackOf(w, cid);
    if k >= |t.openings| || budgetStart > t.openings[k].time then WithDb(w, w.db)
    else
      var (db', reply) := Claim(w.db, user, t.openings[k].view, w.clock, w.lease);
      if reply.Ok? && reply.value.mayCreate then
        var a := Attempt(w.db.nextId, t.openings[k], budgetStart, w.clock,
                         w.clock + w.lease.total + w.lease.cleanup, None, None);
        WithTrack(w, db', cid, t.(attempts := t.attempts + [a]))
      else WithDb(w, db')
  }

  /** PreflightBudget.check: a source starts only before the work deadline. */
  predicate BudgetOpen(w: World, a: Attempt) {
    w.clock < a.budgetStart + w.lease.total - w.lease.cleanup
  }

  function AfterDispatch(w: World, cid: Id, i: nat): World {
    var t := TrackOf(w, cid);
    if Running(w, cid, i) && t.attempts[i].dispatched.None? && BudgetOpen(w, t.attempts[i])
    then WithTrack(w, w.db, cid, t.(attempts := t.attempts[i := t.attempts[i].(dispatched := Some(w.clock))]))
    else WithDb(w, w.db)
  }

  /** The transaction `db'` ends attempt `i`. */
  function Ended(w: World, db': Db, cid: Id, i: nat): World
    requires Running(w, cid, i) && cid in db'.customers
  {
    var t := TrackOf(w, cid);
    var retired := db'.customers[cid].fence != w.db.customers[cid].fence;
    WithTrack(w, db', cid, t.(attempts := t.attempts[i := t.attempts[i].(ended := Some(End(w.clock, w.step, retired)))]))
  }

  function AfterEnd(w: World, cid: Id, i: nat): World {
    if Running(w, cid, i)
    then Ended(w, Finish(w.db, Mine(w, cid, TrackOf(w, cid).attempts[i])), cid, i)
    else WithDb(w, w.db)
  }

  /** Only an attempt that sent nothing is released; a refused release leaves it to EndAttempt. */
  function AfterUnsent(w: World, cid: Id, i: nat): World {
    if Running(w, cid, i) && TrackOf(w, cid).attempts[i].dispatched.None? then
      var (db', reply) := Release(w.db, Mine(w, cid, TrackOf(w, cid).attempts[i]));
      if reply.Ok? then Ended(w, db', cid, i) else WithDb(w, w.db)
    else WithDb(w, w.db)
  }

  ghost function Step(w: World, e: Event): World {
    match e
    case Wait(seconds) => w.(clock := w.clock + seconds, step := w.step + 1)
    case ReserveSlot(account, user) => AfterReserve(w, account, user)
    case ClaimSend(cid, k, user, budgetStart) => AfterClaim(w, cid, k, user, budgetStart)
    case Dispatch(cid, i) => AfterDispatch(w, cid, i)
    case EndAttempt(cid, i) => AfterEnd(w, cid, i)
    case EndUnsent(cid, i) => AfterUnsent(w, cid, i)
    case SaveReceipt(expected, providerId) => WithDb(w, Receipt(w.db, expected, providerId).0)
    case PointRead(expected, providerId, outerKey) => WithDb(w, ApplyPoint(w.db, expected, providerId, outerKey).0)
    case AmbiguousRead(expected) => WithDb(w, ApplyAmbiguous(w.db, expected).0)
    case EscalateOverdue(cid, instant) => WithDb(w, Escalate(w.db, cid, instant))
  }

  ghost function Run(w: World, events: seq<Event>): World
    decreases |events|
  {
    if events == [] then w else Run(Step(w, events[0]), events[1..])
  }

  // ----- the invariant -----------------------------------------------------

  /** The column checks of the operation table. */
  predicate ColumnsOk(c: Customer) {
    && c.unknownSince.Some? == c.unknownDeadline.Some?
    && (c.unknownSince.Some? ==> c.unknownDeadline.value == c.unknownSince.value + RECOVERY_WINDOW)
  }

  predicate IdentityOk(c: Customer) {
    && c.bound == c.provider
    && (c.binding == BoundIdentity <==> c.state == OpState.Bound)
    && (c.binding == BoundIdentity ==> c.provider.Some? && c.fence.Some?)
    && (c.binding == Unbound ==> c.provider.None?)
    && (c.binding == IdentityConflict ==> exists r | r in c.reviews :: r != OutcomeUnknown)
    && (c.state in {PossibleSend, Unknown} ==> c.unknownSince.Some?)
    && (c.state == Pending ==> c.unknownSince.None?)
    && ColumnsOk(c)
  }

  /** The attempt can no longer act: it ended, or its lease ran out. */
  predicate Over(a: Attempt, t: int) {
    a.expiry <= t || (a.ended.Some? && a.ended.value.time <= t)
  }

  predicate Retired(a: Attempt) {
    a.ended.Some? && a.ended.value.retired
  }

  predicate AttemptOk(a: Attempt, nextId: Id, clock: int, step: nat, lease: Lease) {
    && a.fence < nextId
    && a.budgetStart <= a.read.time <= a.claimAt <= clock
    && a.read.at < step
    && a.expiry == a.claimAt + lease.total + lease.cleanup
    && (a.ended.Some? ==> a.claimAt <= a.ended.value.time <= clock && a.ended.value.step < step)
    && (a.dispatched.Some? ==>
          && a.claimAt <= a.dispatched.value <= clock
          && a.dispatched.value < a.budgetStart + lease.total - lease.cleanup
          && (a.ended.Some? ==> a.dispatched.value <= a.ended.value.time))
  }

  /** `a` was claimed before `b`. */
  predicate Ordered(a: Attempt, b: Attempt) {
    && a.fence < b.fence && a.claimAt <= b.claimAt
    && Over(a, b.claimAt)
    && (Retired(a) ==> a.ended.value.step < b.read.at)
  }

  predicate AttemptsOk(s: seq<Attempt>, nextId: Id, clock: int, step: nat, lease: Lease) {
    && (forall i :: 0 <= i < |s| ==> AttemptOk(s[i], nextId, clock, step, lease))
    && (forall i, j :: 0 <= i < j < |s| ==> Ordered(s[i], s[j]))
  }

  /** Until the customer is proven, the stored lease is the last attempt's. */
  predicate LeaseOk(c: Customer, s: seq<Attempt>) {
    if s == [] then c.work.None?
    else
      && c.work.Some? && c.work.value.attempts == |s|
      && (c.provider.None? ==>
            && c.work.value.leaseExpires in {None, Some(s[|s| - 1].expiry)}
            && (s[|s| - 1].ended.None? ==> c.work.value.leaseExpires == Some(s[|s| - 1].expiry)))
  }

  /** No reservation older than a retirement carries the current fence. */
  predicate FenceOk(cid: Id, c: Customer, t: Track, nextId: Id, clock: int, step: nat) {
    && (c.fence.Some? ==> c.fence.value < nextId)
    && (forall k :: 0 <= k < |t.openings| ==>
          && t.openings[k].view.customer == cid && t.openings[k].time <= clock && t.openings[k].at < step
          && (t.openings[k].view.fence.Some? ==> t.openings[k].view.fence.value < nextId))
    && (forall k, i | 0 <= k < |t.openings| && 0 <= i < |t.attempts| && t.openings[k].view.fence == c.fence ::
          Retired(t.attempts[i]) ==> t.attempts[i].ended.value.step < t.openings[k].at)
    && (forall i :: 0 <= i < |t.attempts| && c.fence == Some(t.attempts[i].fence) ==> i == |t.attempts| - 1)
  }

  predicate CustomerOk(cid: Id, c: Customer, t: Track, nextId: Id, clock: int, step: nat, lease: Lease) {
    && IdentityOk(c)
    && AttemptsOk(t.attempts, nextId, clock, step, lease)
    && LeaseOk(c, t.attempts)
    && FenceOk(cid, c, t, nextId, clock, step)
  }

  /** The unique constraints: one slot per (account, user), one owner of a provider id per account. */
  predicate Apart(c: Customer, q: Customer) {
    c.account == q.account ==> c.user != q.user && (c.provider.Some? ==> c.provider != q.provider)
  }

  predicate DistinctOk(db: Db) {
    forall p, q | p in db.customers && q in db.customers && p != q :: Apart(db.customers[p], db.customers[q])
  }

  predicate KeysOk(w: World) {
    && w.tracks.Keys <= w.db.customers.Keys
    && (forall cid | cid in w.db.customers :: cid < w.db.nextId)
  }

  predicate TrackedOk(w: World, cid: Id)
    requires cid in w.db.customers
  {
    CustomerOk(cid, w.db.customers[cid], TrackOf(w, cid), w.db.nextId, w.clock, w.step, w.lease)
  }

  predicate Inv(w: World) {
    && w.lease.Valid()
    && KeysOk(w)
    && DistinctOk(w.db)
    && (forall cid | cid in w.db.customers :: TrackedOk(w, cid))
  }

  // ----- frames ------------------------------------------------------------

  lemma Widen(cid: Id, c: Customer, t: Track, nextId: Id, clock: int, step: nat, lease: Lease,
              nextId': Id, clock': int, step': nat)
    requires CustomerOk(cid, c, t, nextId, clock, step, lease)
    requires nextId <= nextId' && clock <= clock' && step <= step'
    ensures CustomerOk(cid, c, t, nextId', clock', step', lease)
  {
  }

  /** One transaction replaces one customer, its track and some new identifiers. */
  lemma PutKeeps(w: World, cid: Id, c: Customer, t: Track, nextId: Id)
    requires Inv(w) && w.db.nextId <= nextId && cid < nextId
    requires CustomerOk(cid, c, t, nextId, w.clock, w.step + 1, w.lease)
    requires forall q | q in w.db.customers && q != cid :: Apart(c, w.db.customers[q]) && Apart(w.db.customers[q], c)
    ensures Inv(WithTrack(w, Db(w.db.customers[cid := c], nextId), cid, t))
  {
    hide CustomerOk, Apart;
    var w' := WithTrack(w, Db(w.db.customers[cid := c], nextId), cid, t);
    forall q | q in w'.db.customers ensures TrackedOk(w', q) {
      if q != cid {
        assert TrackedOk(w, q);
        Widen(q, w.db.customers[q], TrackOf(w, q), w.db.nextId, w.clock, w.step, w.lease, nextId, w.clock, w.step + 1);
      }
    }
  }

  predicate SameOwner(c: Customer, c': Customer) {
    c'.account == c.account && c'.user == c.user && c'.key == c.key
  }

  /** A transaction on an existing customer that leaves its identity or proves an unused one. */
  lemma ChangeKeeps(w: World, cid: Id, c: Customer, t: Track, nextId: Id)
    requires Inv(w) && w.db.nextId <= nextId && cid in w.db.customers
    requires CustomerOk(cid, c, t, nextId, w.clock, w.step + 1, w.lease)
    requires SameOwner(w.db.customers[cid], c)
    requires c.provider == w.db.customers[cid].provider
             || (c.provider.Some? && !TakenElsewhere(w.db, cid, c.provider.value))
    ensures Inv(WithTrack(w, Db(w.db.customers[cid := c], nextId), cid, t))
  {
    hide CustomerOk, TrackedOk;
    forall q | q in w.db.customers && q != cid ensures Apart(c, w.db.customers[q]) && Apart(w.db.customers[q], c) {
      assert Apart(w.db.customers[cid], w.db.customers[q]) && Apart(w.db.customers[q], w.db.customers[cid]);
    }
    PutKeeps(w, cid, c, t, nextId);
  }

  /** As ChangeKeeps, with the reservations and attempts as they were. */
  lemma QuietChangeKeeps(w: World, cid: Id, c: Customer, nextId: Id)
    requires Inv(w) && w.db.nextId <= nextId && cid in w.db.customers
    requires CustomerOk(cid, c, TrackOf(w, cid), nextId, w.clock, w.step + 1, w.lease)
    requires SameOwner(w.db.customers[cid], c)
    requires c.provider == w.db.customers[cid].provider
             || (c.provider.Some? && !TakenElsewhere(w.db, cid, c.provider.value))
    ensures Inv(WithDb(w, Db(w.db.customers[cid := c], nextId)))
  {
    hide CustomerOk, SameOwner, TakenElsewhere;
    var db' := Db(w.db.customers[cid := c], nextId);
    ChangeKeeps(w, cid, c, TrackOf(w, cid), nextId);
    SameTracks(WithTrack(w, db', cid, TrackOf(w, cid)), WithDb(w, db'));
  }

  lemma SameTracks(w: World, w': World)
    requires Inv(w) && w' == w.(tracks := w'.tracks) && w'.tracks.Keys <= w.db.customers.Keys
    requires forall cid :: TrackOf(w', cid) == TrackOf(w, cid)
    ensures Inv(w')
  {
    hide CustomerOk, DistinctOk;
    forall cid | cid in w'.db.customers ensures TrackedOk(w', cid) {
      assert TrackedOk(w, cid);
    }
  }

  lemma WaitKeeps(w: World, seconds: nat)
    requires Inv(w)
    ensures Inv(w.(clock := w.clock + seconds, step := w.step + 1))
  {
    hide CustomerOk, DistinctOk;
    var w' := w.(clock := w.clock + seconds, step := w.step + 1);
    forall cid | cid in w'.db.customers ensures TrackedOk(w', cid) {
      assert TrackedOk(w, cid);
      Widen(cid, w.db.customers[cid], TrackOf(w, cid), w.db.nextId, w.clock, w.step, w.lease,
            w.db.nextId, w'.clock, w'.step);
    }
  }

  lemma IdleKeeps(w: World)
    requires Inv(w)
    ensures Inv(WithDb(w, w.db))
  {
    hide Inv;
    WaitKeeps(w, 0);
  }

  // ----- single customers --------------------------------------------------

  lemma Facts(w: World, cid: Id)
    requires Inv(w) && cid in w.db.customers
    ensures CustomerOk(cid, w.db.customers[cid], TrackOf(w, cid), w.db.nextId, w.clock, w.step, w.lease)
    ensures CustomerOk(cid, w.db.customers[cid], TrackOf(w, cid), w.db.nextId, w.clock, w.step + 1, w.lease)
    ensures cid < w.db.nextId && w.lease.Valid()
  {
    assert TrackedOk(w, cid);
    Widen(cid, w.db.customers[cid], TrackOf(w, cid), w.db.nextId, w.clock, w.step, w.lease,
          w.db.nextId, w.clock, w.step + 1);
  }

  /** Rewrites that keep the lease and either keep the fence or draw a new one. */
  lemma Rewritten(cid: Id, c: Customer, c': Customer, t: Track, nextId: Id, nextId': Id, clock: int, step: nat,
                  lease: Lease)
    requires CustomerOk(cid, c, t, nextId, clock, step, lease)
    requires IdentityOk(c')
    requires c'.work == c.work || (c'.provider.Some? && c'.work.Some? == c.work.Some?
             && (c.work.Some? ==> c'.work.value.attempts == c.work.value.attempts))
    requires c'.provider.None? ==> c.provider.None?
    requires nextId <= nextId' && (c'.fence == c.fence || (c'.fence == Some(nextId) && nextId < nextId'))
    ensures CustomerOk(cid, c', t, nextId', clock, step, lease)
  {
    hide IdentityOk;
  }

  lemma ReviewedOk(c: Customer, r: Review)
    requires IdentityOk(c) && c.binding != BoundIdentity
    ensures IdentityOk(Reviewed(c, r))
  {
    assert c.reviews <= Reviewed(c, r).reviews;
  }

  /** A conflict keeps the recorded identity and leaves an open review that blocks sending. */
  lemma ConflictRecorded(c: Customer, r: Review, fence: Id)
    requires IdentityOk(c) && r != OutcomeUnknown
    ensures var c' := Reviewed(c.(binding := IdentityConflict, fence := Some(fence)), r);
            IdentityOk(c') && c'.provider == c.provider && c'.work == c.work && SameOwner(c, c')
                && c'.fence == Some(fence)
  {
    var c1 := c.(binding := IdentityConflict, fence := Some(fence));
    var c' := Reviewed(c1, r);
    if q :| q in c1.reviews && SameReason(r, q) {
      assert q in c'.reviews && q != OutcomeUnknown;
    } else {
      assert r in c'.reviews;
    }
  }

  // ----- each event --------------------------------------------------------

  lemma ReserveKeeps(w: World, account: Id, user: Id)
    requires Inv(w)
    ensures Inv(AfterReserve(w, account, user))
  {
    hide Inv, CustomerOk, CheckReviews, KeyRecoverable;
    var (db', reply) := Reserve(w.db, account, user);
    if reply.Refused? {
      IdleKeeps(w);
    } else {
      var cid := reply.value.customer;
      var t := TrackOf(w, cid);
      var t' := t.(openings := t.openings + [Read(reply.value, w.step, w.clock)]);
      if cid in w.db.customers {
        Facts(w, cid);
        OpeningAdded(cid, w.db.customers[cid], t, reply.value, w.db.nextId, w.clock, w.step, w.lease);
        ChangeKeeps(w, cid, w.db.customers[cid], t', w.db.nextId);
        assert w.db.customers[cid := w.db.customers[cid]] == w.db.customers;
      } else {
        NewSlot(w, account, user);
      }
    }
  }

  lemma OpeningAdded(cid: Id, c: Customer, t: Track, view: Opening, nextId: Id, clock: int, step: nat, lease: Lease)
    requires CustomerOk(cid, c, t, nextId, clock, step, lease)
    requires view.customer == cid && view.fence == c.fence
    ensures CustomerOk(cid, c, t.(openings := t.openings + [Read(view, step, clock)]), nextId, clock, step + 1, lease)
  {
    hide IdentityOk, LeaseOk;
  }

  lemma NewSlot(w: World, account: Id, user: Id)
    requires Inv(w)
    requires forall q :: !Slot(w.db, account, user, q)
    ensures Inv(AfterReserve(w, account, user))
  {
    hide CustomerOk;
    var cid := w.db.nextId;
    var c := Created(account, user, cid + 1);
    var t := Track([Read(Snapshot(cid, c, true), w.step, w.clock)], []);
    assert TrackOf(w, cid) == Track([], []);
    assert TrackOf(w, cid).openings + [Read(Snapshot(cid, c, true), w.step, w.clock)] == t.openings;
    NewCustomerOk(cid, account, user, w.clock, w.step, w.lease);
    forall q | q in w.db.customers && q != cid ensures Apart(c, w.db.customers[q]) && Apart(w.db.customers[q], c) {
      assert !Slot(w.db, account, user, q);
    }
    PutKeeps(w, cid, c, t, w.db.nextId + 2);
  }

  lemma NewCustomerOk(cid: Id, account: Id, user: Id, clock: int, step: nat, lease: Lease)
    ensures var c := Created(account, user, cid + 1);
            CustomerOk(cid, c, Track([Read(Snapshot(cid, c, true), step, clock)], []), cid + 2, clock, step + 1, lease)
  {
  }

  /** A claim is granted only after every earlier lease, and on a reservation that carries the current fence. */
  lemma GrantKeeps(cid: Id, c: Customer, t: Track, k: nat, budgetStart: int, nextId: Id, clock: int, step: nat,
                   lease: Lease)
    requires CustomerOk(cid, c, t, nextId, clock, step, lease) && lease.Valid()
    requires k < |t.openings| && budgetStart <= t.openings[k].time
    requires SendOpen(c, t.openings[k].view, clock) && AdmissionRefusal(c).None?
    ensures var a := Attempt(nextId, t.openings[k], budgetStart, clock, clock + lease.total + lease.cleanup, None, None);
            CustomerOk(cid, Claimed(c, nextId, clock, lease), t.(attempts := t.attempts + [a]), nextId + 1, clock, step + 1, lease)
  {
    var a := Attempt(nextId, t.openings[k], budgetStart, clock, clock + lease.total + lease.cleanup, None, None);
    assert IdentityOk(Claimed(c, nextId, clock, lease));
    hide IdentityOk, AdmissionRefusal;
    var s := t.attempts + [a];
    forall i | 0 <= i < |t.attempts| ensures Ordered(t.attempts[i], a) {
      if i < |t.attempts| - 1 {
        assert Ordered(t.attempts[i], t.attempts[|t.attempts| - 1]);
      }
    }
    assert forall i, j :: 0 <= i < j < |s| ==> Ordered(s[i], s[j]);
  }

  lemma ClaimKeeps(w: World, cid: Id, k: nat, user: Id, budgetStart: int)
    requires Inv(w)
    ensures Inv(AfterClaim(w, cid, k, user, budgetStart))
  {
    hide Inv, CustomerOk, AdmissionRefusal, SendOpen, SameOwner;
    var t := TrackOf(w, cid);
    if k < |t.openings| && budgetStart <= t.openings[k].time {
      OpeningsOf(w, cid, k);
      var (db', reply) := Claim(w.db, user, t.openings[k].view, w.clock, w.lease);
      if reply.Ok? && reply.value.mayCreate {
        var c := w.db.customers[cid];
        Facts(w, cid);
        Narrow(w, cid);
        GrantKeeps(cid, c, t, k, budgetStart, w.db.nextId, w.clock, w.step, w.lease);
        var a := Attempt(w.db.nextId, t.openings[k], budgetStart, w.clock, w.clock + w.lease.total + w.lease.cleanup, None, None);
        SameOwnerClaimed(c, w.db.nextId, w.clock, w.lease);
        ChangeKeeps(w, cid, Claimed(c, w.db.nextId, w.clock, w.lease), t.(attempts := t.attempts + [a]), w.db.nextId + 1);
      } else {
        IdleKeeps(w);
      }
    } else {
      IdleKeeps(w);
    }
  }

  lemma Narrow(w: World, cid: Id)
    requires Inv(w) && cid in w.db.customers
    ensures TrackedOk(w, cid)
  {
  }

  lemma OpeningsOf(w: World, cid: Id, k: nat)
    requires Inv(w) && k < |TrackOf(w, cid).openings|
    ensures cid in w.db.customers && TrackOf(w, cid).openings[k].view.customer == cid
  {
    assert cid in w.tracks;
    assert TrackedOk(w, cid);
  }

  lemma DispatchKeeps(w: World, cid: Id, i: nat)
    requires Inv(w)
    ensures Inv(AfterDispatch(w, cid, i))
  {
    hide Inv, CustomerOk, SameOwner;
    var t := TrackOf(w, cid);
    if Running(w, cid, i) && t.attempts[i].dispatched.None? && BudgetOpen(w, t.attempts[i]) {
      var c := w.db.customers[cid];
      Facts(w, cid);
      Dispatched(cid, c, t, i, w.db.nextId, w.clock, w.step + 1, w.lease);
      SameOwnerSelf(c);
      ChangeKeeps(w, cid, c, t.(attempts := t.attempts[i := t.attempts[i].(dispatched := Some(w.clock))]), w.db.nextId);
      assert w.db.customers[cid := c] == w.db.customers;
    } else {
      IdleKeeps(w);
    }
  }

  lemma Dispatched(cid: Id, c: Customer, t: Track, i: nat, nextId: Id, clock: int, step: nat, lease: Lease)
    requires CustomerOk(cid, c, t, nextId, clock, step, lease)
    requires i < |t.attempts| && t.attempts[i].ended.None?
    requires clock < t.attempts[i].budgetStart + lease.total - lease.cleanup
    ensures CustomerOk(cid, c, t.(attempts := t.attempts[i := t.attempts[i].(dispatched := Some(clock))]),
                       nextId, clock, step, lease)
  {
    hide IdentityOk;
    AttemptReplaced(t.attempts, i, t.attempts[i].(dispatched := Some(clock)), nextId, clock, step, lease);
  }

  /** An attempt that keeps its claim, and can only become more finished, keeps the order of attempts. */
  lemma AttemptReplaced(s: seq<Attempt>, i: nat, a: Attempt, nextId: Id, clock: int, step: nat, lease: Lease)
    requires AttemptsOk(s, nextId, clock, step, lease) && i < |s|
    requires AttemptOk(a, nextId, clock, step, lease)
    requires a == s[i].(ended := a.ended, dispatched := a.dispatched)
    requires a.ended == s[i].ended || (s[i].ended.None? && (i == |s| - 1 || !Retired(a)))
    ensures AttemptsOk(s[i := a], nextId, clock, step, lease)
  {
    hide AttemptOk;
    var s' := s[i := a];
    forall p, q | 0 <= p < q < |s'| ensures Ordered(s'[p], s'[q]) {
      assert Ordered(s[p], s[q]);
    }
  }

  function Ending(t: Track, i: nat, clock: int, step: nat, retired: bool): Track
    requires i < |t.attempts|
  {
    t.(attempts := t.attempts[i := t.attempts[i].(ended := Some(End(clock, step, retired)))])
  }

  /** An end that clears the lease, if it was this attempt's, and may retire the fence this attempt owned. */
  lemma EndedOk(cid: Id, c: Customer, c': Customer, t: Track, i: nat, nextId: Id, nextId': Id, clock: int, step: nat,
                lease: Lease)
    requires CustomerOk(cid, c, t, nextId, clock, step, lease) && IdentityOk(c')
    requires i < |t.attempts| && t.attempts[i].ended.None? && nextId <= nextId'
    requires c'.provider == c.provider && c'.work.Some? == c.work.Some?
    requires c.work.Some? ==> c'.work.value.attempts == c.work.value.attempts
                              && c'.work.value.leaseExpires in {None, c.work.value.leaseExpires}
    requires c'.work == c.work || c.fence == Some(t.attempts[i].fence)
    requires c'.fence == c.fence
        || (c'.fence == Some(nextId) && nextId < nextId' && c.fence == Some(t.attempts[i].fence))
    ensures CustomerOk(cid, c', Ending(t, i, clock, step, c'.fence != c.fence), nextId', clock, step + 1, lease)
  {
    hide IdentityOk, AttemptOk;
    var a := t.attempts[i].(ended := Some(End(clock, step, c'.fence != c.fence)));
    assert AttemptOk(t.attempts[i], nextId, clock, step, lease);
    EndedAttempt(t.attempts[i], a, nextId, nextId', clock, step, lease);
    AttemptsWiden(t.attempts, nextId, nextId', clock, step, lease);
    AttemptReplaced(t.attempts, i, a, nextId', clock, step + 1, lease);
  }

  lemma EndedAttempt(a: Attempt, a': Attempt, nextId: Id, nextId': Id, clock: int, step: nat, lease: Lease)
    requires AttemptOk(a, nextId, clock, step, lease) && nextId <= nextId'
    requires a'.ended.Some? && a'.ended.value.time == clock && a'.ended.value.step == step
        && a' == a.(ended := a'.ended)
    ensures AttemptOk(a', nextId', clock, step + 1, lease)
  {
  }

  lemma AttemptsWiden(s: seq<Attempt>, nextId: Id, nextId': Id, clock: int, step: nat, lease: Lease)
    requires AttemptsOk(s, nextId, clock, step, lease) && nextId <= nextId'
    ensures AttemptsOk(s, nextId', clock, step + 1, lease)
  {
  }

  lemma FinishedOk(c: Customer, fence: Id)
    requires IdentityOk(c)
    ensures IdentityOk(Finished(c, fence)) && SameOwner(c, Finished(c, fence))
  {
  }

  lemma EndKeeps(w: World, cid: Id, i: nat)
    requires Inv(w)
    ensures Inv(AfterEnd(w, cid, i))
  {
    hide Inv, SameOwner, AttemptsOk, LeaseOk, FenceOk, IdentityOk;
    if Running(w, cid, i) {
      var t := TrackOf(w, cid);
      var c := w.db.customers[cid];
      var db' := Finish(w.db, Mine(w, cid, t.attempts[i]));
      var c' := db'.customers[cid];
      Facts(w, cid);
      FinishedOk(c, w.db.nextId);
      SameOwnerSelf(c);
      EndedOk(cid, c, c', t, i, w.db.nextId, db'.nextId, w.clock, w.step, w.lease);
      ChangeKeeps(w, cid, c', Ending(t, i, w.clock, w.step, c'.fence != c.fence), db'.nextId);
      assert w.db.customers[cid := c'] == db'.customers;
    } else {
      IdleKeeps(w);
    }
  }

  lemma SameOwnerSelf(c: Customer)
    ensures SameOwner(c, c)
  {
  }

  lemma UnsentKeeps(w: World, cid: Id, i: nat)
    requires Inv(w)
    ensures Inv(AfterUnsent(w, cid, i))
  {
    hide Inv, SameOwner, AttemptsOk, LeaseOk, FenceOk;
    if Running(w, cid, i) && TrackOf(w, cid).attempts[i].dispatched.None?
       && Release(w.db, Mine(w, cid, TrackOf(w, cid).attempts[i])).1.Ok? {
      var t := TrackOf(w, cid);
      var c := w.db.customers[cid];
      var c' := Released(c, w.db.nextId);
      Facts(w, cid);
      assert SameOwner(c, c') by { SameOwnerReleased(c, w.db.nextId); }
      EndedOk(cid, c, c', t, i, w.db.nextId, w.db.nextId + 1, w.clock, w.step, w.lease);
      FenceBelow(w, cid);
      ChangeKeeps(w, cid, c', Ending(t, i, w.clock, w.step, true), w.db.nextId + 1);
    } else {
      IdleKeeps(w);
    }
  }

  lemma SameOwnerClaimed(c: Customer, fence: Id, now: int, lease: Lease)
    ensures SameOwner(c, Claimed(c, fence, now, lease))
  {
  }

  lemma SameOwnerReleased(c: Customer, fence: Id)
    ensures SameOwner(c, Released(c, fence))
  {
  }

  lemma FenceBelow(w: World, cid: Id)
    requires Inv(w) && cid in w.db.customers
    ensures w.db.customers[cid].fence != Some(w.db.nextId)
  {
    assert TrackedOk(w, cid);
  }

  lemma RewriteKeeps(w: World, cid: Id, c': Customer, nextId: Id)
    requires Inv(w) && cid in w.db.customers && w.db.nextId <= nextId && IdentityOk(c')
    requires SameOwner(w.db.customers[cid], c')
    requires var c := w.db.customers[cid];
             && (c'.work == c.work || (c'.provider.Some? && c'.work.Some? == c.work.Some?
                 && (c.work.Some? ==> c'.work.value.attempts == c.work.value.attempts)))
             && (c'.fence == c.fence || (c'.fence == Some(w.db.nextId) && w.db.nextId < nextId))
             && (c'.provider == c.provider || (c'.provider.Some? && !TakenElsewhere(w.db, cid, c'.provider.value)))
    requires c'.provider.None? ==> w.db.customers[cid].provider.None?
    ensures Inv(WithDb(w, Db(w.db.customers[cid := c'], nextId)))
  {
    hide Inv, SameOwner, AttemptsOk, LeaseOk, FenceOk, IdentityOk, CustomerOk, TakenElsewhere;
    Facts(w, cid);
    Rewritten(cid, w.db.customers[cid], c', TrackOf(w, cid), w.db.nextId, nextId, w.clock, w.step + 1, w.lease);
    QuietChangeKeeps(w, cid, c', nextId);
  }

  lemma IdentityOf(w: World, cid: Id)
    requires Inv(w) && cid in w.db.customers
    ensures IdentityOk(w.db.customers[cid])
  {
    assert TrackedOk(w, cid);
  }

  lemma ReceiptKeeps(w: World, expected: Opening, providerId: int)
    requires Inv(w)
    ensures Inv(WithDb(w, Receipt(w.db, expected, providerId).0))
  {
    hide Inv, TakenElsewhere;
    if Receipt(w.db, expected, providerId).1.Ok? {
      var c := w.db.customers[expected.customer];
      IdentityOf(w, expected.customer);
      RewriteKeeps(w, expected.customer, c.(receipt := Some(providerId)), w.db.nextId);
    } else {
      IdleKeeps(w);
    }
  }

  lemma EscalateKeeps(w: World, cid: Id, instant: int)
    requires Inv(w)
    ensures Inv(WithDb(w, CustomerModel.Escalate(w.db, cid, instant)))
  {
    hide Inv, TakenElsewhere;
    if CustomerModel.Escalate(w.db, cid, instant) != w.db {
      IdentityOf(w, cid);
      ReviewedOk(w.db.customers[cid], OutcomeUnknown);
      RewriteKeeps(w, cid, Reviewed(w.db.customers[cid], OutcomeUnknown), w.db.nextId);
    } else {
      IdleKeeps(w);
    }
  }

  lemma ConflictKeeps(w: World, cid: Id, r: Review)
    requires Inv(w) && cid in w.db.customers && r != OutcomeUnknown
    ensures Inv(WithDb(w, Put(w.db, cid, Reviewed(w.db.customers[cid].(binding := IdentityConflict, fence := Some(w.db.nextId)), r), 1)))
  {
    hide Inv, TakenElsewhere, Reviewed, IdentityOk, SameOwner;
    IdentityOf(w, cid);
    ConflictRecorded(w.db.customers[cid], r, w.db.nextId);
    var c' := Reviewed(w.db.customers[cid].(binding := IdentityConflict, fence := Some(w.db.nextId)), r);
    RewriteKeeps(w, cid, c', w.db.nextId + 1);
  }

  lemma AmbiguousKeeps(w: World, expected: Opening)
    requires Inv(w)
    ensures Inv(WithDb(w, ApplyAmbiguous(w.db, expected).0))
  {
    hide Inv, Reviewed, RecoveryRefusal;
    if ReadRefusal(w.db, expected).Some? {
      IdleKeeps(w);
    } else {
      ConflictKeeps(w, expected.customer, ConflictingIdentity);
    }
  }

  lemma ProvenOk(c: Customer, providerId: int, fence: Id)
    requires IdentityOk(c)
    ensures IdentityOk(Proven(c, providerId, fence)) && SameOwner(c, Proven(c, providerId, fence))
  {
  }

  lemma PointKeeps(w: World, expected: Opening, providerId: int, outerKey: Option<Id>)
    requires Inv(w)
    ensures Inv(WithDb(w, ApplyPoint(w.db, expected, providerId, outerKey).0))
  {
    hide Inv, Reviewed, RecoveryRefusal, TakenElsewhere, IdentityOk, SameOwner;
    var db' := ApplyPoint(w.db, expected, providerId, outerKey).0;
    if db' == w.db {
      IdleKeeps(w);
    } else {
      var cid := expected.customer;
      var c := w.db.customers[cid];
      if outerKey != Some(c.key) || c.provider !in {None, Some(providerId)} {
        ConflictKeeps(w, cid, if c.binding in {BoundIdentity, IdentityConflict} && c.provider == c.bound == Some(providerId)
                              then KeyMismatch(c.bound) else ConflictingIdentity);
      } else if TakenElsewhere(w.db, cid, providerId) {
        ConflictKeeps(w, cid, ProviderIdTaken);
      } else {
        IdentityOf(w, cid);
        ProvenOk(c, providerId, w.db.nextId);
        RewriteKeeps(w, cid, Proven(c, providerId, w.db.nextId), w.db.nextId + 1);
      }
    }
  }

  // ----- runs --------------------------------------------------------------

  lemma StepKeeps(w: World, e: Event)
    requires Inv(w)
    ensures Inv(Step(w, e))
  {
    hide Inv, AfterReserve, AfterClaim, AfterDispatch, AfterEnd, AfterUnsent, Receipt, ApplyPoint, ApplyAmbiguous,
      CustomerModel.Escalate;
    match e
    case Wait(seconds) => WaitKeeps(w, seconds);
    case ReserveSlot(account, user) => ReserveKeeps(w, account, user);
    case ClaimSend(cid, k, user, budgetStart) => ClaimKeeps(w, cid, k, user, budgetStart);
    case Dispatch(cid, i) => DispatchKeeps(w, cid, i);
    case EndAttempt(cid, i) => EndKeeps(w, cid, i);
    case EndUnsent(cid, i) => UnsentKeeps(w, cid, i);
    case SaveReceipt(expected, providerId) => ReceiptKeeps(w, expected, providerId);
    case PointRead(expected, providerId, outerKey) => PointKeeps(w, expected, providerId, outerKey);
    case AmbiguousRead(expected) => AmbiguousKeeps(w, expected);
    case EscalateOverdue(cid, instant) => EscalateKeeps(w, cid, instant);
  }

  lemma {:induction false} RunKeeps(w: World, events: seq<Event>)
    requires Inv(w)
    ensures Inv(Run(w, events))
    decreases |events|
  {
    hide Inv, Step;
    if events != [] {
      StepKeeps(w, events[0]);
      RunKeeps(Step(w, events[0]), events[1..]);
    }
  }

  lemma ReachableInv(lease: Lease, events: seq<Event>)
    requires lease.Valid()
    ensures Inv(Run(Start(lease), events))
  {
    hide Run;
    RunKeeps(Start(lease), events);
  }
}
