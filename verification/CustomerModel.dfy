/**
 Customer create protocol: one permanent customer slot and create operation per (account, user).
 A CREATE may be repeated, but only under a fence, a finite send lease and a fresh discovery.
 Every function below is one locked transaction.
 */
module CustomerModel {
  import opened Options

  type Id = nat

  const RECOVERY_WINDOW := 7200  // two hours, in seconds

  datatype Binding = Unbound | BoundIdentity | IdentityConflict

  datatype OpState = Pending | PossibleSend | Unknown | Bound | ManualReview

  /** Open review cases by reason; the key mismatch records the id that had been proven. */
  datatype Review = OutcomeUnknown | KeyMismatch(provenId: Option<int>) | ConflictingIdentity | ProviderIdTaken

  datatype Work = Work(done: bool, attempts: nat, leaseOwner: Option<Id>, leaseExpires: Option<int>)

  datatype Customer = Customer(
    account: Id,
    user: Id,
    key: Id,                      // billing_customer_key, sent as the provider's outer id
    provider: Option<int>,
    binding: Binding,
    state: OpState,
    fence: Option<Id>,
    unknownSince: Option<int>,
    unknownDeadline: Option<int>,
    receipt: Option<int>,
    bound: Option<int>,           // bound_external_object_id of the operation
    work: Option<Work>,
    reviews: set<Review>)

  datatype Db = Db(customers: map<Id, Customer>, nextId: Id)

  const EMPTY_DB := Db(map[], 0)

  /** CustomerOpen, as a driver keeps it between transactions. */
  datatype Opening = Opening(customer: Id, fence: Option<Id>, key: Id, provider: Option<int>, receipt: Option<int>, mayCreate: bool)

  datatype Lease = Lease(total: int, cleanup: int) {
    predicate Valid() {
      0 < cleanup < total
    }
  }

  datatype Refusal = ConnectionConflict | CustomerConflict | ReviewOpen | CustomerPending | IdentityUnproven

  datatype Reply<+T> = Ok(value: T) | Refused(reason: Refusal)

  function Snapshot(cid: Id, c: Customer, mayCreate: bool): Opening {
    Opening(cid, c.fence, c.key, c.provider, c.receipt, mayCreate)
  }

  function Put(db: Db, cid: Id, c: Customer, ids: nat): Db {
    Db(db.customers[cid := c], db.nextId + ids)
  }

  // ----- review gates ------------------------------------------------------

  predicate KeyRecoverable(c: Customer) {
    && (exists r | r in c.reviews :: r.KeyMismatch?)
    && c.provider.Some? && c.bound == c.provider && c.state == ManualReview
    && (forall r | r in c.reviews && r.KeyMismatch? :: r.provenId == c.provider)
  }

  function CheckReviews(c: Customer, allowKeyRecovery: bool): Option<Refusal> {
    var blocked := exists r | r in c.reviews :: r != OutcomeUnknown && !(allowKeyRecovery && r.KeyMismatch?);
    if c.binding == IdentityConflict && (!allowKeyRecovery || blocked) then Some(CustomerConflict)
    else if blocked then Some(ReviewOpen)
    else None
  }

  function AdmissionRefusal(c: Customer): Option<Refusal> {
    CheckReviews(c, false)
  }

  function RecoveryRefusal(c: Customer): Option<Refusal> {
    CheckReviews(c, KeyRecoverable(c))
  }

  predicate SameReason(r: Review, q: Review) {
    match r
    case KeyMismatch(_) => q.KeyMismatch?
    case _ => q == r
  }

  function Reviewed(c: Customer, r: Review): Customer {
    c.(state := ManualReview,
       reviews := if exists q | q in c.reviews :: SameReason(r, q) then c.reviews else c.reviews + {r})
  }

  // ----- transactions ------------------------------------------------------

  ghost predicate Slot(db: Db, account: Id, user: Id, cid: Id) {
    cid in db.customers && db.customers[cid].account == account && db.customers[cid].user == user
  }

  function Created(account: Id, user: Id, key: Id): Customer {
    Customer(account, user, key, None, Unbound, Pending, None, None, None, None, None, None, {})
  }

  /** reserve_customer_in_transaction once the account is proven. */
  ghost function Reserve(db: Db, account: Id, user: Id): (Db, Reply<Opening>) {
    if cid :| Slot(db, account, user, cid) then
      var c := db.customers[cid];
      (db, if RecoveryRefusal(c).Some? then Refused(RecoveryRefusal(c).value)
           else Ok(Snapshot(cid, c, c.state == Pending)))
    else
      var cid := db.nextId;
      var c := Created(account, user, cid + 1);
      (Put(db, cid, c, 2), Ok(Snapshot(cid, c, true)))
  }

  predicate SendOpen(c: Customer, expected: Opening, now: int) {
    && c.provider.None? && c.receipt.None?
    && c.fence == expected.fence
    && !(c.work.Some? && c.work.value.leaseExpires.Some? && c.work.value.leaseExpires.value > now)
  }

  function Claimed(c: Customer, fence: Id, now: int, lease: Lease): Customer {
    c.(fence := Some(fence),
       state := PossibleSend,
       unknownSince := Some(now),
       unknownDeadline := Some(now + RECOVERY_WINDOW),
       work := Some(Work(false, (if c.work.Some? then c.work.value.attempts else 0) + 1,
                         Some(fence), Some(now + lease.total + lease.cleanup))))
  }

  /** claim_customer_send: the only step whose reply permits a POST. */
  function Claim(db: Db, user: Id, expected: Opening, now: int, lease: Lease): (Db, Reply<Opening>) {
    var cid := expected.customer;
    if cid !in db.customers || db.customers[cid].user != user || db.customers[cid].key != expected.key
    then (db, Refused(CustomerConflict))
    else
      var c := db.customers[cid];
      if AdmissionRefusal(c).Some? then (db, Refused(AdmissionRefusal(c).value))
      else if !SendOpen(c, expected, now) then (db, Ok(Snapshot(cid, c, false)))
      else
        var c' := Claimed(c, db.nextId, now, lease);
        (Put(db, cid, c', 1), Ok(Snapshot(cid, c', true)))
  }

  predicate OwnsFence(c: Customer, expected: Opening) {
    expected.fence.Some? && c.fence == expected.fence
  }

  const MAX_PROVIDER_ID := 100000000000000000000  // twenty decimal digits

  /** record_customer_receipt: keep the POST candidate. */
  function Receipt(db: Db, expected: Opening, providerId: int): (Db, Reply<()>) {
    var cid := expected.customer;
    if !(0 < providerId < MAX_PROVIDER_ID) then (db, Refused(IdentityUnproven))
    else if cid !in db.customers || !expected.mayCreate || !OwnsFence(db.customers[cid], expected)
       || db.customers[cid].state !in {PossibleSend, Unknown, ManualReview} || db.customers[cid].key != expected.key
    then (db, Refused(CustomerPending))
    else if db.customers[cid].receipt !in {None, Some(providerId)} then (db, Refused(CustomerConflict))
    else (Put(db, cid, db.customers[cid].(receipt := Some(providerId)), 0), Ok(()))
  }

  function LeaseCleared(work: Option<Work>, done: bool): Option<Work> {
    if work.Some? then Some(work.value.(leaseOwner := None, leaseExpires := None, done := done || work.value.done)) else None
  }

  function Released(c: Customer, fence: Id): Customer {
    c.(state := Pending, fence := Some(fence), unknownSince := None, unknownDeadline := None,
       work := LeaseCleared(c.work, true))
  }

  /** release_unsent_claim: a proven unsent attempt resets its own claim. */
  function Release(db: Db, expected: Opening): (Db, Reply<()>) {
    var cid := expected.customer;
    if cid !in db.customers || !expected.mayCreate || !OwnsFence(db.customers[cid], expected)
       || db.customers[cid].key != expected.key || db.customers[cid].provider.Some?
       || db.customers[cid].state != PossibleSend || db.customers[cid].receipt.Some?
    then (db, Refused(CustomerPending))
    else (Put(db, cid, Released(db.customers[cid], db.nextId), 1), Ok(()))
  }

  /** The end of an attempt replaces the fence only while its send is the recorded open question. */
  predicate Retires(c: Customer) {
    c.state == PossibleSend && c.provider.None?
  }

  function Finished(c: Customer, fence: Id): Customer {
    var c1 := if c.work.Some? && c.fence.Some? && c.work.value.leaseOwner == c.fence
              then c.(work := LeaseCleared(c.work, false)) else c;
    if Retires(c) then c1.(state := Unknown, fence := Some(fence)) else c1
  }

  /** finish_customer_attempt: a completed attempt gives up its lease and retires its fence. */
  function Finish(db: Db, expected: Opening): Db {
    var cid := expected.customer;
    if cid !in db.customers || !OwnsFence(db.customers[cid], expected) then db
    else Put(db, cid, Finished(db.customers[cid], db.nextId), if Retires(db.customers[cid]) then 1 else 0)
  }

  predicate TakenElsewhere(db: Db, cid: Id, providerId: int)
    requires cid in db.customers
  {
    exists q | q in db.customers ::
      q != cid && db.customers[q].account == db.customers[cid].account && db.customers[q].provider == Some(providerId)
  }

  /** record_customer_conflict. */
  function Conflicted(c: Customer, providerId: Option<int>, fence: Id): Customer {
    var originalId := providerId.Some? && c.binding in {BoundIdentity, IdentityConflict}
                      && c.provider == c.bound == providerId;
    Reviewed(c.(binding := IdentityConflict, fence := Some(fence)),
             if originalId then KeyMismatch(c.bound) else ConflictingIdentity)
  }

  function Proven(c: Customer, providerId: int, fence: Id): Customer {
    var alreadyBound := c.binding == BoundIdentity && c.provider == Some(providerId) && c.state == Bound;
    c.(provider := Some(providerId), binding := BoundIdentity, state := Bound, bound := Some(providerId),
       fence := if alreadyBound then c.fence else Some(fence),
       work := LeaseCleared(c.work, true), reviews := {})
  }

  function ReadRefusal(db: Db, expected: Opening): Option<Refusal> {
    var cid := expected.customer;
    if cid !in db.customers || db.customers[cid].fence != expected.fence then Some(CustomerPending)
    else if db.customers[cid].key != expected.key then Some(CustomerConflict)
    else RecoveryRefusal(db.customers[cid])
  }

  /** apply_customer_read with an ambiguous discovery. */
  function ApplyAmbiguous(db: Db, expected: Opening): (Db, Reply<Opening>) {
    if ReadRefusal(db, expected).Some? then (db, Refused(ReadRefusal(db, expected).value))
    else (Put(db, expected.customer, Conflicted(db.customers[expected.customer], None, db.nextId), 1),
          Refused(CustomerConflict))
  }

  /** apply_customer_read with a point read; an index violation rolls back and records its own conflict. */
  function ApplyPoint(db: Db, expected: Opening, providerId: int, outerKey: Option<Id>): (Db, Reply<Opening>) {
    if ReadRefusal(db, expected).Some? then (db, Refused(ReadRefusal(db, expected).value))
    else if outerKey.None? then (db, Refused(IdentityUnproven))
    else
      var cid := expected.customer;
      var c := db.customers[cid];
      if outerKey != Some(c.key) || c.provider !in {None, Some(providerId)}
      then (Put(db, cid, Conflicted(c, Some(providerId), db.nextId), 1), Refused(CustomerConflict))
      else if TakenElsewhere(db, cid, providerId)
      then (Put(db, cid, Reviewed(c.(binding := IdentityConflict, fence := Some(db.nextId)), ProviderIdTaken), 1),
            Refused(CustomerConflict))
      else
        var c' := Proven(c, providerId, db.nextId);
        (Put(db, cid, c', 1), Ok(Snapshot(cid, c', false)))
  }

  /** One transaction of escalate_overdue_customers. */
  function Escalate(db: Db, cid: Id, instant: int): Db {
    if cid in db.customers && db.customers[cid].state in {PossibleSend, Unknown}
       && db.customers[cid].unknownDeadline.Some? && db.customers[cid].unknownDeadline.value <= instant
    then Put(db, cid, Reviewed(db.customers[cid], OutcomeUnknown), 0)
    else db
  }

  /** recheck_widget_session: the last look before a Widget credential is released. */
  function Recheck(db: Db, user: Id, expected: Opening): Option<Refusal> {
    var cid := expected.customer;
    if cid !in db.customers then Some(CustomerConflict)
    else
      var c := db.customers[cid];
      if c.user != user || c.binding != BoundIdentity || c.provider != expected.provider || c.key != expected.key
         || c.fence != expected.fence || c.state != Bound
      then Some(CustomerConflict)
      else AdmissionRefusal(c)
  }
}
