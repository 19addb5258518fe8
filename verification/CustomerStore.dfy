/**
 The transactions of customers.py as they are written: the locked rows are changed step by step and
 stored at the commit.  Each is proved against the step function of CustomerModel.
 */
module CustomerStore {
  import opened Options
  import opened CustomerModel

  class Store {
    var customers: map<Id, Customer>
    var nextId: Id

    function Rows(): Db
      reads this
    {
      Db(customers, nextId)
    }

    constructor ()
      ensures Rows() == EMPTY_DB
    {
      customers, nextId := map[], 0;
    }

    /** uuid4: a value no row carries yet. */
    method NewId() returns (id: Id)
      modifies this
      ensures id == old(nextId) && Rows() == old(Rows()).(nextId := id + 1)
    {
      id := nextId;
      nextId := nextId + 1;
    }

    /** reserve_customer_in_transaction; the table has one row per (account, user). */
    method ReserveCustomer(account: Id, user: Id) returns (reply: Reply<Opening>)
      requires forall p, q | p in customers && q in customers ::
                 customers[p].account == customers[q].account && customers[p].user == customers[q].user ==> p == q
      modifies this
      ensures (Rows(), reply) == Reserve(old(Rows()), account, user)
    {
      var slots := set q | q in customers && customers[q].account == account && customers[q].user == user;
      assert forall q :: Slot(Rows(), account, user, q) <==> q in slots;
      var cid: Id;
      if slots == {} {
        cid := NewId();
        var key := NewId();
        customers := customers[cid := Created(account, user, key)];
      } else {
        cid :| cid in slots;
        assert Slot(Rows(), account, user, cid);
      }
      var customer := customers[cid];
      var refusal := RecoveryRefusal(customer);
      if refusal.Some? {
        return Refused(refusal.value);
      }
      return Ok(Snapshot(cid, customer, customer.state == Pending));
    }

    method ClaimCustomerSend(user: Id, expected: Opening, now: int, lease: Lease) returns (reply: Reply<Opening>)
      modifies this
      ensures (Rows(), reply) == Claim(old(Rows()), user, expected, now, lease)
    {
      hide AdmissionRefusal;
      var cid := expected.customer;
      if cid !in customers || customers[cid].user != user || customers[cid].key != expected.key {
        return Refused(CustomerConflict);
      }
      var customer := customers[cid];
      var refusal := AdmissionRefusal(customer);
      if refusal.Some? {
        return Refused(refusal.value);
      }
      if customer.provider.Some? || customer.receipt.Some? {
        return Ok(Snapshot(cid, customer, false));
      }
      if customer.fence != expected.fence {
        return Ok(Snapshot(cid, customer, false));
      }
      var work := customer.work;
      if work.Some? && work.value.leaseExpires.Some? && work.value.leaseExpires.value > now {
        return Ok(Snapshot(cid, customer, false));
      }
      var fence := NewId();
      customer := customer.(fence := Some(fence), state := PossibleSend);
      customer := customer.(unknownSince := Some(now), unknownDeadline := Some(now + RECOVERY_WINDOW));
      if work.None? {
        work := Some(Work(false, 0, None, None));
      } else {
        work := Some(work.value.(done := false));
      }
      work := Some(work.value.(attempts := work.value.attempts + 1));
      work := Some(work.value.(leaseOwner := Some(fence), leaseExpires := Some(now + lease.total + lease.cleanup)));
      customer := customer.(work := work);
      customers := customers[cid := customer];
      return Ok(Snapshot(cid, customer, true));
    }

    method RecordCustomerReceipt(expected: Opening, providerId: int) returns (reply: Reply<()>)
      modifies this
      ensures (Rows(), reply) == Receipt(old(Rows()), expected, providerId)
    {
      if providerId <= 0 || MAX_PROVIDER_ID <= providerId {
        return Refused(IdentityUnproven);
      }
      var cid := expected.customer;
      if cid !in customers || !expected.mayCreate || expected.fence.None?
         || customers[cid].fence != expected.fence
         || customers[cid].state !in {PossibleSend, Unknown, ManualReview}
         || customers[cid].key != expected.key
      {
        return Refused(CustomerPending);
      }
      var customer := customers[cid];
      if customer.receipt !in {None, Some(providerId)} {
        return Refused(CustomerConflict);
      }
      customers := customers[cid := customer.(receipt := Some(providerId))];
      return Ok(());
    }

    method ReleaseUnsentClaim(expected: Opening) returns (reply: Reply<()>)
      modifies this
      ensures (Rows(), reply) == Release(old(Rows()), expected)
    {
      var cid := expected.customer;
      if cid !in customers || !expected.mayCreate || expected.fence.None?
         || customers[cid].key != expected.key || customers[cid].provider.Some?
         || customers[cid].fence != expected.fence || customers[cid].state != PossibleSend
         || customers[cid].receipt.Some?
      {
        return Refused(CustomerPending);
      }
      var customer := customers[cid];
      var fence := NewId();
      customer := customer.(state := Pending, fence := Some(fence));
      customer := customer.(unknownSince := None, unknownDeadline := None);
      if customer.work.Some? {
        customer := customer.(work := Some(customer.work.value.(done := true, leaseOwner := None, leaseExpires := None)));
      }
      customers := customers[cid := customer];
      return Ok(());
    }

    method FinishCustomerAttempt(expected: Opening)
      modifies this
      ensures Rows() == Finish(old(Rows()), expected)
    {
      var cid := expected.customer;
      if cid !in customers || customers[cid].fence != expected.fence || expected.fence.None? {
        return;
      }
      var customer := customers[cid];
      if customer.work.Some? && customer.work.value.leaseOwner == expected.fence {
        customer := customer.(work := Some(customer.work.value.(leaseOwner := None, leaseExpires := None)));
      }
      if customer.state == PossibleSend && customer.provider.None? {
        var fence := NewId();
        customer := customer.(state := Unknown, fence := Some(fence));
      }
      customers := customers[cid := customer];
    }

    /** record_customer_review on the locked row. */
    method RecordCustomerReview(cid: Id, r: Review)
      requires cid in customers
      modifies this
      ensures Rows() == Db(old(customers)[cid := Reviewed(old(customers)[cid], r)], old(nextId))
    {
      var customer := customers[cid];
      if !exists q | q in customer.reviews :: SameReason(r, q) {
        customer := customer.(reviews := customer.reviews + {r});
      }
      customers := customers[cid := customer.(state := ManualReview)];
    }

    /** record_customer_conflict. */
    method RecordCustomerConflict(cid: Id, providerId: Option<int>)
      requires cid in customers
      modifies this
      ensures Rows() == Put(old(Rows()), cid, Conflicted(old(customers)[cid], providerId, old(nextId)), 1)
    {
      hide Reviewed;
      var customer := customers[cid];
      var originalId := providerId.Some? && customer.binding in {BoundIdentity, IdentityConflict}
                        && customer.provider == customer.bound && customer.bound == providerId;
      customer := customer.(binding := IdentityConflict);
      var fence := NewId();
      customer := customer.(fence := Some(fence));
      customers := customers[cid := customer];
      RecordCustomerReview(cid, if originalId then KeyMismatch(customer.bound) else ConflictingIdentity);
      assert old(customers)[cid := customer][cid := customers[cid]] == old(customers)[cid := customers[cid]];
    }

    /** apply_customer_read as its callers use it: an ambiguous search, or one point read. */
    method ApplyCustomerRead(expected: Opening, providerId: int, outerKey: Option<Id>, ambiguous: bool)
      returns (reply: Reply<Opening>)
      modifies this
      ensures (Rows(), reply) == if ambiguous then ApplyAmbiguous(old(Rows()), expected)
                                 else ApplyPoint(old(Rows()), expected, providerId, outerKey)
    {
      hide RecoveryRefusal, Reviewed, TakenElsewhere;
      var cid := expected.customer;
      if cid !in customers || customers[cid].fence != expected.fence {
        return Refused(CustomerPending);
      }
      var customer := customers[cid];
      if customer.key != expected.key {
        return Refused(CustomerConflict);
      }
      var refusal := RecoveryRefusal(customer);
      if refusal.Some? {
        return Refused(refusal.value);
      }
      if !ambiguous && outerKey.None? {
        return Refused(IdentityUnproven);
      }
      if ambiguous || outerKey != Some(customer.key) || customer.provider !in {None, Some(providerId)} {
        RecordCustomerConflict(cid, if ambiguous then None else Some(providerId));
        return Refused(CustomerConflict);
      }
      if TakenElsewhere(Rows(), cid, providerId) {
        // The violated index rolls the binding back; the conflict is a transaction of its own.
        var newFence := NewId();
        customers := customers[cid := customer.(binding := IdentityConflict, fence := Some(newFence))];
        RecordCustomerReview(cid, ProviderIdTaken);
        assert customers == old(customers)[cid := customers[cid]];
        return Refused(CustomerConflict);
      }
      var fence := NewId();
      var alreadyBound := customer.binding == BoundIdentity && customer.provider == Some(providerId)
          && customer.state == Bound;
      customer := customer.(provider := Some(providerId), binding := BoundIdentity);
      customer := customer.(state := Bound, bound := Some(providerId));
      if !alreadyBound {
        customer := customer.(fence := Some(fence));
      }
      if customer.work.Some? {
        customer := customer.(work := Some(customer.work.value.(done := true, leaseOwner := None, leaseExpires := None)));
      }
      customer := customer.(reviews := {});
      customers := customers[cid := customer];
      return Ok(Snapshot(cid, customer, false));
    }

    /** One transaction of escalate_overdue_customers, and whether it counts. */
    method EscalateCustomer(cid: Id, instant: int) returns (due: bool)
      requires cid in customers
      modifies this
      ensures Rows() == Escalate(old(Rows()), cid, instant) && customers.Keys == old(customers.Keys)
      ensures due == Overdue(old(Rows()), cid, instant)
    {
      hide Escalate, Overdue, Reviewed;
      OverdueShape(Rows(), cid, instant);
      var customer := customers[cid];
      due := customer.state in {PossibleSend, Unknown}
             && customer.unknownDeadline.Some? && customer.unknownDeadline.value <= instant;
      if due {
        RecordCustomerReview(cid, OutcomeUnknown);
      }
    }

    /** escalate_overdue_customers over the batch its query returned, one transaction each. */
    method EscalateOverdueCustomers(batch: seq<Id>, instant: int) returns (count: nat)
      requires forall i | 0 <= i < |batch| :: batch[i] in customers
      modifies this
      ensures Rows() == EscalateAll(old(Rows()), batch, instant)
      ensures count == |set cid | cid in batch && Overdue(old(Rows()), cid, instant)|
    {
      hide Escalate, Overdue, OverdueAmong;
      count := 0;
      var i := 0;
      assert batch[..0] == [];
      assert EscalateAll(Rows(), [], instant) == Rows();
      hide EscalateAll;
      OverdueSet(Rows(), [], instant);
      OverdueSet(Rows(), batch, instant);
      while i < |batch|
        invariant 0 <= i <= |batch| && customers.Keys == old(customers.Keys)
        invariant Rows() == EscalateAll(old(Rows()), batch[..i], instant)
        invariant count == |OverdueAmong(old(Rows()), batch[..i], instant)|
      {
        var cid := batch[i];
        EscalateSplits(old(Rows()), batch[..i], cid, instant);
        OverdueSplits(old(Rows()), batch[..i], cid, instant);
        assert batch[..i + 1] == batch[..i] + [cid];
        var due := EscalateCustomer(cid, instant);
        if due {
          count := count + 1;
        }
        i := i + 1;
      }
      assert batch[..|batch|] == batch;
    }
  }

  predicate Overdue(db: Db, cid: Id, instant: int) {
    && cid in db.customers && db.customers[cid].state in {PossibleSend, Unknown}
    && db.customers[cid].unknownDeadline.Some? && db.customers[cid].unknownDeadline.value <= instant
  }

  function EscalateAll(db: Db, batch: seq<Id>, instant: int): Db {
    if batch == [] then db
    else Escalate(EscalateAll(db, batch[..|batch| - 1], instant), batch[|batch| - 1], instant)
  }

  function OverdueAmong(db: Db, batch: seq<Id>, instant: int): set<Id> {
    set cid | cid in batch && Overdue(db, cid, instant)
  }

  lemma OverdueShape(db: Db, cid: Id, instant: int)
    ensures Escalate(db, cid, instant)
            == if Overdue(db, cid, instant) then Put(db, cid, Reviewed(db.customers[cid], OutcomeUnknown), 0) else db
    ensures Overdue(db, cid, instant)
            <==> && cid in db.customers && db.customers[cid].state in {PossibleSend, Unknown}
                 && db.customers[cid].unknownDeadline.Some? && db.customers[cid].unknownDeadline.value <= instant
  {
  }

  lemma EscalateSplits(db: Db, batch: seq<Id>, cid: Id, instant: int)
    ensures EscalateAll(db, batch + [cid], instant) == Escalate(EscalateAll(db, batch, instant), cid, instant)
  {
    assert (batch + [cid])[..|batch|] == batch;
  }

  /** A batch settles each of its overdue customers once, and leaves every other customer as it was. */
  lemma {:induction false} EscalateAllEffect(db: Db, batch: seq<Id>, cid: Id, instant: int)
    requires cid in db.customers
    ensures var db' := EscalateAll(db, batch, instant);
            && db'.nextId == db.nextId && db'.customers.Keys == db.customers.Keys
            && db'.customers[cid] == (if cid in batch && Overdue(db, cid, instant)
                                      then Reviewed(db.customers[cid], OutcomeUnknown) else db.customers[cid])
            && (cid in batch ==> !Overdue(db', cid, instant))
  {
    hide Reviewed;
    if batch != [] {
      var last := batch[|batch| - 1];
      assert batch == batch[..|batch| - 1] + [last];
      EscalateAllEffect(db, batch[..|batch| - 1], cid, instant);
      ReviewedIsSettled(db.customers[cid]);
    }
  }

  lemma ReviewedIsSettled(c: Customer)
    ensures Reviewed(c, OutcomeUnknown).state == ManualReview
  {
  }

  lemma OverdueSplits(db: Db, batch: seq<Id>, cid: Id, instant: int)
    requires cid in db.customers
    ensures Overdue(EscalateAll(db, batch, instant), cid, instant) <==> cid !in batch && Overdue(db, cid, instant)
    ensures |OverdueAmong(db, batch + [cid], instant)|
            == |OverdueAmong(db, batch, instant)| + if Overdue(EscalateAll(db, batch, instant), cid, instant) then 1 else 0
  {
    EscalateAllEffect(db, batch, cid, instant);
    ReviewedIsSettled(db.customers[cid]);
    hide Overdue, EscalateAll, OverdueAmong;
    OverdueCount(db, batch, cid, instant);
  }

  /** An overdue customer is counted once, however often the batch names it. */
  lemma OverdueCount(db: Db, batch: seq<Id>, cid: Id, instant: int)
    ensures |OverdueAmong(db, batch + [cid], instant)|
            == |OverdueAmong(db, batch, instant)| + if cid !in batch && Overdue(db, cid, instant) then 1 else 0
  {
    hide Overdue;
    var before := OverdueAmong(db, batch, instant);
    assert OverdueAmong(db, batch + [cid], instant) == before + if Overdue(db, cid, instant) then {cid} else {};
    if cid in batch && Overdue(db, cid, instant) {
      assert before + {cid} == before;
    }
  }

  lemma OverdueSet(db: Db, batch: seq<Id>, instant: int)
    ensures OverdueAmong(db, batch, instant) == set cid | cid in batch && Overdue(db, cid, instant)
    ensures OverdueAmong(db, [], instant) == {}
  {
    hide Overdue;
  }
}
