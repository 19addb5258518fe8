/**
 What each customer transaction does, by what it means: in every reachable state it has its effect
 exactly under the conditions stated here.
 */
module CustomerOutcomes {
  import opened CustomerModel
  import opened CustomerRuns
  import opened CustomerTheorems
  import opened Options

  /** Whatever is under review, this read may settle it: unknown outcomes, and a key mismatch of the proven id. */
  predicate ReadSettles(c: Customer) {
    forall r | r in c.reviews ::
      r == OutcomeUnknown || (r == KeyMismatch(c.provider) && c.provider.Some? && c.state == ManualReview)
  }

  lemma RecoveryMeans(c: Customer)
    requires IdentityOk(c)
    ensures RecoveryRefusal(c).None? <==> ReadSettles(c)
  {
    if c.binding == IdentityConflict {
      var r :| r in c.reviews && r != OutcomeUnknown;
    }
  }

  lemma AdmissionMeans(c: Customer)
    requires IdentityOk(c)
    ensures AdmissionRefusal(c).None? <==> c.reviews <= {OutcomeUnknown}
  {
    if c.binding == IdentityConflict {
      var r :| r in c.reviews && r != OutcomeUnknown;
    }
    assert c.reviews <= {OutcomeUnknown} <==> forall r | r in c.reviews :: r == OutcomeUnknown;
  }

  /** Nothing but the row of `cid` has changed. */
  predicate OnlyRow(w: World, w': World, cid: Id) {
    && cid in w'.db.customers
    && w'.db.customers.Keys == w.db.customers.Keys
    && forall q | q in w.db.customers && q != cid :: w'.db.customers[q] == w.db.customers[q]
  }

  predicate SameSlot(c: Customer, c': Customer) {
    (c'.account, c'.user, c'.key) == (c.account, c.user, c.key)
  }

  // ----- reads ----------------------------------------------------------------

  /** The read's view is current, and it may settle what is under review. */
  predicate MayRead(w: World, expected: Opening) {
    && expected.customer in w.db.customers
    && var c := w.db.customers[expected.customer];
       c.fence == expected.fence && c.key == expected.key && ReadSettles(c)
  }

  /** Nobody else in the account has been proven to be `providerId`. */
  predicate Unowned(w: World, cid: Id, providerId: int)
    requires cid in w.db.customers
  {
    forall q | q in w.db.customers && q != cid && w.db.customers[q].account == w.db.customers[cid].account ::
      w.db.customers[q].provider != Some(providerId)
  }

  /** The customer is proven to be `providerId`, and every question about it is answered. */
  predicate ProvenAs(c: Customer, c': Customer, providerId: int, fence: Id) {
    && SameSlot(c, c') && c'.receipt == c.receipt
    && c'.binding == BoundIdentity && c'.state == OpState.Bound && c'.provider == c'.bound == Some(providerId)
    && c'.reviews == {}
    && c'.fence == (if c.binding == BoundIdentity then c.fence else Some(fence))
    && c'.work.Some? == c.work.Some?
    && (c.work.Some? ==> c'.work.value.done && c'.work.value.leaseOwner.None? && c'.work.value.leaseExpires.None?)
  }

  /** The identity is in conflict for this reason, behind a new fence, with everything proven before kept. */
  predicate ConflictedFor(c: Customer, c': Customer, reason: Review, fence: Id) {
    && SameSlot(c, c') && (c'.receipt, c'.provider, c'.bound, c'.work) == (c.receipt, c.provider, c.bound, c.work)
    && c'.binding == IdentityConflict && c'.state == ManualReview && c'.fence == Some(fence)
    && c.reviews <= c'.reviews <= c.reviews + {reason}
    && exists r :: r in c'.reviews && SameReason(reason, r)
  }

  lemma ReviewedMeans(c: Customer, reason: Review)
    ensures var c' := Reviewed(c, reason);
            c' == c.(state := ManualReview, reviews := c'.reviews) && c.reviews <= c'.reviews <= c.reviews + {reason}
            && exists r :: r in c'.reviews && SameReason(reason, r)
  {
    var c' := Reviewed(c, reason);
    if q :| q in c.reviews && SameReason(reason, q) {
    } else {
      assert reason in c'.reviews && SameReason(reason, reason);
    }
  }

  /** Why a point read that does not fit is a conflict. */
  function Mismatch(c: Customer, providerId: int, outerKey: Id): Review {
    if outerKey == c.key && c.provider in {None, Some(providerId)} then ProviderIdTaken
    else if c.binding != Unbound && c.provider == Some(providerId) then KeyMismatch(c.provider)
    else ConflictingIdentity
  }

  /**
   In every reachable state a point read proves the customer exactly when its view is current, it may
   settle what is under review, the object carries the customer's own key, no other id was proven before,
   and nobody else in the account has this one.  Any other current read with a key is recorded as a
   conflict; a read without a key, or with an outdated view, changes nothing.
   */
  lemma ProvenExactly(lease: Lease, events: seq<Event>, expected: Opening, providerId: int, outerKey: Option<Id>)
    requires lease.Valid()
    ensures var w := Run(Start(lease), events);
            var w' := Step(w, PointRead(expected, providerId, outerKey));
            var cid := expected.customer;
            if !MayRead(w, expected) || outerKey.None? then w'.db == w.db
            else
              && OnlyRow(w, w', cid)
              && var c, c' := w.db.customers[cid], w'.db.customers[cid];
                 if outerKey == Some(c.key) && c.provider in {None, Some(providerId)} && Unowned(w, cid, providerId)
                 then ProvenAs(c, c', providerId, w.db.nextId)
                 else ConflictedFor(c, c', Mismatch(c, providerId, outerKey.value), w.db.nextId)
  {
    hide Run, Inv, ApplyPoint, ReadSettles, Unowned, ProvenAs, ConflictedFor, OnlyRow, Mismatch;
    ReachableInv(lease, events);
    var w := Run(Start(lease), events);
    if expected.customer in w.db.customers {
      IdentityOf(w, expected.customer);
      RecoveryMeans(w.db.customers[expected.customer]);
    }
    PointMeans(w, expected, providerId, outerKey);
  }

  lemma PointMeans(w: World, expected: Opening, providerId: int, outerKey: Option<Id>)
    requires expected.customer in w.db.customers ==> IdentityOk(w.db.customers[expected.customer])
    requires expected.customer in w.db.customers ==>
      (RecoveryRefusal(w.db.customers[expected.customer]).None? <==> ReadSettles(w.db.customers[expected.customer]))
    ensures var db' := ApplyPoint(w.db, expected, providerId, outerKey).0;
            var w' := WithDb(w, db');
            var cid := expected.customer;
            if !MayRead(w, expected) || outerKey.None? then db' == w.db
            else
              && OnlyRow(w, w', cid)
              && var c, c' := w.db.customers[cid], db'.customers[cid];
                 if outerKey == Some(c.key) && c.provider in {None, Some(providerId)} && Unowned(w, cid, providerId)
                 then ProvenAs(c, c', providerId, w.db.nextId)
                 else ConflictedFor(c, c', Mismatch(c, providerId, outerKey.value), w.db.nextId)
  {
    hide RecoveryRefusal, ReadSettles, Reviewed, ProvenAs, ConflictedFor, IdentityOk, Proven;
    if expected.customer in w.db.customers {
      var c := w.db.customers[expected.customer];
      ProofMeans(c, providerId, w.db.nextId);
      MismatchMeans(c, providerId, w.db.nextId);
      TakenMeans(c, w.db.nextId);
      IdentityFacts(c);
    }
  }

  lemma IdentityFacts(c: Customer)
    requires IdentityOk(c)
    ensures c.bound == c.provider && (c.binding == Unbound ==> c.provider.None?)
    ensures c.binding == BoundIdentity ==> c.state == OpState.Bound && c.provider.Some?
  {
  }

  lemma ProofMeans(c: Customer, providerId: int, fence: Id)
    requires IdentityOk(c)
    ensures c.provider in {None, Some(providerId)} ==> ProvenAs(c, Proven(c, providerId, fence), providerId, fence)
  {
  }

  lemma MismatchMeans(c: Customer, providerId: int, fence: Id)
    requires IdentityOk(c)
    ensures ConflictedFor(c, Conflicted(c, Some(providerId), fence),
                          if c.binding != Unbound && c.provider == Some(providerId) then KeyMismatch(c.provider)
                          else ConflictingIdentity, fence)
  {
    hide Reviewed;
    var conflicted := c.(binding := IdentityConflict, fence := Some(fence));
    ReviewedMeans(conflicted, KeyMismatch(c.bound));
    ReviewedMeans(conflicted, ConflictingIdentity);
  }

  lemma TakenMeans(c: Customer, fence: Id)
    ensures ConflictedFor(c, Reviewed(c.(binding := IdentityConflict, fence := Some(fence)), ProviderIdTaken),
                          ProviderIdTaken, fence)
  {
    hide Reviewed;
    ReviewedMeans(c.(binding := IdentityConflict, fence := Some(fence)), ProviderIdTaken);
  }

  /** In every reachable state an ambiguous search with a current view that may be settled is recorded as a conflict. */
  lemma AmbiguityConflictsExactly(lease: Lease, events: seq<Event>, expected: Opening)
    requires lease.Valid()
    ensures var w := Run(Start(lease), events);
            var w' := Step(w, AmbiguousRead(expected));
            var cid := expected.customer;
            if MayRead(w, expected)
            then OnlyRow(w, w', cid) && ConflictedFor(w.db.customers[cid], w'.db.customers[cid], ConflictingIdentity, w.db.nextId)
            else w'.db == w.db
  {
    hide Run, Inv, ReadSettles, Reviewed, RecoveryRefusal;
    ReachableInv(lease, events);
    var w := Run(Start(lease), events);
    if expected.customer in w.db.customers {
      var c := w.db.customers[expected.customer];
      IdentityOf(w, expected.customer);
      RecoveryMeans(c);
      ReviewedMeans(c.(binding := IdentityConflict, fence := Some(w.db.nextId)), ConflictingIdentity);
    }
  }

  // ----- claims ---------------------------------------------------------------

  /** An earlier send may still be under way. */
  predicate LeaseLive(c: Customer, now: int) {
    c.work.Some? && c.work.value.leaseExpires.Some? && c.work.value.leaseExpires.value > now
  }

  /** What must be true for a driver with this reservation to be allowed a CREATE. */
  predicate MayCreate(w: World, cid: Id, read: Read, user: Id, budgetStart: int) {
    && cid in w.db.customers && budgetStart <= read.time
    && var c := w.db.customers[cid];
       && c.user == user && c.key == read.view.key && c.fence == read.view.fence
       && c.provider.None? && c.receipt.None? && c.reviews <= {OutcomeUnknown} && !LeaseLive(c, w.clock)
  }

  /** The CREATE is permitted for this fence, with a recovery window and a lease from now on. */
  predicate PermittedNow(c: Customer, c': Customer, fence: Id, now: int, lease: Lease) {
    && SameSlot(c, c') && (c'.provider, c'.binding, c'.receipt, c'.bound, c'.reviews) == (c.provider, c.binding, c.receipt, c.bound, c.reviews)
    && c'.state == PossibleSend && c'.fence == Some(fence)
    && c'.unknownSince == Some(now) && c'.unknownDeadline == Some(now + RECOVERY_WINDOW)
    && c'.work.Some? && !c'.work.value.done && c'.work.value.leaseOwner == Some(fence)
    && c'.work.value.leaseExpires == Some(now + lease.total + lease.cleanup)
    && c'.work.value.attempts == (if c.work.Some? then c.work.value.attempts else 0) + 1
  }

  /**
   In every reachable state a claim is granted exactly when the caller owns the customer, its reservation
   carries the current fence and key, no id and no receipt is known, nothing but unknown outcomes is under
   review, and no earlier lease is live.  A claim without a grant changes nothing.
   */
  lemma CreatePermittedExactly(lease: Lease, events: seq<Event>, cid: Id, k: nat, user: Id, budgetStart: int)
    requires lease.Valid() && k < |TrackOf(Run(Start(lease), events), cid).openings|
    ensures var w := Run(Start(lease), events);
            var w' := Step(w, ClaimSend(cid, k, user, budgetStart));
            var t := TrackOf(w, cid);
            if MayCreate(w, cid, t.openings[k], user, budgetStart)
            then && OnlyRow(w, w', cid) && PermittedNow(w.db.customers[cid], w'.db.customers[cid], w.db.nextId, w.clock, lease)
                 && TrackOf(w', cid) == t.(attempts := t.attempts + [Attempt(w.db.nextId, t.openings[k], budgetStart, w.clock,
                                                                            w.clock + lease.total + lease.cleanup, None, None)])
            else w'.db == w.db && TrackOf(w', cid) == t
  {
    hide Run, Inv, AdmissionRefusal;
    ReachableInv(lease, events);
    LeaseIsFixed(Start(lease), events);
    var w := Run(Start(lease), events);
    OpeningsOf(w, cid, k);
    IdentityOf(w, cid);
    AdmissionMeans(w.db.customers[cid]);
    hide IdentityOk;
  }

  // ----- the end of an attempt --------------------------------------------------

  predicate NoLease(c: Customer) {
    c.work.Some? ==> c.work.value.leaseOwner.None? && c.work.value.leaseExpires.None?
  }

  /** A stored lease is the last attempt's. */
  predicate OwnerOk(c: Customer, t: Track) {
    NoLease(c) || (t.attempts != [] && c.work.value.leaseOwner == Some(t.attempts[|t.attempts| - 1].fence))
  }

  predicate OwnersOk(w: World) {
    forall cid | cid in w.db.customers :: OwnerOk(w.db.customers[cid], TrackOf(w, cid))
  }

  /** How a step may change a lease: not at all, by giving it up, or by a new attempt that owns it. */
  predicate LeaseMoves(c: Customer, c': Customer, t: Track, t': Track) {
    || NoLease(c')
    || (c'.work == c.work && |t'.attempts| == |t.attempts|
        && forall i | 0 <= i < |t.attempts| :: t'.attempts[i].fence == t.attempts[i].fence)
    || (c'.work.Some? && t'.attempts != [] && c'.work.value.leaseOwner == Some(t'.attempts[|t'.attempts| - 1].fence))
  }

  lemma LeaseMoved(c: Customer, c': Customer, t: Track, t': Track)
    requires OwnerOk(c, t) && LeaseMoves(c, c', t, t')
    ensures OwnerOk(c', t')
  {
  }

  ghost predicate LeasesMove(w: World, w': World) {
    forall cid | cid in w'.db.customers ::
      if cid in w.db.customers then LeaseMoves(w.db.customers[cid], w'.db.customers[cid], TrackOf(w, cid), TrackOf(w', cid))
      else w'.db.customers[cid].work.None?
  }

  lemma OwnersStay(w: World, w': World)
    requires OwnersOk(w) && LeasesMove(w, w')
    ensures OwnersOk(w')
  {
    hide LeaseMoves, OwnerOk;
    forall cid | cid in w'.db.customers ensures OwnerOk(w'.db.customers[cid], TrackOf(w', cid)) {
      if cid in w.db.customers {
        assert LeaseMoves(w.db.customers[cid], w'.db.customers[cid], TrackOf(w, cid), TrackOf(w', cid));
        LeaseMoved(w.db.customers[cid], w'.db.customers[cid], TrackOf(w, cid), TrackOf(w', cid));
      } else {
        NoLeaseYet(w'.db.customers[cid], TrackOf(w', cid));
      }
    }
  }

  lemma NoLeaseYet(c: Customer, t: Track)
    requires c.work.None?
    ensures OwnerOk(c, t)
  {
  }

  lemma ReserveMoves(w: World, account: Id, user: Id)
    requires w.db.nextId !in w.db.customers
    ensures LeasesMove(w, AfterReserve(w, account, user))
  {
    hide RecoveryRefusal;
  }

  lemma ClaimMoves(w: World, cid: Id, k: nat, user: Id, budgetStart: int)
    requires k < |TrackOf(w, cid).openings| ==> TrackOf(w, cid).openings[k].view.customer == cid
    ensures LeasesMove(w, AfterClaim(w, cid, k, user, budgetStart))
  {
    hide AdmissionRefusal;
  }

  lemma EndMoves(w: World, cid: Id, i: nat)
    ensures LeasesMove(w, AfterEnd(w, cid, i)) && LeasesMove(w, AfterUnsent(w, cid, i))
  {
  }

  lemma DispatchMoves(w: World, cid: Id, i: nat)
    ensures LeasesMove(w, AfterDispatch(w, cid, i))
  {
  }

  lemma RecordMoves(w: World, e: Event)
    requires e.SaveReceipt? || e.EscalateOverdue? || e.AmbiguousRead? || e.PointRead? || e.Wait?
    ensures LeasesMove(w, Step(w, e))
  {
    hide RecoveryRefusal, TakenElsewhere, SameReason;
  }

  lemma StepMoves(w: World, e: Event)
    requires Inv(w)
    ensures LeasesMove(w, Step(w, e))
  {
    KeysOf(w);
    hide Inv, LeasesMove, AfterReserve, AfterClaim, AfterEnd, AfterUnsent, AfterDispatch, Receipt, ApplyPoint,
      ApplyAmbiguous, CustomerModel.Escalate;
    match e
    case ReserveSlot(account, user) => ReserveMoves(w, account, user);
    case ClaimSend(cid, k, user, budgetStart) =>
      if k < |TrackOf(w, cid).openings| { OpeningsOf(w, cid, k); }
      ClaimMoves(w, cid, k, user, budgetStart);
    case Dispatch(cid, i) => DispatchMoves(w, cid, i);
    case EndAttempt(cid, i) => EndMoves(w, cid, i);
    case EndUnsent(cid, i) => EndMoves(w, cid, i);
    case _ => RecordMoves(w, e);
  }

  lemma {:induction false} RunOwners(w: World, events: seq<Event>)
    requires Inv(w) && OwnersOk(w)
    ensures OwnersOk(Run(w, events))
    decreases |events|
  {
    hide Inv, OwnersOk, LeasesMove, Step;
    if events != [] {
      StepKeeps(w, events[0]);
      StepMoves(w, events[0]);
      OwnersStay(w, Step(w, events[0]));
      RunOwners(Step(w, events[0]), events[1..]);
    }
  }

  lemma OwnerOf(lease: Lease, events: seq<Event>, cid: Id)
    requires lease.Valid() && cid in Run(Start(lease), events).db.customers
    ensures var w := Run(Start(lease), events);
            OwnerOk(w.db.customers[cid], TrackOf(w, cid))
  {
    hide Run, OwnerOk;
    StartOk(lease);
    RunOwners(Start(lease), events);
  }

  lemma StartOk(lease: Lease)
    requires lease.Valid()
    ensures Inv(Start(lease)) && OwnersOk(Start(lease))
  {
  }

  /** The attempt's outcome is the recorded open question, so its end leaves it unknown behind a new fence. */
  predicate LeavesUnknown(c: Customer, a: Attempt) {
    c.fence == Some(a.fence) && c.state == PossibleSend && c.provider.None?
  }

  /** The lease is given up; nothing else changes but the state and the fence, as told. */
  predicate GaveUpLease(c: Customer, c': Customer, state: OpState, fence: Option<Id>) {
    && SameSlot(c, c')
    && (c'.provider, c'.binding, c'.receipt, c'.bound, c'.reviews, c'.unknownSince, c'.unknownDeadline)
       == (c.provider, c.binding, c.receipt, c.bound, c.reviews, c.unknownSince, c.unknownDeadline)
    && c'.state == state && c'.fence == fence && NoLease(c')
    && c'.work.Some? == c.work.Some?
    && (c.work.Some? ==> (c'.work.value.done, c'.work.value.attempts) == (c.work.value.done, c.work.value.attempts))
  }

  /** Only the last attempt can have the current fence, and a stored lease is then its own. */
  lemma FenceOwnsLease(lease: Lease, events: seq<Event>, cid: Id, i: nat)
    requires lease.Valid()
    requires var w := Run(Start(lease), events);
             cid in w.db.customers && i < |TrackOf(w, cid).attempts|
             && w.db.customers[cid].fence == Some(TrackOf(w, cid).attempts[i].fence)
    ensures var c := Run(Start(lease), events).db.customers[cid];
            NoLease(c) || c.work.value.leaseOwner == c.fence
  {
    hide Run, Inv;
    ReachableInv(lease, events);
    OwnerOf(lease, events, cid);
    var w := Run(Start(lease), events);
    Facts(w, cid);
  }

  /**
   In every reachable state a running attempt ends on request.  If the current fence is its own it leaves no
   lease behind, and it draws a new fence exactly when its send was the recorded open question; if the fence
   is no longer its own, the customer stays as it is.
   */
  lemma EndedExactly(lease: Lease, events: seq<Event>, cid: Id, i: nat)
    requires lease.Valid()
    ensures var w := Run(Start(lease), events);
            var w' := Step(w, EndAttempt(cid, i));
            var t := TrackOf(w, cid);
            if !Running(w, cid, i) then w'.db == w.db && w'.tracks == w.tracks
            else
              && OnlyRow(w, w', cid)
              && var a, c, c' := t.attempts[i], w.db.customers[cid], w'.db.customers[cid];
                 && TrackOf(w', cid)
                    == t.(attempts := t.attempts[i := a.(ended := Some(End(w.clock, w.step, LeavesUnknown(c, a))))])
                 && (if c.fence != Some(a.fence) then c' == c
                     else if LeavesUnknown(c, a) then GaveUpLease(c, c', Unknown, Some(w.db.nextId))
                     else GaveUpLease(c, c', c.state, c.fence))
  {
    hide Run, Inv, GaveUpLease;
    ReachableInv(lease, events);
    var w := Run(Start(lease), events);
    if Running(w, cid, i) {
      var a, c := TrackOf(w, cid).attempts[i], w.db.customers[cid];
      FenceBelow(w, cid);
      if c.fence == Some(a.fence) {
        FenceOwnsLease(lease, events, cid, i);
        LeaseGivenUp(c, w.db.nextId);
      }
    }
  }

  lemma LeaseGivenUp(c: Customer, fence: Id)
    requires c.fence.Some? && (NoLease(c) || c.work.value.leaseOwner == c.fence)
    ensures if c.state == PossibleSend && c.provider.None? then GaveUpLease(c, Finished(c, fence), Unknown, Some(fence))
            else GaveUpLease(c, Finished(c, fence), c.state, c.fence)
  {
  }

  /** The claim is open again as if it had not been made, behind a new fence. */
  predicate OpenAgain(c: Customer, c': Customer, fence: Id) {
    && SameSlot(c, c') && (c'.provider, c'.binding, c'.receipt, c'.bound, c'.reviews)
                          == (c.provider, c.binding, c.receipt, c.bound, c.reviews)
    && c'.state == Pending && c'.fence == Some(fence) && c'.unknownSince.None? && c'.unknownDeadline.None?
    && c.work.Some? && c'.work == Some(Work(true, c.work.value.attempts, None, None))
  }

  /** In every reachable state an attempt that sent nothing takes its claim back exactly while the claim is untouched. */
  lemma UnsentExactly(lease: Lease, events: seq<Event>, cid: Id, i: nat)
    requires lease.Valid()
    ensures var w := Run(Start(lease), events);
            var w' := Step(w, EndUnsent(cid, i));
            var t := TrackOf(w, cid);
            if Running(w, cid, i) && t.attempts[i].dispatched.None? && LeavesUnknown(w.db.customers[cid], t.attempts[i])
               && w.db.customers[cid].receipt.None?
            then && OnlyRow(w, w', cid)
                 && OpenAgain(w.db.customers[cid], w'.db.customers[cid], w.db.nextId)
                 && TrackOf(w', cid)
                    == t.(attempts := t.attempts[i := t.attempts[i].(ended := Some(End(w.clock, w.step, true)))])
            else w'.db == w.db && w'.tracks == w.tracks
  {
    hide Run, Inv;
    ReachableInv(lease, events);
    var w := Run(Start(lease), events);
    if Running(w, cid, i) {
      FenceBelow(w, cid);
      Facts(w, cid);
      hide AttemptsOk, FenceOk, IdentityOk;
    }
  }

  // ----- receipts, slots, reviews -----------------------------------------------

  /** A candidate is kept, as it was reported, exactly while its claim is open and no other candidate is known. */
  lemma ReceiptKeptExactly(w: World, expected: Opening, providerId: int)
    ensures var w' := Step(w, SaveReceipt(expected, providerId));
            var cid := expected.customer;
            if && 0 < providerId < MAX_PROVIDER_ID && expected.mayCreate && expected.fence.Some? && cid in w.db.customers
               && w.db.customers[cid].fence == expected.fence && w.db.customers[cid].key == expected.key
               && w.db.customers[cid].state != Pending && w.db.customers[cid].state != OpState.Bound
               && w.db.customers[cid].receipt in {None, Some(providerId)}
            then OnlyRow(w, w', cid) && w'.db.customers[cid] == w.db.customers[cid].(receipt := Some(providerId))
            else w'.db == w.db
  {
  }

  /**
   In every reachable state a reservation finds the one slot of its account and user, or creates it with a new
   key.  The reader gets the slot as it stands, unless something under review must stay blocked.
   */
  lemma ReservedExactly(lease: Lease, events: seq<Event>, account: Id, user: Id, cid: Id)
    requires lease.Valid()
    ensures var w := Run(Start(lease), events);
            var w' := Step(w, ReserveSlot(account, user));
            var t := TrackOf(w, cid);
            if Slot(w.db, account, user, cid) then
              var c := w.db.customers[cid];
              && w'.db == w.db && OthersTracks(w, w', cid)
              && TrackOf(w', cid)
                 == (if ReadSettles(c)
                     then t.(openings := t.openings + [Read(Opening(cid, c.fence, c.key, c.provider, c.receipt, c.state == Pending),
                                                            w.step, w.clock)])
                     else t)
            else if (forall q :: !Slot(w.db, account, user, q)) && cid == w.db.nextId then
              && cid !in w.db.customers && w'.db.customers.Keys == w.db.customers.Keys + {cid}
              && (forall q | q in w.db.customers :: w'.db.customers[q] == w.db.customers[q])
              && Slot(w'.db, account, user, cid) && Untouched(w'.db.customers[cid])
              && cid < w'.db.customers[cid].key < w'.db.nextId
              && OthersTracks(w, w', cid)
              && TrackOf(w', cid) == Track([Read(Opening(cid, None, w'.db.customers[cid].key, None, None, true), w.step, w.clock)], [])
            else true
  {
    hide Run, Inv, RecoveryRefusal, ReadSettles;
    ReachableInv(lease, events);
    var w := Run(Start(lease), events);
    KeysOf(w);
    DistinctOf(w);
    if Slot(w.db, account, user, cid) {
      IdentityOf(w, cid);
      RecoveryMeans(w.db.customers[cid]);
    }
  }

  ghost predicate OthersTracks(w: World, w': World, cid: Id) {
    forall q | q != cid :: TrackOf(w', q) == TrackOf(w, q)
  }

  /** A customer nothing has happened to. */
  predicate Untouched(c: Customer) {
    c == Customer(c.account, c.user, c.key, None, Unbound, Pending, None, None, None, None, None, None, {})
  }

  /** In every reachable state an open outcome is put under review exactly once its recovery window is over. */
  lemma EscalatedExactly(lease: Lease, events: seq<Event>, cid: Id, instant: int)
    requires lease.Valid()
    ensures var w := Run(Start(lease), events);
            var w' := Step(w, EscalateOverdue(cid, instant));
            if cid in w.db.customers && w.db.customers[cid].state in {PossibleSend, Unknown}
               && w.db.customers[cid].unknownSince.Some?
               && w.db.customers[cid].unknownSince.value + RECOVERY_WINDOW <= instant
            then OnlyRow(w, w', cid)
                 && w'.db.customers[cid] == w.db.customers[cid].(state := ManualReview,
                                                                reviews := w.db.customers[cid].reviews + {OutcomeUnknown})
            else w'.db == w.db
  {
    hide Run, Inv;
    ReachableInv(lease, events);
    var w := Run(Start(lease), events);
    if cid in w.db.customers {
      IdentityOf(w, cid);
      var c := w.db.customers[cid];
      if OutcomeUnknown in c.reviews { assert c.reviews + {OutcomeUnknown} == c.reviews; }
    }
  }

  /** In every reachable state the last look accepts exactly the proven customer the reader saw, with no blocking review. */
  lemma RecheckAcceptsExactly(lease: Lease, events: seq<Event>, user: Id, expected: Opening)
    requires lease.Valid()
    ensures var db := Run(Start(lease), events).db;
            var cid := expected.customer;
            Recheck(db, user, expected).None?
            <==> cid in db.customers && db.customers[cid].user == user && db.customers[cid].binding == BoundIdentity
                 && db.customers[cid].provider == expected.provider && db.customers[cid].key == expected.key
                 && db.customers[cid].fence == expected.fence && db.customers[cid].reviews <= {OutcomeUnknown}
  {
    hide Run, Inv, AdmissionRefusal;
    ReachableInv(lease, events);
    var w := Run(Start(lease), events);
    if expected.customer in w.db.customers {
      IdentityOf(w, expected.customer);
      AdmissionMeans(w.db.customers[expected.customer]);
    }
  }
}
