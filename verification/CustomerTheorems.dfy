/** What every run of the customer protocol guarantees. */
module CustomerTheorems {
  import opened Options
  import opened CustomerModel
  import opened CustomerRuns

  // ----- leases and sends --------------------------------------------------

  /** At any time at most one grant is neither ended nor expired. */
  lemma LeasesNeverOverlap(lease: Lease, events: seq<Event>, cid: Id, i: nat, j: nat)
    requires lease.Valid() && cid in Run(Start(lease), events).db.customers
    requires i < j < |TrackOf(Run(Start(lease), events), cid).attempts|
    ensures var s := TrackOf(Run(Start(lease), events), cid).attempts;
            s[i].fence != s[j].fence && s[i].claimAt <= s[j].claimAt && Over(s[i], s[j].claimAt)
  {
    hide Run;
    ReachableInv(lease, events);
    Attempts(Run(Start(lease), events), cid);
  }

  lemma Attempts(w: World, cid: Id)
    requires Inv(w) && cid in w.db.customers
    ensures AttemptsOk(TrackOf(w, cid).attempts, w.db.nextId, w.clock, w.step, w.lease)
  {
    assert TrackedOk(w, cid);
  }

  lemma {:induction false} LeaseIsFixed(w: World, events: seq<Event>)
    ensures Run(w, events).lease == w.lease
    decreases |events|
  {
    hide Claim, Reserve, Finish, Release, Receipt, ApplyPoint, ApplyAmbiguous, CustomerModel.Escalate;
    if events != [] { LeaseIsFixed(Step(w, events[0]), events[1..]); }
  }

  /** A CREATE leaves inside its own lease with twice the cleanup time to spare, and alone. */
  lemma CreateInsideOwnLease(lease: Lease, events: seq<Event>, cid: Id, i: nat, j: nat)
    requires lease.Valid() && cid in Run(Start(lease), events).db.customers
    requires var s := TrackOf(Run(Start(lease), events), cid).attempts;
             i < |s| && j < |s| && i != j && s[i].dispatched.Some?
    ensures var s := TrackOf(Run(Start(lease), events), cid).attempts;
            var sent := s[i].dispatched.value;
            && s[i].claimAt <= sent && sent + 2 * lease.cleanup < s[i].expiry
            && (s[i].ended.Some? ==> sent <= s[i].ended.value.time)
            && (j < i ==> Over(s[j], sent))
            && (i < j ==> sent <= s[j].claimAt)
  {
    hide Run;
    ReachableInv(lease, events);
    LeaseIsFixed(Start(lease), events);
    var w := Run(Start(lease), events);
    Attempts(w, cid);
    var s := TrackOf(w, cid).attempts;
    assert AttemptOk(s[i], w.db.nextId, w.clock, w.step, w.lease);
    if j < i {
      assert Ordered(s[j], s[i]);
    } else {
      assert Ordered(s[i], s[j]);
    }
  }

  /**
   The discovery before a CREATE is newer than every earlier attempt: it began after that attempt's
   transaction retired its fence, or, when the lease was left to run out, after twice the cleanup time.
   */
  lemma DiscoveryFollowsEarlierAttempts(lease: Lease, events: seq<Event>, cid: Id, i: nat, j: nat)
    requires lease.Valid() && cid in Run(Start(lease), events).db.customers
    requires i < j < |TrackOf(Run(Start(lease), events), cid).attempts|
    ensures var s := TrackOf(Run(Start(lease), events), cid).attempts;
            && (Retired(s[i]) ==> s[i].ended.value.step < s[j].read.at)
            && (s[j].dispatched.Some? && (s[i].ended.None? || s[j].claimAt < s[i].ended.value.time) ==>
                  s[i].claimAt + 2 * lease.cleanup < s[j].read.time)
  {
    hide Run;
    ReachableInv(lease, events);
    LeaseIsFixed(Start(lease), events);
    var w := Run(Start(lease), events);
    Attempts(w, cid);
    var s := TrackOf(w, cid).attempts;
    assert AttemptOk(s[i], w.db.nextId, w.clock, w.step, w.lease)
        && AttemptOk(s[j], w.db.nextId, w.clock, w.step, w.lease);
    assert Ordered(s[i], s[j]);
  }

  /**
   An attempt that ends refuses the snapshots taken while it ran exactly when the operation was still
   in POSSIBLE_SEND; after an overdue review the same snapshot is granted.
   */
  lemma EndRefusesOldSnapshotsExactlyInPossibleSend(db: Db, user: Id, mine: Opening, seen: Opening, now: int,
                      lease: Lease)
    requires mine.customer in db.customers && OwnsFence(db.customers[mine.customer], mine)
    requires var c := db.customers[mine.customer];
             && c.fence.value < db.nextId && c.user == user && AdmissionRefusal(c).None?
             && c.provider.None? && c.receipt.None?
             && c.work.Some? && c.work.value.leaseOwner == c.fence
    requires seen.customer == mine.customer && seen.fence == mine.fence && seen.key == db.customers[mine.customer].key
    ensures var reply := Claim(Finish(db, mine), user, seen, now, lease).1;
            reply.Ok? && (reply.value.mayCreate <==> db.customers[mine.customer].state != PossibleSend)
  {
  }

  const LATE := Lease(10, 2)

  /** Claim, wait out the recovery window, reserve again, end the first attempt, claim on that older reservation. */
  function LateEnd(): seq<Event> {
    [ReserveSlot(1, 1), ClaimSend(0, 0, 1, 0), Wait(RECOVERY_WINDOW), EscalateOverdue(0, RECOVERY_WINDOW),
     ReserveSlot(1, 1), EndAttempt(0, 0), ClaimSend(0, 1, 1, RECOVERY_WINDOW)]
  }

  const NEW_SLOT := Created(1, 1, 1)
  const CLAIMED := Claimed(NEW_SLOT, 2, 0, LATE)
  const OVERDUE := CLAIMED.(state := ManualReview, reviews := {OutcomeUnknown})
  const FIRST_READ := Read(Snapshot(0, NEW_SLOT, true), 0, 0)
  const SECOND_READ := Read(Snapshot(0, OVERDUE, false), 4, RECOVERY_WINDOW)
  const FIRST_ATTEMPT := Attempt(2, FIRST_READ, 0, 0, 12, None, None)

  lemma FirstGrant()
    ensures var w := Step(Step(Start(LATE), ReserveSlot(1, 1)), ClaimSend(0, 0, 1, 0));
            w.db == Db(map[0 := CLAIMED], 3) && w.step == 2 && w.clock == 0 && w.lease == LATE
            && TrackOf(w, 0) == Track([FIRST_READ], [FIRST_ATTEMPT])
  {
    var w1 := Step(Start(LATE), ReserveSlot(1, 1));
    assert !Slot(EMPTY_DB, 1, 1, 0);
    assert w1.db == Db(map[0 := NEW_SLOT], 2);
    assert TrackOf(w1, 0) == Track([FIRST_READ], []);
    var w2 := Step(w1, ClaimSend(0, 0, 1, 0));
    assert w2.db == Db(map[0 := CLAIMED], 3);
    assert TrackOf(w2, 0) == Track([FIRST_READ], [FIRST_ATTEMPT]);
  }

  lemma WindowPasses(w: World)
    requires w.db == Db(map[0 := CLAIMED], 3) && w.step == 2 && w.clock == 0
    ensures Step(Step(w, Wait(RECOVERY_WINDOW)), EscalateOverdue(0, RECOVERY_WINDOW))
            == w.(db := Db(map[0 := OVERDUE], 3), step := 4, clock := RECOVERY_WINDOW)
  {
    assert {} + {OutcomeUnknown} == {OutcomeUnknown};
    assert Reviewed(CLAIMED, OutcomeUnknown) == OVERDUE;
    assert map[0 := CLAIMED][0 := OVERDUE] == map[0 := OVERDUE];
  }

  lemma SecondGrant(w: World)
    requires w.db == Db(map[0 := OVERDUE], 3) && w.step == 5 && w.clock == RECOVERY_WINDOW && w.lease == LATE
    requires TrackOf(w, 0) == Track([FIRST_READ, SECOND_READ], [FIRST_ATTEMPT])
    ensures var s := TrackOf(Step(Step(w, EndAttempt(0, 0)), ClaimSend(0, 1, 1, RECOVERY_WINDOW)), 0).attempts;
            |s| == 2 && s[0].ended == Some(End(RECOVERY_WINDOW, 5, false))
            && s[1].claimAt == RECOVERY_WINDOW && s[1].read == SECOND_READ
  {
    var w6 := Step(w, EndAttempt(0, 0));
    var c := Finished(OVERDUE, 3);
    assert w6.db == Db(map[0 := c], 3);
    var ended := FIRST_ATTEMPT.(ended := Some(End(RECOVERY_WINDOW, 5, false)));
    assert TrackOf(w6, 0) == Track([FIRST_READ, SECOND_READ], [ended]);
    assert AdmissionRefusal(c).None?;
  }

  /**
   A run in which a grant rests on a discovery that began before the previous attempt ended.  It keeps
   an attempt open past the two-hour recovery window, against a budget of seconds, so only a process
   that was suspended for that long and then resumed can act it out.
   */
  lemma LateEndGrantsOnAnOlderSnapshot()
    ensures var s := TrackOf(Run(Start(LATE), LateEnd()), 0).attempts;
            |s| == 2 && s[0].ended.Some? && s[0].ended.value.time <= s[1].claimAt
            && s[1].read.at < s[0].ended.value.step
  {
    hide Step, Run;
    FirstGrant();
    var w2 := Step(Step(Start(LATE), ReserveSlot(1, 1)), ClaimSend(0, 0, 1, 0));
    WindowPasses(w2);
    var w4 := Step(Step(w2, Wait(RECOVERY_WINDOW)), EscalateOverdue(0, RECOVERY_WINDOW));
    ReserveAgain(w4, OVERDUE, FIRST_READ, FIRST_ATTEMPT);
    SecondGrant(Step(w4, ReserveSlot(1, 1)));
    RunOfSeven(Start(LATE), LateEnd());
  }

  lemma ReserveAgain(w: World, c: Customer, r0: Read, a0: Attempt)
    requires w.db == Db(map[0 := c], 3) && w.step == 4 && w.clock == RECOVERY_WINDOW && w.lease == LATE
    requires c.account == 1 && c.user == 1 && c.binding == Unbound && c.reviews == {OutcomeUnknown}
        && c.state == ManualReview
    requires TrackOf(w, 0) == Track([r0], [a0])
    ensures var w' := Step(w, ReserveSlot(1, 1));
            w' == w.(step := 5, tracks := w'.tracks)
            && TrackOf(w', 0) == Track([r0, Read(Snapshot(0, c, false), 4, RECOVERY_WINDOW)], [a0])
  {
    assert Slot(w.db, 1, 1, 0);
    assert RecoveryRefusal(c).None?;
  }

  lemma RunOfSeven(w: World, e: seq<Event>)
    requires |e| == 7
    ensures Run(w, e) == Step(Step(Step(Step(Step(Step(Step(w, e[0]), e[1]), e[2]), e[3]), e[4]), e[5]), e[6])
  {
    hide Step;
    var w2 := Step(Step(w, e[0]), e[1]);
    assert Run(w, e) == Run(w2, e[1..][1..]) && e[1..][1..] == e[2..];
    var w4 := Step(Step(w2, e[2]), e[3]);
    assert Run(w2, e[2..]) == Run(w4, e[2..][1..][1..]) && e[2..][1..][1..] == e[4..];
    var w6 := Step(Step(w4, e[4]), e[5]);
    assert Run(w4, e[4..]) == Run(w6, e[4..][1..][1..]) && e[4..][1..][1..] == e[6..];
    assert Run(w6, e[6..]) == Run(Step(w6, e[6]), e[6..][1..]) && e[6..][1..] == [];
  }

  // ----- write-once identity -----------------------------------------------

  /** How one customer row may change: permanent owner, write-once receipt and provider id, one-way fence. */
  predicate Advances(c: Customer, c': Customer, nextId: Id) {
    && c'.account == c.account && c'.user == c.user && c'.key == c.key
    && (c.receipt.Some? ==> c'.receipt == c.receipt)
    && (c.provider.Some? ==> c'.provider == c.provider)
    && (c'.fence == c.fence || (c'.fence.Some? && nextId <= c'.fence.value))
    && (c'.fence == c.fence && c.binding == BoundIdentity ==> c'.binding == BoundIdentity && c'.provider == c.provider)
  }

  lemma ReviewedFields(c: Customer, r: Review)
    ensures Reviewed(c, r) == c.(state := ManualReview, reviews := Reviewed(c, r).reviews)
  {
  }

  lemma PointAdvances(w: World, expected: Opening, providerId: int, outerKey: Option<Id>, cid: Id)
    requires Inv(w) && cid in w.db.customers && w.db.customers[cid].fence != Some(w.db.nextId)
    ensures DbKept(w.db, ApplyPoint(w.db, expected, providerId, outerKey).0, cid)
  {
    hide Inv, CheckReviews, KeyRecoverable, Reviewed, TakenElsewhere, IdentityOk;
    var q := expected.customer;
    if q in w.db.customers && q == cid {
      var c := w.db.customers[cid];
      var conflicted := c.(binding := IdentityConflict, fence := Some(w.db.nextId));
      ReviewedFields(conflicted, ProviderIdTaken);
      ReviewedFields(conflicted, KeyMismatch(c.bound));
      ReviewedFields(conflicted, ConflictingIdentity);
    }
  }

  lemma KeysOf(w: World)
    requires Inv(w)
    ensures w.db.nextId !in w.db.customers && KeysOk(w)
  {
  }

  ghost predicate Kept(w: World, w': World, cid: Id)
    requires cid in w.db.customers
  {
    && w.db.nextId <= w'.db.nextId
    && cid in w'.db.customers && Advances(w.db.customers[cid], w'.db.customers[cid], w.db.nextId)
    && (w.db.customers[cid].provider.Some? || w.db.customers[cid].receipt.Some? ==>
          |TrackOf(w', cid).attempts| == |TrackOf(w, cid).attempts|)
  }

  lemma ReserveAdvances(w: World, account: Id, user: Id, cid: Id)
    requires w.db.nextId !in w.db.customers && cid in w.db.customers
    ensures Kept(w, AfterReserve(w, account, user), cid)
  {
    hide RecoveryRefusal;
  }

  lemma ClaimAdvances(w: World, q: Id, k: nat, user: Id, budgetStart: int, cid: Id)
    requires cid in w.db.customers
    requires k < |TrackOf(w, q).openings| ==> TrackOf(w, q).openings[k].view.customer == q
    ensures Kept(w, AfterClaim(w, q, k, user, budgetStart), cid)
  {
    hide AdmissionRefusal;
  }

  lemma FinishAdvances(c: Customer, nextId: Id)
    ensures Advances(c, Finished(c, nextId), nextId) && Advances(c, Released(c, nextId), nextId)
  {
  }

  lemma EndAdvances(w: World, q: Id, i: nat, cid: Id)
    requires cid in w.db.customers && w.db.customers[cid].fence != Some(w.db.nextId)
    requires w.db.customers[cid].binding == BoundIdentity ==> w.db.customers[cid].provider.Some?
    ensures Kept(w, AfterEnd(w, q, i), cid) && Kept(w, AfterUnsent(w, q, i), cid)
  {
    hide Advances, Finished, Released, Retires;
    FinishAdvances(w.db.customers[cid], w.db.nextId);
    SameRow(w.db.customers[cid], w.db.nextId);
  }

  lemma StepAdvances(w: World, e: Event, cid: Id)
    requires Inv(w) && cid in w.db.customers
    ensures Kept(w, Step(w, e), cid)
  {
    IdentityOf(w, cid);
    FenceBelow(w, cid);
    KeysOf(w);
    hide Inv, Reviewed, IdentityOk, AfterReserve, AfterClaim, AfterEnd, AfterUnsent, ApplyPoint, RecoveryRefusal, Kept;
    assert w.db.customers[cid].binding == BoundIdentity ==> w.db.customers[cid].provider.Some? by {
      if w.db.customers[cid].binding == BoundIdentity { BoundFacts(w, cid); }
    }
    match e
    case ReserveSlot(account, user) => ReserveAdvances(w, account, user, cid);
    case ClaimSend(q, k, user, budgetStart) =>
      if k < |TrackOf(w, q).openings| { OpeningsOf(w, q, k); }
      ClaimAdvances(w, q, k, user, budgetStart, cid);
    case EndAttempt(q, i) => EndAdvances(w, q, i, cid);
    case EndUnsent(q, i) => EndAdvances(w, q, i, cid);
    case _ => QuietAdvances(w, e, cid);
  }

  lemma BoundFacts(w: World, cid: Id)
    requires Inv(w) && cid in w.db.customers && w.db.customers[cid].binding == BoundIdentity
    ensures w.db.customers[cid].provider.Some? && w.db.customers[cid].state == OpState.Bound
  {
    IdentityOf(w, cid);
  }

  predicate DbKept(db: Db, db': Db, cid: Id)
    requires cid in db.customers
  {
    db.nextId <= db'.nextId && cid in db'.customers && Advances(db.customers[cid], db'.customers[cid], db.nextId)
  }

  lemma ReadAdvances(db: Db, expected: Opening, cid: Id)
    requires cid in db.customers && db.customers[cid].fence != Some(db.nextId)
    ensures DbKept(db, ApplyAmbiguous(db, expected).0, cid)
  {
    hide Reviewed, RecoveryRefusal;
    if expected.customer in db.customers {
      var c := db.customers[expected.customer];
      ReviewedFields(c.(binding := IdentityConflict, fence := Some(db.nextId)), ConflictingIdentity);
    }
  }

  lemma EscalateAdvances(db: Db, q: Id, instant: int, cid: Id)
    requires cid in db.customers && (db.customers[cid].binding == BoundIdentity ==> db.customers[cid].state == OpState.Bound)
    ensures DbKept(db, CustomerModel.Escalate(db, q, instant), cid)
  {
    hide Reviewed;
    if q in db.customers { ReviewedFields(db.customers[q], OutcomeUnknown); }
  }

  lemma ReceiptAdvances(db: Db, expected: Opening, providerId: int, cid: Id)
    requires cid in db.customers
    ensures DbKept(db, Receipt(db, expected, providerId).0, cid)
  {
  }

  lemma DbOnlyKept(w: World, db': Db, cid: Id)
    requires cid in w.db.customers && DbKept(w.db, db', cid)
    ensures Kept(w, WithDb(w, db'), cid)
  {
    hide Advances;
  }

  lemma DispatchAdvances(w: World, q: Id, i: nat, cid: Id)
    requires cid in w.db.customers
    ensures Kept(w, AfterDispatch(w, q, i), cid)
  {
    SameRow(w.db.customers[cid], w.db.nextId);
    hide Advances, BudgetOpen;
  }

  lemma WaitAdvances(w: World, seconds: nat, cid: Id)
    requires cid in w.db.customers
    ensures Kept(w, Step(w, Wait(seconds)), cid)
  {
    SameRow(w.db.customers[cid], w.db.nextId);
    hide Advances;
  }

  /** Events that only read, wait, send, record or review. */
  lemma QuietAdvances(w: World, e: Event, cid: Id)
    requires Inv(w) && cid in w.db.customers && w.db.customers[cid].fence != Some(w.db.nextId)
    requires !e.ReserveSlot? && !e.ClaimSend? && !e.EndAttempt? && !e.EndUnsent?
    ensures Kept(w, Step(w, e), cid)
  {
    if w.db.customers[cid].binding == BoundIdentity { BoundFacts(w, cid); }
    hide Inv, ApplyPoint, ApplyAmbiguous, Receipt, CustomerModel.Escalate, DbKept, Kept, AfterDispatch;
    match e
    case Wait(seconds) => WaitAdvances(w, seconds, cid);
    case Dispatch(q, i) => DispatchAdvances(w, q, i, cid);
    case PointRead(expected, providerId, outerKey) =>
      PointAdvances(w, expected, providerId, outerKey, cid);
      DbOnlyKept(w, ApplyPoint(w.db, expected, providerId, outerKey).0, cid);
    case AmbiguousRead(expected) =>
      ReadAdvances(w.db, expected, cid);
      DbOnlyKept(w, ApplyAmbiguous(w.db, expected).0, cid);
    case EscalateOverdue(q, instant) =>
      EscalateAdvances(w.db, q, instant, cid);
      DbOnlyKept(w, CustomerModel.Escalate(w.db, q, instant), cid);
    case SaveReceipt(expected, providerId) =>
      ReceiptAdvances(w.db, expected, providerId, cid);
      DbOnlyKept(w, Receipt(w.db, expected, providerId).0, cid);
  }

  lemma SameRow(c: Customer, nextId: Id)
    ensures Advances(c, c, nextId)
  {
  }

  lemma AdvancesChain(c: Customer, d: Customer, e: Customer, n: Id, m: Id)
    requires Advances(c, d, n) && Advances(d, e, m) && n <= m && (c.fence.Some? ==> c.fence.value < n)
    ensures Advances(c, e, n)
  {
  }

  lemma FenceKnown(w: World, cid: Id)
    requires Inv(w) && cid in w.db.customers
    ensures w.db.customers[cid].fence.Some? ==> w.db.customers[cid].fence.value < w.db.nextId
  {
    assert TrackedOk(w, cid);
  }

  /** Receipt and provider id are write-once over every run, and either one ends all granting. */
  lemma {:induction false} IdentityIsWriteOnce(w: World, events: seq<Event>, cid: Id)
    requires Inv(w) && cid in w.db.customers
    ensures var w' := Run(w, events);
            var c := w.db.customers[cid];
            cid in w'.db.customers && Advances(c, w'.db.customers[cid], w.db.nextId) && w.db.nextId <= w'.db.nextId
            && (c.provider.Some? || c.receipt.Some? ==>
                  |TrackOf(w', cid).attempts| == |TrackOf(w, cid).attempts|)
    decreases |events|
  {
    hide Inv, Step, Advances;
    var c := w.db.customers[cid];
    SameRow(c, w.db.nextId);
    if events != [] {
      var w1 := Step(w, events[0]);
      StepAdvances(w, events[0], cid);
      StepKeeps(w, events[0]);
      IdentityIsWriteOnce(w1, events[1..], cid);
      FenceKnown(w, cid);
      AdvancesChain(c, w1.db.customers[cid], Run(w, events).db.customers[cid], w.db.nextId, w1.db.nextId);
      AdvancesFacts(c, w1.db.customers[cid], w.db.nextId);
    }
  }

  lemma AdvancesFacts(c: Customer, c': Customer, nextId: Id)
    requires Advances(c, c', nextId)
    ensures (c.provider.Some? ==> c'.provider == c.provider) && (c.receipt.Some? ==> c'.receipt == c.receipt)
    ensures c'.key == c.key && c'.user == c.user && c'.account == c.account
    ensures c'.fence == c.fence || (c'.fence.Some? && nextId <= c'.fence.value)
    ensures c'.fence == c.fence && c.binding == BoundIdentity ==>
              c'.binding == BoundIdentity && c'.provider == c.provider
  {
  }

  // ----- the proven identity -----------------------------------------------

  /** In every reachable state BOUND means the proven id, and no id has two owners in one account. */
  lemma BoundIdentityIsProven(lease: Lease, events: seq<Event>, p: Id, q: Id)
    requires lease.Valid()
    requires var db := Run(Start(lease), events).db; p in db.customers && q in db.customers
    ensures var c := Run(Start(lease), events).db.customers[p];
            var d := Run(Start(lease), events).db.customers[q];
            && (c.binding == BoundIdentity <==> c.state == OpState.Bound)
            && (c.binding == BoundIdentity ==> c.provider.Some? && c.bound == c.provider)
            && (c.binding == Unbound ==> c.provider.None? && c.bound.None?)
            && (c.account == d.account && (c.user == d.user || (c.provider.Some? && c.provider == d.provider)) ==>
                  p == q)
            && ColumnsOk(c)
            && (if TrackOf(Run(Start(lease), events), p).attempts == [] then c.work.None?
                else c.work.Some? && c.work.value.attempts == |TrackOf(Run(Start(lease), events), p).attempts|)
  {
    hide Run;
    ReachableInv(lease, events);
    var w := Run(Start(lease), events);
    IdentityOf(w, p);
    Narrow(w, p);
    DistinctOf(w);
    if p != q {
      assert Apart(w.db.customers[p], w.db.customers[q]);
    }
  }

  lemma DistinctOf(w: World)
    requires Inv(w)
    ensures DistinctOk(w.db)
  {
  }

  /** Open reviews that a point read of the original id may close. */
  predicate ClosedByOriginalRead(c: Customer, providerId: int) {
    && (exists r | r in c.reviews :: r.KeyMismatch?)
    && (forall r | r in c.reviews :: r == OutcomeUnknown || r == KeyMismatch(Some(providerId)))
  }

  /** Of a conflicted customer, recovery admits exactly the original id with closable reviews. */
  lemma RecoveryAdmitsExactly(c: Customer, providerId: int)
    requires IdentityOk(c) && c.binding == IdentityConflict && c.provider == Some(providerId)
    ensures RecoveryRefusal(c).None? <==> c.state == ManualReview && ClosedByOriginalRead(c, providerId)
  {
  }

  lemma NotTakenElsewhere(w: World, cid: Id, providerId: int)
    requires Inv(w) && cid in w.db.customers && w.db.customers[cid].provider == Some(providerId)
    ensures !TakenElsewhere(w.db, cid, providerId)
  {
    DistinctOf(w);
    hide Inv;
    forall q | q in w.db.customers && q != cid && w.db.customers[q].account == w.db.customers[cid].account
      ensures w.db.customers[q].provider != Some(providerId)
    {
      assert Apart(w.db.customers[cid], w.db.customers[q]);
    }
  }

  lemma UnprovenRefused(c: Customer)
    requires c.binding == IdentityConflict && c.provider.None?
    ensures RecoveryRefusal(c).Some?
  {
  }

  /**
   An identity conflict is lifted exactly by a current point read that gives the original key for the
   id proven before, when every open review is an unknown outcome or the exact key mismatch.
   */
  lemma ConflictIsLiftedExactlyByOriginalRead(w: World, expected: Opening, providerId: int, outerKey: Option<Id>)
    requires Inv(w) && expected.customer in w.db.customers
    requires w.db.customers[expected.customer].binding == IdentityConflict
    ensures var c := w.db.customers[expected.customer];
            var db' := ApplyPoint(w.db, expected, providerId, outerKey).0;
            expected.customer in db'.customers
            && (db'.customers[expected.customer].binding == BoundIdentity
                <==> && expected.fence == c.fence && expected.key == c.key && outerKey == Some(c.key)
                     && c.provider == Some(providerId) && c.state == ManualReview
                         && ClosedByOriginalRead(c, providerId))
  {
    hide Inv, Reviewed, RecoveryRefusal, TakenElsewhere, ClosedByOriginalRead, IdentityOk;
    var cid := expected.customer;
    IdentityOf(w, cid);
    var c := w.db.customers[cid];
    if c.provider == Some(providerId) {
      NotTakenElsewhere(w, cid, providerId);
      RecoveryAdmitsExactly(c, providerId);
    } else if c.provider.None? {
      UnprovenRefused(c);
    }
    var conflicted := c.(binding := IdentityConflict, fence := Some(w.db.nextId));
    ReviewedFields(conflicted, ProviderIdTaken);
    ReviewedFields(conflicted, KeyMismatch(c.bound));
    ReviewedFields(conflicted, ConflictingIdentity);
  }

  predicate InConflict(db: Db, cid: Id) {
    cid in db.customers && db.customers[cid].binding == IdentityConflict
  }

  predicate NoNewGrant(w: World, w': World, cid: Id) {
    |TrackOf(w', cid).attempts| == |TrackOf(w, cid).attempts|
  }

  lemma ClaimUnderConflict(w: World, q: Id, k: nat, user: Id, budgetStart: int, cid: Id)
    requires InConflict(w.db, cid)
    requires k < |TrackOf(w, q).openings| ==> TrackOf(w, q).openings[k].view.customer == q
    ensures InConflict(AfterClaim(w, q, k, user, budgetStart).db, cid)
            && NoNewGrant(w, AfterClaim(w, q, k, user, budgetStart), cid)
  {
    assert AdmissionRefusal(w.db.customers[cid]).Some?;
    hide AdmissionRefusal;
  }

  lemma DriverUnderConflict(w: World, e: Event, cid: Id)
    requires InConflict(w.db, cid) && w.db.nextId !in w.db.customers
    requires e.ReserveSlot? || e.EndAttempt? || e.EndUnsent? || e.Dispatch? || e.Wait?
    ensures InConflict(Step(w, e).db, cid) && NoNewGrant(w, Step(w, e), cid)
  {
    hide RecoveryRefusal;
  }

  lemma RecordUnderConflict(w: World, e: Event, cid: Id)
    requires InConflict(w.db, cid)
    requires e.SaveReceipt? || e.AmbiguousRead? || e.EscalateOverdue? || (e.PointRead? && e.expected.customer != cid)
    ensures InConflict(Step(w, e).db, cid) && NoNewGrant(w, Step(w, e), cid)
  {
    hide RecoveryRefusal, Reviewed, TakenElsewhere;
    ReviewedFields(w.db.customers[cid].(binding := IdentityConflict, fence := Some(w.db.nextId)), ConflictingIdentity);
    ReviewedFields(w.db.customers[cid], OutcomeUnknown);
  }

  lemma ConflictStandsFrom(w: World, e: Event, cid: Id)
    requires Inv(w) && InConflict(w.db, cid)
    requires !e.PointRead? || e.expected.customer != cid
    ensures InConflict(Step(w, e).db, cid) && NoNewGrant(w, Step(w, e), cid)
  {
    KeysOf(w);
    hide Inv, AfterClaim, InConflict, NoNewGrant;
    match e
    case ClaimSend(q, k, user, budgetStart) =>
      if k < |TrackOf(w, q).openings| { OpeningsOf(w, q, k); }
      ClaimUnderConflict(w, q, k, user, budgetStart, cid);
    case SaveReceipt(_, _) => RecordUnderConflict(w, e, cid);
    case AmbiguousRead(_) => RecordUnderConflict(w, e, cid);
    case EscalateOverdue(_, _) => RecordUnderConflict(w, e, cid);
    case PointRead(_, _, _) => RecordUnderConflict(w, e, cid);
    case _ => DriverUnderConflict(w, e, cid);
  }

  /** No other event lifts an identity conflict, and none grants while it stands. */
  lemma ConflictOtherwiseStands(lease: Lease, events: seq<Event>, e: Event, cid: Id)
    requires lease.Valid() && InConflict(Run(Start(lease), events).db, cid)
    requires !e.PointRead? || e.expected.customer != cid
    ensures var w := Run(Start(lease), events);
            InConflict(Step(w, e).db, cid) && NoNewGrant(w, Step(w, e), cid)
  {
    hide Inv, Run, Step, InConflict, NoNewGrant;
    ReachableInv(lease, events);
    ConflictStandsFrom(Run(Start(lease), events), e, cid);
  }

  // ----- the Widget recheck ------------------------------------------------

  lemma {:induction false} FenceNeverReturns(w: World, events: seq<Event>, cid: Id, fence: Id)
    requires Inv(w) && cid in w.db.customers && fence < w.db.nextId && w.db.customers[cid].fence != Some(fence)
    ensures var w' := Run(w, events); cid in w'.db.customers && w'.db.customers[cid].fence != Some(fence)
  {
    hide Inv, Run;
    IdentityIsWriteOnce(w, events, cid);
  }

  /** The first events of a run are its first event and the first of the others. */
  lemma FirstOfRun(w: World, events: seq<Event>, k: nat)
    requires 0 < k <= |events|
    ensures Run(w, events[..k]) == Run(Step(w, events[0]), events[1..][..k - 1])
  {
    hide Step;
    var front, rest := events[..k], events[1..][..k - 1];
    assert front[1..] == rest by {
      assert |front[1..]| == |rest|;
      forall i | 0 <= i < k - 1 ensures front[1..][i] == rest[i] {
        assert front[1..][i] == events[i + 1];
      }
    }
  }

  /** While the fence of a proven customer stands, no conflict has been recorded, not even one since lifted. */
  lemma {:induction false} FenceWitnessesIdentity(w: World, events: seq<Event>, k: nat, cid: Id)
    requires Inv(w) && cid in w.db.customers && k <= |events|
    requires w.db.customers[cid].binding == BoundIdentity && w.db.customers[cid].fence.Some?
    requires cid in Run(w, events).db.customers && Run(w, events).db.customers[cid].fence == w.db.customers[cid].fence
    ensures var c := w.db.customers[cid];
            var between := Run(w, events[..k]).db;
            cid in between.customers && between.customers[cid].binding == BoundIdentity
            && between.customers[cid].provider == c.provider
    decreases |events|
  {
    hide Inv, Step, Advances;
    var c := w.db.customers[cid];
    if k == 0 {
      assert events[..0] == [];
    } else {
      var w1 := Step(w, events[0]);
      StepAdvances(w, events[0], cid);
      StepKeeps(w, events[0]);
      FenceKnown(w, cid);
      AdvancesFacts(c, w1.db.customers[cid], w.db.nextId);
      if w1.db.customers[cid].fence != c.fence {
        FenceNeverReturns(w1, events[1..], cid, c.fence.value);
      }
      FenceWitnessesIdentity(w1, events[1..], k - 1, cid);
      FirstOfRun(w, events, k);
    }
  }

  /**
   A credential is released only for the identity that was proven: if the recheck after any run accepts
   the snapshot returned by a point read, the customer was BOUND to that id throughout.
   */
  lemma RecheckCoversTheWholeRun(w: World, read: Opening, providerId: int, outerKey: Option<Id>, events: seq<Event>,
                      k: nat, user: Id)
    requires Inv(w) && ApplyPoint(w.db, read, providerId, outerKey).1.Ok? && k <= |events|
    requires var (db', reply) := ApplyPoint(w.db, read, providerId, outerKey);
             Recheck(Run(WithDb(w, db'), events).db, user, reply.value).None?
    ensures var (db', reply) := ApplyPoint(w.db, read, providerId, outerKey);
            var between := Run(WithDb(w, db'), events[..k]).db;
            reply.value.customer in between.customers
            && between.customers[reply.value.customer].binding == BoundIdentity
            && between.customers[reply.value.customer].provider == Some(providerId)
  {
    hide Inv, Run, AdmissionRefusal, RecoveryRefusal, TakenElsewhere;
    PointKeeps(w, read, providerId, outerKey);
    var (db', reply) := ApplyPoint(w.db, read, providerId, outerKey);
    var w1 := WithDb(w, db');
    IdentityOf(w1, reply.value.customer);
    FenceWitnessesIdentity(w1, events, k, reply.value.customer);
  }
}
