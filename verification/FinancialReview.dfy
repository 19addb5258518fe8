/**
 A known binding mismatch is documented to need an audited decision before the operation can be
 bound.  The code checks this only while the intent itself is under review, and a failed read of the
 sibling operation takes the intent out of review.  The promise therefore fails on a short run; it
 holds exactly while the intent state is still manual_review.
 */
module FinancialReview {
  import opened Options
  import opened FinancialKinds
  import opened FinancialModel
  import opened FinancialRuns
  import opened FinancialTheorems

  /** An open case other than the recoverable outcome-unknown one. */
  predicate NeedsAudit(op: Op, kind: Kind) {
    op.state == ManualReview && exists reason | reason in op.openReviews :: reason != OutcomeUnknown(kind)
  }

  /** Every other gate of the binding is open. */
  predicate OtherwiseBindable(db: Db, p: Id, kind: Kind, expected: OpView, providerId: int, observed: bool) {
    && Held(db, p)
    && var row := db.intents[p];
       var op := row.Get(kind);
       && op.fence == expected.fence && op.unknownSince.Some? && op.hint.Some?
       && op.bound in {None, Some(providerId)}
       && (kind.Subscription? ==> row.agreement.state == Bound && observed)
       && (kind.Subscription? && p in db.subs ==>
             db.subs[p].subscription == providerId && Some(db.subs[p].agreement) == row.agreement.bound)
       && !BoundElsewhere(db, p, kind, providerId)
  }

  lemma AuditIsEnforcedExactlyUnderReview(db: Db, p: Id, kind: Kind, expected: OpView, providerId: int,
                                          observed: bool, now: int)
    requires p in db.intents && NeedsAudit(db.intents[p].Get(kind), kind)
    requires OtherwiseBindable(db, p, kind, expected, providerId, observed)
    ensures var (db', reply) := Bind(db, p, kind, expected, providerId, observed, now);
            if db.intents[p].state == IntentReview then db' == db && reply == Refused(ReviewRequired)
            else reply.Ok? && p in db'.intents && db'.intents[p].Get(kind).state == Bound
  {
    hide BoundElsewhere, BoundState;
  }

  // ----- how an intent leaves review ---------------------------------------

  /** The intent is in review, and this operation waits for an audited decision. */
  predicate UnderAudit(db: Db, p: Id, kind: Kind) {
    p in db.intents && db.intents[p].state == IntentReview && NeedsAudit(db.intents[p].Get(kind), kind)
  }

  /** A failed or empty read of the sibling, while the sibling is unbound, not in review and not overdue. */
  predicate SiblingReadDemotes(db: Db, e: Event, p: Id, kind: Kind) {
    && e.RecordPending? && e.p == p && e.kind == Other(kind) && !e.conflict && p in db.intents
    && var sibling := db.intents[p].Get(Other(kind));
       sibling.fence == e.expected.fence && sibling.state in {Pending, PossibleSend, Unknown} && !Overdue(sibling, e.now)
  }

  /** What an event may do to an operation that waits for its decision. */
  predicate AuditStands(db: Db, db': Db, p: Id, kind: Kind, left: bool)
    requires p in db.intents
  {
    && p in db'.intents && NeedsAudit(db'.intents[p].Get(kind), kind)
    && db'.intents[p].Get(kind).bound == db.intents[p].Get(kind).bound
    && (db'.intents[p].state != IntentReview <==> left)
  }

  /** While an intent is in review no claim is granted and no not-sent result is accepted for it. */
  lemma SendsAreClosedInReview(row: Intent, op: Op, expected: OpView)
    requires row.state == IntentReview
    ensures !Claimable(row, op, expected) && !AcceptsNotSent(row, op, expected)
  {
  }

  lemma ReceiptUnderAudit(db: Db, q: Id, k: Kind, expected: OpView, providerId: int, p: Id, kind: Kind)
    requires UnderAudit(db, p, kind)
    ensures AuditStands(db, Receipt(db, q, k, expected, providerId).0, p, kind, false)
  {
    hide Held;
  }

  lemma SendUnderAudit(db: Db, caller: Id, q: Id, k: Kind, expected: OpView, request: Request, clear: bool, now: int,
                       p: Id, kind: Kind)
    requires UnderAudit(db, p, kind)
    ensures AuditStands(db, Claim(db, caller, q, k, expected, request, clear, now).0, p, kind, false)
    ensures AuditStands(db, NotSent(db, q, k, expected).0, p, kind, false)
  {
    hide RetryEvidence, Granted, View, Held, Claimable, AcceptsNotSent, AuditStands, NeedsAudit;
    SendsAreClosedInReview(db.intents[p], db.intents[p].Get(k), expected);
    SameUnderAudit(db, Claim(db, caller, q, k, expected, request, clear, now).0, p, kind);
    SameUnderAudit(db, NotSent(db, q, k, expected).0, p, kind);
  }

  lemma OwnReadUnderAudit(db: Db, k: Kind, expected: OpView, conflict: bool, failure: Option<Failure>, now: int, p: Id,
                          kind: Kind)
    requires UnderAudit(db, p, kind) && Held(db, p)
    ensures AuditStands(db, PendingRead(db, p, k, expected, conflict, failure, now).0, p, kind,
                        SiblingReadDemotes(db, RecordPending(p, k, expected, conflict, failure, now), p, kind))
  {
    hide Held, LockRefusal, Observed, Demoted;
    DemotedUnderAudit(db, k, conflict, now, p, kind);
    if db.intents[p].Get(k).fence == expected.fence && (conflict || db.intents[p].Get(k).state != ProvenNotSent) {
      ObservedUnderAudit(Demoted(db, p, k, conflict, now), k, failure, now, p);
    }
  }

  lemma DemotedUnderAudit(db: Db, k: Kind, conflict: bool, now: int, p: Id, kind: Kind)
    requires UnderAudit(db, p, kind)
    ensures var db' := Demoted(db, p, k, conflict, now);
            var op := db.intents[p].Get(k);
            && p in db'.intents && NeedsAudit(db'.intents[p].Get(kind), kind)
            && db'.intents[p].Get(kind).bound == db.intents[p].Get(kind).bound
            && (db'.intents[p].state == IntentReview
                <==> conflict || op.state == ManualReview || Overdue(op, now) || op.state == Bound)
  {
    hide Overdue;
  }

  lemma ObservedUnderAudit(db: Db, k: Kind, failure: Option<Failure>, now: int, p: Id)
    requires p in db.intents
    ensures var db' := Observed(db, p, k, failure, now);
            p in db'.intents && db'.intents[p].state == db.intents[p].state
            && forall kind: Kind :: SameDecision(db.intents[p].Get(kind), db'.intents[p].Get(kind))
  {
  }

  predicate SameDecision(op: Op, op': Op) {
    op'.state == op.state && op'.openReviews == op.openReviews && op'.bound == op.bound
  }

  lemma TermsUnderAudit(db: Db, q: Id, seenState: IntentState, a: OpView, s: OpView, p: Id, kind: Kind)
    requires UnderAudit(db, p, kind)
    ensures AuditStands(db, ChangedTerms(db, q, seenState, a, s).0, p, kind, false)
  {
    hide View, Held;
  }

  lemma EscalationUnderAudit(db: Db, q: Id, k: Kind, seenFence: Option<Id>, instant: int, p: Id, kind: Kind)
    requires UnderAudit(db, p, kind)
    ensures AuditStands(db, FinancialModel.Escalate(db, q, k, seenFence, instant), p, kind, false)
  {
    hide Overdue, Held;
  }

  lemma OwnBindUnderAudit(db: Db, k: Kind, expected: OpView, providerId: int, observed: bool, now: int, p: Id, kind: Kind)
    requires UnderAudit(db, p, kind) && Held(db, p)
    ensures AuditStands(db, Bind(db, p, k, expected, providerId, observed, now).0, p, kind, false)
  {
    OwnReadUnderAudit(db, k, expected, true, None, now, p, kind);
    hide PendingRead, BoundElsewhere, Held;
  }

  lemma SameUnderAudit(db: Db, db': Db, p: Id, kind: Kind)
    requires UnderAudit(db, p, kind) && p in db'.intents && db'.intents[p] == db.intents[p]
    ensures AuditStands(db, db', p, kind, false)
  {
  }

  lemma BindUnderAudit(db: Db, q: Id, k: Kind, expected: OpView, providerId: int, observed: bool, now: int, p: Id,
                       kind: Kind)
    requires UnderAudit(db, p, kind) && Held(db, p)
    ensures AuditStands(db, Bind(db, q, k, expected, providerId, observed, now).0, p, kind, false)
  {
    hide Bind, UnderAudit, AuditStands, PendingRead, Held, BoundElsewhere;
    if q == p {
      OwnBindUnderAudit(db, k, expected, providerId, observed, now, p, kind);
    } else {
      UnderAuditExists(db, p, kind);
      PendingOfOther(db, q, k, expected, true, None, now, p);
      BindElsewhere(db, q, k, expected, providerId, observed, now, p);
      SameUnderAudit(db, Bind(db, q, k, expected, providerId, observed, now).0, p, kind);
    }
  }

  lemma UnderAuditExists(db: Db, p: Id, kind: Kind)
    requires UnderAudit(db, p, kind)
    ensures p in db.intents && db.intents[p].state != FailedBeforeEffect
  {
  }

  lemma ReadUnderAudit(db: Db, q: Id, k: Kind, expected: OpView, conflict: bool, failure: Option<Failure>, now: int,
                       p: Id, kind: Kind)
    requires UnderAudit(db, p, kind) && Held(db, p)
    ensures AuditStands(db, PendingRead(db, q, k, expected, conflict, failure, now).0, p, kind,
                        SiblingReadDemotes(db, RecordPending(q, k, expected, conflict, failure, now), p, kind))
  {
    hide UnderAudit, AuditStands, PendingRead, Held;
    if q == p {
      OwnReadUnderAudit(db, k, expected, conflict, failure, now, p, kind);
    } else {
      UnderAuditExists(db, p, kind);
      PendingOfOther(db, q, k, expected, conflict, failure, now, p);
      SameUnderAudit(db, PendingRead(db, q, k, expected, conflict, failure, now).0, p, kind);
    }
  }

  lemma PinUnderAudit(db: Db, user: Id, customer: Id, account: Id, key: Id, meaning: Meaning, admitted: bool, p: Id,
                      kind: Kind)
    requires UnderAudit(db, p, kind) && db.nextId !in db.intents
    ensures AuditStands(db, Pin(db, user, customer, account, key, meaning, admitted).0, p, kind, false)
  {
    hide UnderAudit, AuditStands, Pin;
    UnderAuditExists(db, p, kind);
    PinSparesOthers(db, user, customer, account, key, meaning, admitted, p);
    SameUnderAudit(db, Pin(db, user, customer, account, key, meaning, admitted).0, p, kind);
  }

  /**
   Every event leaves the decision pending and the binding as it was, and exactly a demoting read of the
   sibling takes the intent out of review while the decision is still missing.
   */
  lemma ReviewIsLeftExactlyBySiblingRead(w: World, e: Event, p: Id, kind: Kind)
    requires Inv(w) && UnderAudit(w.db, p, kind)
    ensures AuditStands(w.db, Step(w, e).db, p, kind, SiblingReadDemotes(w.db, e, p, kind))
  {
    hide Inv, Pin, Claim, NotSent, Receipt, PendingRead, ChangedTerms, Bind, FinancialModel.Escalate, Held, UnderAudit,
      AuditStands;
    UnderAuditExists(w.db, p, kind);
    HeldUnlessReleased(w, p);
    NextIdIsNew(w);
    var db := w.db;
    SameUnderAudit(db, db, p, kind);
    match e
    case Confirm(user, customer, account, key, meaning, admitted) =>
      PinUnderAudit(db, user, customer, account, key, meaning, admitted, p, kind);
    case ClaimSend(caller, q, k, expected, request, clear, now) =>
      SendUnderAudit(db, caller, q, k, expected, request, clear, now, p, kind);
    case RecordNotSent(q, k, expected) =>
      SendUnderAudit(db, 0, q, k, expected, Request(0, None), true, 0, p, kind);
    case RecordReceipt(q, k, expected, providerId) => ReceiptUnderAudit(db, q, k, expected, providerId, p, kind);
    case RecordPending(q, k, expected, conflict, failure, now) =>
      ReadUnderAudit(db, q, k, expected, conflict, failure, now, p, kind);
    case RecordChangedTerms(q, seenState, a, s) => TermsUnderAudit(db, q, seenState, a, s, p, kind);
    case RecordBinding(q, k, expected, providerId, observed, now) =>
      BindUnderAudit(db, q, k, expected, providerId, observed, now, p, kind);
    case EscalateOverdue(q, k, seenFence, instant) =>
      EscalationUnderAudit(db, q, k, seenFence, instant, p, kind);
    case _ =>
  }

  /** No event of the run is such a read at the time it happens. */
  ghost predicate NoDemotingRead(w: World, events: seq<Event>, p: Id, kind: Kind)
    decreases |events|
  {
    events == []
    || (!SiblingReadDemotes(w.db, events[0], p, kind) && NoDemotingRead(Step(w, events[0]), events[1..], p, kind))
  }

  lemma {:induction false} AuditHoldsFrom(w: World, events: seq<Event>, p: Id, kind: Kind)
    requires Inv(w) && UnderAudit(w.db, p, kind) && NoDemotingRead(w, events, p, kind)
    ensures var db' := Run(w, events).db;
            UnderAudit(db', p, kind) && db'.intents[p].Get(kind).bound == w.db.intents[p].Get(kind).bound
    decreases |events|
  {
    hide Inv, Step, SiblingReadDemotes, NeedsAudit;
    if events != [] {
      ReviewIsLeftExactlyBySiblingRead(w, events[0], p, kind);
      StepKeeps(w, events[0]);
      AuditHoldsFrom(Step(w, events[0]), events[1..], p, kind);
    }
  }

  /**
   Over every run without a demoting read of the sibling the promise holds: the decision stays pending,
   the binding stays as it was, and every attempt to bind is refused.
   */
  lemma AuditHoldsWithoutDemotingRead(earlier: seq<Event>, events: seq<Event>, p: Id, kind: Kind, expected: OpView,
                                      providerId: int, observed: bool, now: int)
    requires var w := Run(START, earlier); UnderAudit(w.db, p, kind) && NoDemotingRead(w, events, p, kind)
    ensures var w := Run(START, earlier);
            var db' := Run(w, events).db;
            UnderAudit(db', p, kind) && db'.intents[p].Get(kind).bound == w.db.intents[p].Get(kind).bound
            && Bind(db', p, kind, expected, providerId, observed, now).1.Refused?
  {
    hide Inv, Run, NoDemotingRead, BoundElsewhere, Held;
    ReachableInv(earlier);
    AuditHoldsFrom(Run(START, earlier), events, p, kind);
  }

  // ----- the run on which an audited decision is skipped --------------------

  const REQUEST := Request(0, None)

  function Seen(fence: Id, maySend: bool, kind: Kind): OpView {
    OpView(kind, PossibleSend, 0, Some(fence), None, None, None, maySend, None, None)
  }

  /** A first view of a pending operation: no fence yet. */
  function Fresh(kind: Kind): OpView {
    OpView(kind, Pending, 0, None, None, None, None, false, None, None)
  }

  /** Bind the agreement, send the subscription, let one reader report a mismatch and another a failed POST. */
  function BypassRun(): seq<Event> {
    [ Confirm(9, 8, 7, 6, Meaning(5, 4), true),
      ClaimSend(9, 0, Agreement, Fresh(Agreement), REQUEST, true, 100),
      RecordBinding(0, Agreement, Seen(3, false, Agreement), 70, false, 101),
      ClaimSend(9, 0, Subscription, Fresh(Subscription), REQUEST, true, 102),
      RecordPending(0, Agreement, Seen(4, false, Agreement), true, None, 103),
      RecordPending(0, Subscription, Seen(5, true, Subscription), false, None, 104),
      RecordBinding(0, Agreement, Seen(6, false, Agreement), 70, false, 105) ]
  }

  function Bypassed(state: IntentState, agreement: Op, subscription: Op): Intent {
    Intent(9, 5, 8, 7, 6, Meaning(5, 4), state, agreement, subscription)
  }

  ghost predicate At(db: Db, nextId: Id, state: IntentState, agreement: Op, subscription: Op) {
    db == Db(map[0 := Bypassed(state, agreement, subscription)], map[(9, 5) := 0], map[], nextId)
  }

  function Sending(key: Id, fence: Id, since: int): Op {
    Op(key, PossibleSend, Some(fence), Some(since), Some(since + RECOVERY_WINDOW), Some(Hint(REQUEST, 0, 4)), None,
       Some(Work(false, Some(since + RECOVERY_WINDOW), since + RECOVERY_WINDOW, 1, None, None)), {})
  }

  const BOUND_AGREEMENT := BoundOp(Sending(1, 3, 100), Agreement, 70, 4)
  const REVIEWED_AGREEMENT := Reviewed(BOUND_AGREEMENT, BindingConflict, 6)

  lemma BypassConfirm(db0: Db, db1: Db)
    requires db0 == EMPTY_DB && db1 == Pin(db0, 9, 8, 7, 6, Meaning(5, 4), true).0
    ensures At(db1, 3, Created, NewOp(1), NewOp(2))
  {
  }

  lemma BypassClaim(db1: Db, db2: Db)
    requires At(db1, 3, Created, NewOp(1), NewOp(2))
    requires db2 == Claim(db1, 9, 0, Agreement, Fresh(Agreement), REQUEST, true, 100).0
    ensures At(db2, 4, Preparing, Sending(1, 3, 100), NewOp(2))
  {
    assert db2.intents == map[0 := Bypassed(Preparing, Sending(1, 3, 100), NewOp(2))];
  }

  lemma BypassBind(db2: Db, db3: Db)
    requires At(db2, 4, Preparing, Sending(1, 3, 100), NewOp(2))
    requires db3 == Bind(db2, 0, Agreement, Seen(3, false, Agreement), 70, false, 101).0
    ensures At(db3, 5, Preparing, BOUND_AGREEMENT, NewOp(2))
  {
    hide PendingRead;
    assert db3.intents == map[0 := Bypassed(Preparing, BOUND_AGREEMENT, NewOp(2))];
  }

  lemma BypassSubscription(db3: Db, db4: Db)
    requires At(db3, 5, Preparing, BOUND_AGREEMENT, NewOp(2))
    requires db4 == Claim(db3, 9, 0, Subscription, Fresh(Subscription), REQUEST, true, 102).0
    ensures At(db4, 6, Preparing, BOUND_AGREEMENT, Sending(2, 5, 102))
  {
    assert db4.intents == map[0 := Bypassed(Preparing, BOUND_AGREEMENT, Sending(2, 5, 102))];
  }

  lemma BypassConflict(db4: Db, db5: Db)
    requires At(db4, 6, Preparing, BOUND_AGREEMENT, Sending(2, 5, 102))
    requires db5 == PendingRead(db4, 0, Agreement, Seen(4, false, Agreement), true, None, 103).0
    ensures At(db5, 7, IntentReview, REVIEWED_AGREEMENT, Sending(2, 5, 102))
  {
    assert db5.intents == map[0 := Bypassed(IntentReview, REVIEWED_AGREEMENT, Sending(2, 5, 102))];
  }

  /** The read of the sibling takes the intent out of review, with the decision still missing. */
  lemma BypassDemotion(db5: Db, db6: Db)
    requires At(db5, 7, IntentReview, REVIEWED_AGREEMENT, Sending(2, 5, 102))
    requires db6 == PendingRead(db5, 0, Subscription, Seen(5, true, Subscription), false, None, 104).0
    ensures At(db6, 7, AwaitingResult, REVIEWED_AGREEMENT, Sending(2, 5, 102).(state := Unknown))
    ensures 0 in db6.intents && NeedsAudit(db6.intents[0].agreement, Agreement)
  {
    assert db6.intents == map[0 := Bypassed(AwaitingResult, REVIEWED_AGREEMENT, Sending(2, 5, 102).(state := Unknown))];
    assert BindingConflict in REVIEWED_AGREEMENT.openReviews;
  }

  lemma BypassEnd(db6: Db, db7: Db)
    requires At(db6, 7, AwaitingResult, REVIEWED_AGREEMENT, Sending(2, 5, 102).(state := Unknown))
    requires db7 == Bind(db6, 0, Agreement, Seen(6, false, Agreement), 70, false, 105).0
    ensures 0 in db7.intents && db7.intents[0].agreement.state == Bound
            && BindingConflict in db7.intents[0].agreement.openReviews
  {
    hide PendingRead;
    assert BindingConflict in REVIEWED_AGREEMENT.openReviews;
  }

  lemma AuditCanBeSkipped()
    ensures var w := Run(START, BypassRun());
            0 in w.db.intents && w.db.intents[0].agreement.state == Bound
            && BindingConflict in w.db.intents[0].agreement.openReviews
    ensures var before := Run(START, BypassRun()[..6]);
            0 in before.db.intents && NeedsAudit(before.db.intents[0].agreement, Agreement)
  {
    hide Pin, Claim, Bind, PendingRead, NeedsAudit, At, Fresh, Seen, Run;
    var e := BypassRun();
    var w1 := Step(START, e[0]);
    var w2 := Step(w1, e[1]);
    var w3 := Step(w2, e[2]);
    var w4 := Step(w3, e[3]);
    var w5 := Step(w4, e[4]);
    var w6 := Step(w5, e[5]);
    var w7 := Step(w6, e[6]);
    BypassConfirm(START.db, w1.db);
    BypassClaim(w1.db, w2.db);
    BypassBind(w2.db, w3.db);
    BypassSubscription(w3.db, w4.db);
    BypassConflict(w4.db, w5.db);
    BypassDemotion(w5.db, w6.db);
    BypassEnd(w6.db, w7.db);
    SevenSteps(START, w1, w2, w3, w4, w5, w6, w7, e);
  }

  lemma SevenSteps(w0: World, w1: World, w2: World, w3: World, w4: World, w5: World, w6: World, w7: World,
                   e: seq<Event>)
    requires |e| == 7
    requires w1 == Step(w0, e[0]) && w2 == Step(w1, e[1]) && w3 == Step(w2, e[2]) && w4 == Step(w3, e[3])
    requires w5 == Step(w4, e[4]) && w6 == Step(w5, e[5]) && w7 == Step(w6, e[6])
    ensures Run(w0, e) == w7 && Run(w0, e[..6]) == w6
  {
    hide Step;
    RunAppend(w0, e[..6], e[6]);
    assert e[..6] + [e[6]] == e;
    RunAppend(w0, e[..5], e[5]);
    assert e[..5] + [e[5]] == e[..6];
    RunAppend(w0, e[..4], e[4]);
    assert e[..4] + [e[4]] == e[..5];
    RunAppend(w0, e[..3], e[3]);
    assert e[..3] + [e[3]] == e[..4];
    RunAppend(w0, e[..2], e[2]);
    assert e[..2] + [e[2]] == e[..3];
    RunAppend(w0, e[..1], e[1]);
    assert e[..1] + [e[1]] == e[..2];
    RunAppend(w0, [], e[0]);
    assert [] + [e[0]] == e[..1];
  }

  // ----- provider ids ------------------------------------------------------

  /** Over every run no provider object is bound by two purchases of one account, nor named by two subscription rows. */
  lemma ProviderIdsAreUnique(events: seq<Event>, p: Id, q: Id)
    requires var db := Run(START, events).db;
             p in db.intents && q in db.intents && p != q && db.intents[p].account == db.intents[q].account
    ensures var db := Run(START, events).db;
            && (forall kind: Kind :: db.intents[p].Get(kind).bound.Some? ==>
                  db.intents[p].Get(kind).bound != db.intents[q].Get(kind).bound)
            && (p in db.subs && q in db.subs ==>
                  db.subs[p].subscription != db.subs[q].subscription && db.subs[p].agreement != db.subs[q].agreement)
  {
    hide Run, Inv;
    ReachableInv(events);
    var w := Run(START, events);
    UniqueIds(w, p, q);
    OperationFacts(w, p, Agreement);
    OperationFacts(w, q, Agreement);
    assert forall kind: Kind :: kind.Agreement? || kind.Subscription?;
  }

  lemma UniqueIds(w: World, p: Id, q: Id)
    requires Inv(w) && p in w.db.intents && q in w.db.intents && p != q
        && w.db.intents[p].account == w.db.intents[q].account
    ensures w.db.intents[p].agreement.bound.Some? ==> w.db.intents[p].agreement.bound != w.db.intents[q].agreement.bound
    ensures w.db.intents[p].subscription.bound.Some? ==>
              w.db.intents[p].subscription.bound != w.db.intents[q].subscription.bound
  {
    hide PurchaseOk, ScopesOk, KeysOk, IssuedOk;
    assert w.db.intents[p].Get(Agreement) == w.db.intents[p].agreement;
    assert w.db.intents[p].Get(Subscription) == w.db.intents[p].subscription;
  }
}
