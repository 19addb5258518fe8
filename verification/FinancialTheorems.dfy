/**
 What the financial protocol promises over every run: at most one CREATE of each kind per
 (user, product) takes effect, sends are accounted for, bound ids and first-send evidence are
 permanent, and a linked purchase stays what it was proven to be.
 */
module FinancialTheorems {
  import opened Options
  import opened FinancialKinds
  import opened FinancialModel
  import opened FinancialRuns

  // ----- at most one external effect ---------------------------------------

  /** A grant that took effect is the last grant of an operation whose purchase is still held. */
  lemma EffectIsLive(w: World, f: Id)
    requires Inv(w) && f in w.effects
    ensures var (p, kind) := w.issued[f];
            var led := LedgerOf(w, p, kind);
            p in w.db.intents && Held(w.db, p)
            && |led.grants| == |led.accepted| + 1 && led.grants[|led.accepted|].fence == f
  {
    hide Inv, ColumnsOk, WorkOk;
    HistoryOf(w);
    var (p, kind) := w.issued[f];
    var led := LedgerOf(w, p, kind);
    OperationFacts(w, p, kind);
    HeldUnlessReleased(w, p);
    var i :| 0 <= i < |led.grants| && led.grants[i].fence == f;
    assert forall j :: 0 <= j < |led.accepted| ==> led.grants[j].fence in w.unsent;
    assert !Unsent(w.db.intents[p].Get(kind));
  }

  lemma HeldUnlessReleased(w: World, p: Id)
    requires Inv(w) && p in w.db.intents
    ensures w.db.intents[p].state != FailedBeforeEffect ==> Held(w.db, p)
  {
  }

  /** The POST of grant `f` took effect; it creates a `kind` for this (user, product). */
  predicate CreatedFor(w: World, f: Id, kind: Kind, scope: (Id, Id)) {
    && f in w.effects && f in w.issued && w.issued[f].1 == kind
    && w.issued[f].0 in w.db.intents && w.db.intents[w.issued[f].0].Scope() == scope
  }

  /** Every effect at the provider belongs to one purchase of one (user, product). */
  lemma EveryCreateHasAScope(events: seq<Event>, f: Id)
    requires f in Run(START, events).effects
    ensures var w := Run(START, events);
            f in w.issued && w.issued[f].0 in w.db.intents
            && CreatedFor(w, f, w.issued[f].1, w.db.intents[w.issued[f].0].Scope())
  {
    hide Inv, Run;
    ReachableInv(events);
    HistoryOf(Run(START, events));
    EffectIsLive(Run(START, events), f);
  }

  /** Over every run at most one CREATE of each kind takes effect per (user, product), across released purchases too. */
  lemma AtMostOneCreatePerScope(events: seq<Event>, kind: Kind, scope: (Id, Id), f: Id, g: Id)
    requires CreatedFor(Run(START, events), f, kind, scope) && CreatedFor(Run(START, events), g, kind, scope)
    ensures f == g
  {
    hide Inv, Run;
    ReachableInv(events);
    EffectIsLive(Run(START, events), f);
    EffectIsLive(Run(START, events), g);
  }

  // ----- the send ledger ---------------------------------------------------

  lemma SendLedger(events: seq<Event>, p: Id, kind: Kind)
    requires p in Run(START, events).db.intents
    ensures var w := Run(START, events);
            var op, led := w.db.intents[p].Get(kind), LedgerOf(w, p, kind);
            && 0 <= |led.grants| - |led.accepted| <= 1
            && (op.state in {Pending, ProvenNotSent} ==> |led.grants| == |led.accepted|)
            && (op.state in {PossibleSend, Unknown} ==>
                  |led.grants| == |led.accepted| + 1 && op.fence == Some(led.grants[|led.accepted|].fence))
            && (forall i :: 0 <= i < |led.accepted| ==> led.accepted[i] == led.grants[i].fence)
            && (forall i, j :: 0 <= i < j < |led.grants| ==> led.grants[i].request == led.grants[j].request)
            && (if led.grants == [] then op.work.None? && op.unknownSince.None?
                else op.work.Some? && op.work.value.attempts == |led.grants|)
  {
    hide Inv, Run;
    ReachableInv(events);
    OperationFacts(Run(START, events), p, kind);
  }

  // ----- how one step may change an operation ------------------------------

  predicate MayStillBeClaimed(op: Op) {
    op.state in {Pending, ProvenNotSent}
  }

  /** First-send evidence exists exactly from the first grant on. */
  predicate Shape(op: Op) {
    && (op.state == Pending ==> op.unknownSince.None?)
    && (op.state in {ProvenNotSent, PossibleSend, Unknown, Bound} ==> op.unknownSince.Some?)
  }

  /** The old/new relation enforced by trigger guard_financial_create_evidence on one operation row. */
  predicate GuardAllows(op: Op, op': Op) {
    && op'.key == op.key
    && (op.unknownSince.Some? ==>
          op'.unknownSince == op.unknownSince && op'.unknownDeadline == op.unknownDeadline && op'.hint == op.hint)
    && (op.unknownSince.Some? ==> op'.state != Pending)
    && (op.bound.Some? ==> op'.bound == op.bound)
  }

  predicate Progress(op: Op, op': Op, reopening: bool) {
    GuardAllows(op, op') && (MayStillBeClaimed(op') && !MayStillBeClaimed(op) ==> reopening)
  }

  predicate SamePurchase(row: Intent, row': Intent) {
    && row'.user == row.user && row'.product == row.product && row'.customer == row.customer
    && row'.account == row.account && row'.idempotencyKey == row.idempotencyKey && row'.meaning == row.meaning
  }

  ghost predicate DbShape(db: Db) {
    forall p | p in db.intents :: Shape(db.intents[p].agreement) && Shape(db.intents[p].subscription)
  }

  ghost predicate DbProgress(db: Db, db': Db, reopening: bool) {
    forall p | p in db.intents ::
      p in db'.intents && SamePurchase(db.intents[p], db'.intents[p])
      && Progress(db.intents[p].agreement, db'.intents[p].agreement, reopening)
      && Progress(db.intents[p].subscription, db'.intents[p].subscription, reopening)
  }

  lemma PutProgress(db: Db, p: Id, kind: Kind, op: Op, state: IntentState, n: nat, reopening: bool)
    requires DbShape(db) && p in db.intents && Progress(db.intents[p].Get(kind), op, reopening)
    ensures DbProgress(db, PutOp(db, p, kind, op, state).(nextId := db.nextId + n), reopening)
  {
  }

  lemma ReviewProgress(db: Db, p: Id, kind: Kind, reason: Reason)
    requires DbShape(db) && p in db.intents
    ensures DbProgress(db, Review(db, p, kind, reason), false)
  {
    hide DbProgress, DbShape;
    PutProgress(db, p, kind, Reviewed(db.intents[p].Get(kind), reason, db.nextId), IntentReview, 1, false);
  }

  lemma RewriteProgress(db: Db, p: Id, kind: Kind, op: Op, state: IntentState)
    requires DbShape(db) && p in db.intents && Progress(db.intents[p].Get(kind), op, false)
    ensures DbProgress(db, PutOp(db, p, kind, op, state), false)
  {
    hide DbProgress, DbShape;
    PutProgress(db, p, kind, op, state, 0, false);
    assert PutOp(db, p, kind, op, state).(nextId := db.nextId + 0) == PutOp(db, p, kind, op, state);
  }

  lemma DemotedProgress(db: Db, p: Id, kind: Kind, conflict: bool, now: int)
    requires DbShape(db) && p in db.intents
    requires !conflict ==> db.intents[p].Get(kind).state != ProvenNotSent
    ensures DbProgress(db, Demoted(db, p, kind, conflict, now), false)
  {
    var row := db.intents[p];
    var op := row.Get(kind);
    assert Shape(op);
    hide DbProgress, DbShape;
    if conflict {
      ReviewProgress(db, p, kind, BindingConflict);
    } else if op.state != Bound && Overdue(op, now) {
      ReviewProgress(db, p, kind, OutcomeUnknown(kind));
    } else if op.state == Bound {
      RewriteProgress(db, p, kind, op, AwaitingResult);
      NoProgress(db);
    } else if op.state == ManualReview {
      NoProgress(db);
    } else {
      RewriteProgress(db, p, kind, op.(state := if op.unknownSince.Some? then Unknown else Pending), AwaitingResult);
    }
  }

  lemma NoProgress(db: Db)
    requires DbShape(db)
    ensures DbProgress(db, db, false) && DbProgress(db, db, true)
  {
  }

  /** The recovery work item is outside the guard. */
  lemma WorkAside(db: Db, mid: Db, p: Id, kind: Kind, op: Op, state: IntentState)
    requires DbProgress(db, mid, false) && p in mid.intents && p in db.intents
    requires op == mid.intents[p].Get(kind).(work := op.work)
    ensures DbProgress(db, PutOp(mid, p, kind, op, state), false)
  {
  }

  lemma PendingProgress(db: Db, p: Id, kind: Kind, expected: OpView, conflict: bool, failure: Option<Failure>, now: int)
    requires DbShape(db)
    ensures DbProgress(db, PendingRead(db, p, kind, expected, conflict, failure, now).0, false)
  {
    hide DbProgress, DbShape, Demoted;
    NoProgress(db);
    if PendingRead(db, p, kind, expected, conflict, failure, now).0 != db {
      DemotedProgress(db, p, kind, conflict, now);
      var mid := Demoted(db, p, kind, conflict, now);
      DemotedKeepsRow(db, p, kind, conflict, now);
      WorkAside(db, mid, p, kind, WithFailure(Rescheduled(mid.intents[p].Get(kind), now), failure), mid.intents[p].state);
    }
  }

  lemma DemotedKeepsRow(db: Db, p: Id, kind: Kind, conflict: bool, now: int)
    requires p in db.intents
    ensures p in Demoted(db, p, kind, conflict, now).intents
  {
  }

  lemma BindProgress(db: Db, p: Id, kind: Kind, expected: OpView, providerId: int, observed: bool, now: int)
    requires DbShape(db)
    ensures DbProgress(db, Bind(db, p, kind, expected, providerId, observed, now).0, false)
  {
    assert p in db.intents ==> Shape(db.intents[p].Get(kind));
    hide DbProgress, DbShape, PendingRead, AuditRequired;
    var db' := Bind(db, p, kind, expected, providerId, observed, now).0;
    NoProgress(db);
    if db' != db {
      if BoundElsewhere(db, p, kind, providerId) {
        PendingProgress(db, p, kind, expected, true, None, now);
      } else {
        var row := db.intents[p];
        var row' := row.With(kind, BoundOp(row.Get(kind), kind, providerId, db.nextId));
        PutProgress(db, p, kind, BoundOp(row.Get(kind), kind, providerId, db.nextId), BoundState(row', kind), 1, false);
        SubsAside(db, PutOp(db, p, kind, BoundOp(row.Get(kind), kind, providerId, db.nextId), BoundState(row', kind))
                      .(nextId := db.nextId + 1), db');
      }
    }
  }

  lemma SubsAside(db: Db, mid: Db, db': Db)
    requires DbProgress(db, mid, false) && db'.intents == mid.intents
    ensures DbProgress(db, db', false)
  {
  }

  lemma ClaimProgress(db: Db, caller: Id, p: Id, kind: Kind, expected: OpView, request: Request, clear: bool, now: int)
    requires DbShape(db)
    ensures DbProgress(db, Claim(db, caller, p, kind, expected, request, clear, now).0, false)
  {
    assert p in db.intents ==> Shape(db.intents[p].Get(kind));
    hide DbProgress, DbShape, RetryEvidence;
    NoProgress(db);
    var result := Claim(db, caller, p, kind, expected, request, clear, now);
    if result.0 != db {
      var row := db.intents[p];
      PutProgress(db, p, kind, Granted(row.Get(kind), p, request, row.meaning.fingerprint, db.nextId, now), Preparing, 1, false);
    }
  }

  lemma ReceiptProgress(db: Db, p: Id, kind: Kind, expected: OpView, providerId: int)
    requires DbShape(db)
    ensures DbProgress(db, Receipt(db, p, kind, expected, providerId).0, false)
  {
    hide DbProgress, DbShape;
    NoProgress(db);
    if Receipt(db, p, kind, expected, providerId).0 != db {
      var row := db.intents[p];
      var op := row.Get(kind);
      RewriteProgress(db, p, kind, op.(work := Some(op.work.value.(candidate := Some(providerId)))), row.state);
    }
  }

  lemma NotSentProgress(db: Db, p: Id, kind: Kind, expected: OpView)
    requires DbShape(db)
    ensures DbProgress(db, NotSent(db, p, kind, expected).0, true)
  {
    if NotSent(db, p, kind, expected).0 != db {
      var op := db.intents[p].Get(kind);
      var op' := op.(state := ProvenNotSent, fence := Some(db.nextId),
                     work := Some(op.work.value.(done := true, lastFailure := Some(NotSentFailure))));
      PutProgress(db, p, kind, op', Preparing, 1, true);
    }
  }

  lemma ReleaseProgress(db: Db, p: Id)
    requires DbShape(db) && p in db.intents
    ensures DbProgress(db, db.(intents := db.intents[p := db.intents[p].(state := FailedBeforeEffect)],
                               holds := db.holds - {db.intents[p].Scope()}), false)
  {
  }

  lemma ChangedTermsProgress(db: Db, p: Id, seenState: IntentState, a: OpView, s: OpView)
    requires DbShape(db)
    ensures DbProgress(db, ChangedTerms(db, p, seenState, a, s).0, false)
  {
    hide DbShape, DbProgress, View, Review, Unsent;
    NoProgress(db);
    if Held(db, p) {
      ReleaseProgress(db, p);
      ReviewProgress(db, p, Subscription, TermsChangedAfterPreparation);
    }
  }

  lemma PinProgress(db: Db, user: Id, customer: Id, account: Id, key: Id, meaning: Meaning, admitted: bool)
    requires DbShape(db) && db.nextId !in db.intents
    ensures DbProgress(db, Pin(db, user, customer, account, key, meaning, admitted).0, false)
  {
    NoProgress(db);
  }

  lemma ShapeOfOk(p: Id, kind: Kind, op: Op, led: Ledger, nextId: Id, issued: map<Id, (Id, Kind)>, unsent: set<Id>)
    requires OpOk(p, kind, op, led, nextId, issued, unsent)
    ensures Shape(op)
  {
    hide LedgerOk;
  }

  lemma OperationShape(w: World, p: Id, kind: Kind)
    requires Inv(w) && p in w.db.intents
    ensures Shape(w.db.intents[p].Get(kind))
  {
    hide Inv, OpOk, IntentOk, Shape;
    OperationFacts(w, p, kind);
    ShapeOfOk(p, kind, w.db.intents[p].Get(kind), LedgerOf(w, p, kind), w.db.nextId, w.issued, w.unsent);
  }

  lemma ShapeFacts(w: World)
    requires Inv(w)
    ensures DbShape(w.db)
  {
    hide Inv, Shape;
    forall p | p in w.db.intents ensures Shape(w.db.intents[p].agreement) && Shape(w.db.intents[p].subscription) {
      OperationShape(w, p, Agreement);
      OperationShape(w, p, Subscription);
    }
  }

  lemma NextIdIsNew(w: World)
    requires Inv(w)
    ensures w.db.nextId !in w.db.intents
  {
  }

  /** Each event changes each operation within the guard, and reopens one only through a no-send result. */
  lemma StepProgress(w: World, e: Event)
    requires Inv(w)
    ensures DbProgress(w.db, Step(w, e).db, e.RecordNotSent?)
  {
    hide Inv, DbProgress, DbShape, Claim, NotSent, Receipt, PendingRead, ChangedTerms, Bind, FinancialModel.Escalate, Pin;
    NextIdIsNew(w);
    ShapeFacts(w);
    NoProgress(w.db);
    match e
    case Confirm(user, customer, account, key, meaning, admitted) =>
      PinProgress(w.db, user, customer, account, key, meaning, admitted);
    case ClaimSend(caller, p, kind, expected, request, customerClear, now) =>
      ClaimProgress(w.db, caller, p, kind, expected, request, customerClear, now);
    case TransportReportsNotSent(f) =>
    case PostTakesEffect(f) =>
    case RecordNotSent(p, kind, expected) =>
      NotSentProgress(w.db, p, kind, expected);
    case RecordReceipt(p, kind, expected, providerId) =>
      ReceiptProgress(w.db, p, kind, expected, providerId);
    case RecordPending(p, kind, expected, conflict, failure, now) =>
      PendingProgress(w.db, p, kind, expected, conflict, failure, now);
    case RecordChangedTerms(p, seenState, a, s) =>
      ChangedTermsProgress(w.db, p, seenState, a, s);
    case RecordBinding(p, kind, expected, providerId, observed, now) =>
      BindProgress(w.db, p, kind, expected, providerId, observed, now);
    case EscalateOverdue(p, kind, seenFence, instant) =>
      EscalateProgress(w.db, p, kind, seenFence, instant);
  }

  lemma EscalateProgress(db: Db, p: Id, kind: Kind, seenFence: Option<Id>, instant: int)
    requires DbShape(db)
    ensures DbProgress(db, FinancialModel.Escalate(db, p, kind, seenFence, instant), false)
  {
    if Escalates(db, p, kind, seenFence, instant) {
      ReviewProgress(db, p, kind, OutcomeUnknown(kind));
    }
  }

  /** Only an accepted typed no-send result makes an operation claimable again. */
  lemma OnlyNotSentReopensFrom(w: World, e: Event, p: Id, kind: Kind)
    requires Inv(w) && p in w.db.intents && !MayStillBeClaimed(w.db.intents[p].Get(kind))
    requires !e.RecordNotSent?
    ensures p in Step(w, e).db.intents && !MayStillBeClaimed(Step(w, e).db.intents[p].Get(kind))
  {
    hide Inv, Step;
    StepProgress(w, e);
  }

  /** In every reachable state every event passes the trigger and the column checks of the operation table. */
  lemma GuardNeverFiresFrom(w: World, e: Event, p: Id, kind: Kind)
    requires Inv(w) && p in w.db.intents
    ensures var db' := Step(w, e).db;
            p in db'.intents && SamePurchase(w.db.intents[p], db'.intents[p])
            && GuardAllows(w.db.intents[p].Get(kind), db'.intents[p].Get(kind))
            && ColumnsOk(db'.intents[p].Get(kind))
  {
    hide Inv, Step;
    StepProgress(w, e);
    StepKeeps(w, e);
    OperationFacts(Step(w, e), p, kind);
  }

  /** Over any run, identity, bound ids and first-send evidence are written once. */
  lemma {:induction false} EvidenceIsPermanent(w: World, events: seq<Event>, p: Id, kind: Kind)
    requires Inv(w) && p in w.db.intents
    ensures var db' := Run(w, events).db;
            p in db'.intents && SamePurchase(w.db.intents[p], db'.intents[p])
            && GuardAllows(w.db.intents[p].Get(kind), db'.intents[p].Get(kind))
    decreases |events|
  {
    hide Inv, Step;
    ShapeFacts(w);
    if events != [] {
      GuardNeverFiresFrom(w, events[0], p, kind);
      StepKeeps(w, events[0]);
      EvidenceIsPermanent(Step(w, events[0]), events[1..], p, kind);
    }
  }

  // ----- the subscription and its agreement ---------------------------------

  /** A subscription grant is given only while the agreement is bound. */
  lemma GrantNeedsBoundAgreement(w: World, e: Event, p: Id)
    requires |LedgerOf(Step(w, e), p, Subscription).grants| > |LedgerOf(w, p, Subscription).grants|
    ensures p in w.db.intents && w.db.intents[p].agreement.state == Bound
  {
    hide RetryEvidence, Granted, Pin, NotSent, Receipt, PendingRead, ChangedTerms, Bind, FinancialModel.Escalate;
  }

  /** The subscription of `p` has been granted, or its CREATE has taken effect. */
  ghost predicate SubscriptionSent(w: World, p: Id) {
    LedgerOf(w, p, Subscription).grants != []
    || exists f :: f in w.effects && f in w.issued && w.issued[f] == (p, Subscription)
  }

  lemma SentIsGranted(w: World, p: Id)
    requires Inv(w) && SubscriptionSent(w, p)
    ensures LedgerOf(w, p, Subscription).grants != []
  {
    hide PurchaseOk, ScopesOk, KeysOk, BindingsOk;
  }

  /** The agreement is bound to `id`, and nothing has been sent for the subscription yet. */
  predicate BoundBeforeSending(w: World, p: Id, id: Option<int>) {
    && id.Some? && p in w.db.intents && LedgerOf(w, p, Subscription).grants == []
    && w.db.intents[p].agreement.state == Bound && w.db.intents[p].agreement.bound == id
  }

  lemma AgreementIdStays(w: World, events: seq<Event>, p: Id)
    requires Inv(w) && p in w.db.intents && w.db.intents[p].agreement.bound.Some?
    ensures var db' := Run(w, events).db; p in db'.intents && db'.intents[p].agreement.bound == w.db.intents[p].agreement.bound
  {
    hide Inv, Run;
    EvidenceIsPermanent(w, events, p, Agreement);
  }

  /** Before its first grant a subscription found its agreement bound, to the id that it has now. */
  lemma {:induction false} BoundBeforeFirstGrant(events: seq<Event>, p: Id)
    requires LedgerOf(Run(START, events), p, Subscription).grants != []
    ensures p in Run(START, events).db.intents
    ensures exists k :: 0 <= k < |events|
                        && BoundBeforeSending(Run(START, events[..k]), p, Run(START, events).db.intents[p].agreement.bound)
    decreases |events|
  {
    hide Inv, Step, Run, LedgerOf;
    NothingSent(p);
    var n := |events| - 1;
    var front := events[..n];
    var w, e := Run(START, front), events[n];
    assert events == front + [e];
    RunAppend(START, front, e);
    RunOn(START, front, [e]);
    ReachableInv(front);
    if LedgerOf(w, p, Subscription).grants != [] {
      BoundBeforeFirstGrant(front, p);
      var k :| 0 <= k < n && BoundBeforeSending(Run(START, front[..k]), p, w.db.intents[p].agreement.bound);
      assert front[..k] == events[..k];
      AgreementIdStays(w, [e], p);
    } else {
      GrantNeedsBoundAgreement(w, e, p);
      BoundAgreement(w, p);
      AgreementIdStays(w, [e], p);
      assert BoundBeforeSending(Run(START, events[..n]), p, w.db.intents[p].agreement.bound);
    }
  }

  lemma NothingSent(p: Id)
    ensures Run(START, []) == START && LedgerOf(START, p, Subscription).grants == []
  {
  }

  /**
   In every reachable state a subscription that was granted or created rests on an agreement whose bound
   id is set: it was bound to that id before the first grant, and no later event changes it.
   */
  lemma SubscriptionNeedsBoundAgreement(events: seq<Event>, later: seq<Event>, p: Id)
    requires SubscriptionSent(Run(START, events), p)
    ensures p in Run(START, events).db.intents
    ensures var id := Run(START, events).db.intents[p].agreement.bound;
            var db' := Run(Run(START, events), later).db;
            && id.Some? && p in db'.intents && db'.intents[p].agreement.bound == id
            && exists k :: 0 <= k < |events| && BoundBeforeSending(Run(START, events[..k]), p, id)
  {
    hide Inv, Run, LedgerOf;
    ReachableInv(events);
    SentIsGranted(Run(START, events), p);
    BoundBeforeFirstGrant(events, p);
    AgreementIdStays(Run(START, events), later, p);
  }

  // ----- scope and release -------------------------------------------------

  /** A (user, product) scope is held by its one unreleased purchase. */
  lemma ScopeHeldUntilReleased(events: seq<Event>, p: Id, q: Id)
    requires var db := Run(START, events).db; p in db.intents && q in db.intents
    ensures var db := Run(START, events).db;
            && (Held(db, p) <==> db.intents[p].state != FailedBeforeEffect)
            && (Held(db, p) && Held(db, q) && db.intents[p].Scope() == db.intents[q].Scope() ==> p == q)
  {
    hide Run;
    ReachableInv(events);
  }

  lemma ReleasedNotHeld(w: World, p: Id)
    requires Inv(w) && p in w.db.intents && w.db.intents[p].state == FailedBeforeEffect
    ensures !Held(w.db, p)
  {
    if Held(w.db, p) { HeldNotReleased(w, p); }
  }

  predicate SameRow(db: Db, db': Db, p: Id)
    requires p in db.intents
  {
    p in db'.intents && db'.intents[p] == db.intents[p] && SubOf(db', p) == SubOf(db, p)
  }

  lemma BindSparesOthers(db: Db, q: Id, kind: Kind, expected: OpView, providerId: int, observed: bool, now: int, p: Id)
    requires p in db.intents && !Held(db, p)
    ensures SameRow(db, Bind(db, q, kind, expected, providerId, observed, now).0, p)
  {
    hide BindRefusal, BoundElsewhere, BoundOp, BoundState, WithFailure, Rescheduled, Overdue, Reviewed;
  }

  lemma PutSparesOthers(db: Db, q: Id, kind: Kind, op: Op, state: IntentState, p: Id)
    requires p in db.intents && q in db.intents && q != p
    ensures SameRow(db, PutOp(db, q, kind, op, state), p)
  {
  }

  lemma DemotionSparesOthers(db: Db, q: Id, kind: Kind, conflict: bool, now: int, p: Id)
    requires p in db.intents && q in db.intents && q != p
    ensures SameRow(db, Demoted(db, q, kind, conflict, now), p) && q in Demoted(db, q, kind, conflict, now).intents
  {
    hide Overdue, Reviewed;
  }

  lemma PendingSparesOthers(db: Db, q: Id, kind: Kind, expected: OpView, conflict: bool, failure: Option<Failure>,
                            now: int, p: Id)
    requires p in db.intents && !Held(db, p)
    ensures SameRow(db, PendingRead(db, q, kind, expected, conflict, failure, now).0, p)
  {
    hide WithFailure, Rescheduled, Demoted, PutOp;
    if Held(db, q) {
      DemotionSparesOthers(db, q, kind, conflict, now, p);
      var mid := Demoted(db, q, kind, conflict, now);
      var op := mid.intents[q].Get(kind);
      PutSparesOthers(mid, q, kind, WithFailure(Rescheduled(op, now), failure), mid.intents[q].state, p);
    }
  }

  lemma ReadSparesOthers(db: Db, q: Id, kind: Kind, expected: OpView, conflict: bool, failure: Option<Failure>,
                         now: int, seenState: IntentState, a: OpView, s: OpView, seenFence: Option<Id>, p: Id)
    requires p in db.intents && !Held(db, p)
    ensures SameRow(db, PendingRead(db, q, kind, expected, conflict, failure, now).0, p)
    ensures SameRow(db, ChangedTerms(db, q, seenState, a, s).0, p)
    ensures SameRow(db, FinancialModel.Escalate(db, q, kind, seenFence, now), p)
  {
    hide PendingRead, Overdue, Reviewed, View, PutOp;
    PendingSparesOthers(db, q, kind, expected, conflict, failure, now, p);
    if q in db.intents && q != p {
      var op := db.intents[q].Get(kind);
      PutSparesOthers(db, q, kind, Reviewed(op, OutcomeUnknown(kind), db.nextId), IntentReview, p);
      PutSparesOthers(db, q, Subscription, Reviewed(db.intents[q].subscription, TermsChangedAfterPreparation, db.nextId),
                      IntentReview, p);
    }
  }

  lemma SendSparesOthers(db: Db, caller: Id, q: Id, kind: Kind, expected: OpView, request: Request, clear: bool,
                         now: int, providerId: int, p: Id)
    requires p in db.intents && !Held(db, p)
    ensures SameRow(db, Claim(db, caller, q, kind, expected, request, clear, now).0, p)
    ensures SameRow(db, NotSent(db, q, kind, expected).0, p)
    ensures SameRow(db, Receipt(db, q, kind, expected, providerId).0, p)
  {
    hide Claimable, RetryEvidence, Granted, AcceptsNotSent, View;
  }

  lemma PinSparesOthers(db: Db, user: Id, customer: Id, account: Id, key: Id, meaning: Meaning, admitted: bool, p: Id)
    requires p in db.intents && db.nextId !in db.intents
    ensures SameRow(db, Pin(db, user, customer, account, key, meaning, admitted).0, p)
  {
    hide Ambiguous;
  }

  /** A released purchase never changes again. */
  lemma ReleasedIsFrozenFrom(w: World, e: Event, p: Id)
    requires Inv(w) && p in w.db.intents && w.db.intents[p].state == FailedBeforeEffect
    ensures p in Step(w, e).db.intents && Step(w, e).db.intents[p] == w.db.intents[p]
    ensures SubOf(Step(w, e).db, p) == SubOf(w.db, p)
  {
    hide Inv, Pin, Claim, NotSent, Receipt, PendingRead, ChangedTerms, Bind, FinancialModel.Escalate, Held, SubOf;
    ReleasedNotHeld(w, p);
    NextIdIsNew(w);
    var db := w.db;
    match e
    case Confirm(user, customer, account, key, meaning, admitted) =>
      PinSparesOthers(db, user, customer, account, key, meaning, admitted, p);
    case ClaimSend(caller, q, k, expected, request, clear, now) =>
      SendSparesOthers(db, caller, q, k, expected, request, clear, now, 0, p);
    case RecordNotSent(q, k, expected) => SendSparesOthers(db, 0, q, k, expected, Request(0, None), true, 0, 0, p);
    case RecordReceipt(q, k, expected, providerId) =>
      SendSparesOthers(db, 0, q, k, expected, Request(0, None), true, 0, providerId, p);
    case RecordPending(q, k, expected, conflict, failure, now) =>
      ReadSparesOthers(db, q, k, expected, conflict, failure, now, Created, expected, expected, None, p);
    case RecordChangedTerms(q, seenState, a, s) =>
      ReadSparesOthers(db, q, Agreement, a, false, None, 0, seenState, a, s, None, p);
    case RecordBinding(q, k, expected, providerId, observed, now) =>
      BindSparesOthers(db, q, k, expected, providerId, observed, now, p);
    case EscalateOverdue(q, k, seenFence, instant) =>
      ReadSparesOthers(db, q, k, NO_VIEW, false, None, instant, Created, NO_VIEW, NO_VIEW, seenFence, p);
    case _ =>
  }

  const NO_VIEW := OpView(Agreement, Pending, 0, None, None, None, None, false, None, None)

  /** Release needs every earlier grant of both operations to be proven unsent. */
  lemma ReleaseProvesNothingSentFrom(w: World, e: Event, p: Id)
    requires Inv(w) && p in w.db.intents && w.db.intents[p].state != FailedBeforeEffect
    requires p in Step(w, e).db.intents && Step(w, e).db.intents[p].state == FailedBeforeEffect
    ensures forall kind: Kind :: |LedgerOf(w, p, kind).grants| == |LedgerOf(w, p, kind).accepted|
    ensures forall f | f in w.effects :: w.issued[f].0 != p
  {
    hide Inv;
    NextIdIsNew(w);
    ReleaseStep(w, e, p);
    forall kind: Kind ensures |LedgerOf(w, p, kind).grants| == |LedgerOf(w, p, kind).accepted| {
      OperationFacts(w, p, kind);
    }
    HistoryOf(w);
    forall f | f in w.effects ensures w.issued[f].0 != p {
      EffectIsLive(w, f);
    }
  }

  predicate NotReleased(db: Db, db': Db, p: Id)
    requires p in db.intents
  {
    p in db'.intents && (db'.intents[p].state == FailedBeforeEffect ==> db.intents[p].state == FailedBeforeEffect)
  }

  lemma SendsDoNotRelease(db: Db, caller: Id, q: Id, kind: Kind, expected: OpView, request: Request, clear: bool,
                          now: int, providerId: int, p: Id)
    requires p in db.intents
    ensures NotReleased(db, Claim(db, caller, q, kind, expected, request, clear, now).0, p)
    ensures NotReleased(db, NotSent(db, q, kind, expected).0, p)
    ensures NotReleased(db, Receipt(db, q, kind, expected, providerId).0, p)
  {
    hide Claimable, RetryEvidence, Granted, AcceptsNotSent, View, Held;
  }

  lemma PutDoesNotRelease(db: Db, q: Id, kind: Kind, op: Op, state: IntentState, p: Id)
    requires p in db.intents && q in db.intents && state != FailedBeforeEffect
    ensures NotReleased(db, PutOp(db, q, kind, op, state), p)
  {
  }

  lemma DemotionDoesNotRelease(db: Db, q: Id, kind: Kind, conflict: bool, now: int, p: Id)
    requires p in db.intents && q in db.intents
    ensures NotReleased(db, Demoted(db, q, kind, conflict, now), p)
  {
    hide PutOp, Reviewed, Overdue;
    var op := db.intents[q].Get(kind);
    PutDoesNotRelease(db, q, kind, Reviewed(op, BindingConflict, db.nextId), IntentReview, p);
    PutDoesNotRelease(db, q, kind, Reviewed(op, OutcomeUnknown(kind), db.nextId), IntentReview, p);
    PutDoesNotRelease(db, q, kind, op, AwaitingResult, p);
    PutDoesNotRelease(db, q, kind, op.(state := if op.unknownSince.Some? then Unknown else Pending), AwaitingResult, p);
  }

  lemma BookkeepingDoesNotRelease(db: Db, q: Id, kind: Kind, failure: Option<Failure>, now: int, p: Id)
    requires p in db.intents && q in db.intents
    ensures NotReleased(db, Observed(db, q, kind, failure, now), p)
  {
    hide WithFailure, Rescheduled;
  }

  lemma ReadsDoNotRelease(db: Db, q: Id, kind: Kind, expected: OpView, conflict: bool, failure: Option<Failure>,
                          now: int, seenFence: Option<Id>, p: Id)
    requires p in db.intents
    ensures NotReleased(db, PendingRead(db, q, kind, expected, conflict, failure, now).0, p)
    ensures NotReleased(db, FinancialModel.Escalate(db, q, kind, seenFence, now), p)
  {
    hide Demoted, Observed, Overdue, Reviewed, PutOp;
    if q in db.intents {
      DemotionDoesNotRelease(db, q, kind, conflict, now, p);
      DemotionDoesNotRelease(db, q, kind, conflict, now, q);
      BookkeepingDoesNotRelease(Demoted(db, q, kind, conflict, now), q, kind, failure, now, p);
      PutDoesNotRelease(db, q, kind, Reviewed(db.intents[q].Get(kind), OutcomeUnknown(kind), db.nextId), IntentReview, p);
    }
  }

  lemma BindDoesNotRelease(db: Db, q: Id, kind: Kind, expected: OpView, providerId: int, observed: bool, now: int,
                      p: Id)
    requires p in db.intents
    ensures NotReleased(db, Bind(db, q, kind, expected, providerId, observed, now).0, p)
  {
    hide PendingRead, BindRefusal, BoundElsewhere, BoundOp;
    ReadsDoNotRelease(db, q, kind, expected, true, None, now, None, p);
  }

  lemma ReleaseStep(w: World, e: Event, p: Id)
    requires w.db.nextId !in w.db.intents
    requires p in w.db.intents && w.db.intents[p].state != FailedBeforeEffect
    requires p in Step(w, e).db.intents && Step(w, e).db.intents[p].state == FailedBeforeEffect
    ensures Unsent(w.db.intents[p].agreement) && Unsent(w.db.intents[p].subscription)
  {
    hide Claim, NotSent, Receipt, PendingRead, Bind, FinancialModel.Escalate, View, Unsent, Ambiguous, Held;
    var db := w.db;
    match e
    case ClaimSend(caller, q, k, expected, request, clear, now) =>
      SendsDoNotRelease(db, caller, q, k, expected, request, clear, now, 0, p);
    case RecordNotSent(q, k, expected) => SendsDoNotRelease(db, 0, q, k, expected, Request(0, None), true, 0, 0, p);
    case RecordReceipt(q, k, expected, providerId) =>
      SendsDoNotRelease(db, 0, q, k, expected, Request(0, None), true, 0, providerId, p);
    case RecordPending(q, k, expected, conflict, failure, now) =>
      ReadsDoNotRelease(db, q, k, expected, conflict, failure, now, None, p);
    case RecordBinding(q, k, expected, providerId, observed, now) =>
      BindDoesNotRelease(db, q, k, expected, providerId, observed, now, p);
    case EscalateOverdue(q, k, seenFence, instant) =>
      ReadsDoNotRelease(db, q, k, NO_VIEW, false, None, instant, seenFence, p);
    case _ =>
  }

  // ----- idempotent acceptance ---------------------------------------------

  lemma PinByKey(db: Db, p: Id, user: Id, customer: Id, account: Id, key: Id, meaning: Meaning, admitted: bool)
    requires KeysOk(db) && p in db.intents && SameRequest(db.intents[p], user, key)
    ensures Pin(db, user, customer, account, key, meaning, admitted)
            == (db, if db.intents[p].meaning == meaning then Ok(p) else Refused(IdempotencyConflict))
  {
    forall q | q in db.intents && q != p ensures !SameRequest(db.intents[q], user, key) {
      assert !SameRequest(db.intents[q], db.intents[p].user, db.intents[p].idempotencyKey);
    }
  }

  lemma PinCreates(w: World, user: Id, customer: Id, account: Id, key: Id, meaning: Meaning, admitted: bool)
    requires Inv(w) && Pin(w.db, user, customer, account, key, meaning, admitted).1.Ok?
    ensures var (db', reply) := Pin(w.db, user, customer, account, key, meaning, admitted);
            reply.value in db'.intents && SameRequest(db'.intents[reply.value], user, key)
            && db'.intents[reply.value].meaning == meaning
  {
    hide Inv;
  }

  lemma KeysOf(w: World)
    requires Inv(w)
    ensures KeysOk(w.db)
  {
  }

  /** After one successful confirm, every later confirm of the key returns that purchase or refuses, and inserts nothing. */
  lemma ConfirmOnce(w: World, user: Id, customer: Id, account: Id, key: Id, meaning: Meaning, admitted: bool,
                    events: seq<Event>, customer': Id, account': Id, meaning': Meaning, admitted': bool)
    requires Inv(w) && Pin(w.db, user, customer, account, key, meaning, admitted).1.Ok?
    ensures var first := Pin(w.db, user, customer, account, key, meaning, admitted);
            var later := Run(w.(db := first.0), events);
            Pin(later.db, user, customer', account', key, meaning', admitted')
            == (later.db, if meaning' == meaning then first.1 else Refused(IdempotencyConflict))
  {
    hide Inv, Run, Pin;
    var first := Pin(w.db, user, customer, account, key, meaning, admitted);
    var w1 := w.(db := first.0);
    PinKeeps(w, user, customer, account, key, meaning, admitted);
    PinCreates(w, user, customer, account, key, meaning, admitted);
    RunKeeps(w1, events);
    KeysOf(Run(w1, events));
    EvidenceIsPermanent(w1, events, first.1.value, Agreement);
    PinByKey(Run(w1, events).db, first.1.value, user, customer', account', key, meaning', admitted');
  }

  // ----- linked purchases --------------------------------------------------

  lemma LinkedIsProven(events: seq<Event>, p: Id)
    requires var db := Run(START, events).db; p in db.intents && db.intents[p].state == Linked
    ensures var db := Run(START, events).db;
            var row := db.intents[p];
            Held(db, p) && row.agreement.state == Bound && row.subscription.state == Bound
            && p in db.subs
            && row.agreement.bound == Some(db.subs[p].agreement)
            && row.subscription.bound == Some(db.subs[p].subscription)
  {
    hide Inv, Run;
    ReachableInv(events);
    LinkedFacts(Run(START, events), p);
  }

  lemma LinkedFacts(w: World, p: Id)
    requires Inv(w) && p in w.db.intents && w.db.intents[p].state == Linked
    ensures var row := w.db.intents[p];
            Held(w.db, p) && row.agreement.state == Bound && row.subscription.state == Bound && p in w.db.subs
            && row.agreement.bound == Some(w.db.subs[p].agreement)
            && row.subscription.bound == Some(w.db.subs[p].subscription)
    ensures !BoundElsewhere(w.db, p, Agreement, w.db.intents[p].agreement.bound.value)
    ensures !BoundElsewhere(w.db, p, Subscription, w.db.intents[p].subscription.bound.value)
  {
    hide Inv;
    OperationFacts(w, p, Agreement);
    OperationFacts(w, p, Subscription);
    HeldUnlessReleased(w, p);
    BoundOnce(w, p, Agreement);
    BoundOnce(w, p, Subscription);
  }

  lemma BoundOnce(w: World, p: Id, kind: Kind)
    requires Inv(w) && p in w.db.intents && w.db.intents[p].Get(kind).bound.Some?
    ensures !BoundElsewhere(w.db, p, kind, w.db.intents[p].Get(kind).bound.value)
  {
    hide PurchaseOk, ScopesOk, KeysOk, IssuedOk;
  }

  predicate SameAdmission(row: Intent, row': Intent) {
    && AdmissionSnapshot(View(Agreement, row'.agreement, false)) == AdmissionSnapshot(View(Agreement, row.agreement, false))
    && AdmissionSnapshot(View(Subscription, row'.subscription, false))
       == AdmissionSnapshot(View(Subscription, row.subscription, false))
  }

  predicate IsConflict(e: Event, p: Id) {
    e.RecordPending? && e.p == p && e.conflict
  }

  /** The rows of a linked purchase, as far as the next transactions depend on them. */
  ghost predicate LinkedRow(db: Db, p: Id) {
    && p in db.intents && Held(db, p) && p in db.subs
    && var row := db.intents[p];
       row.state == Linked && row.agreement.state == Bound && row.subscription.state == Bound
       && row.agreement.bound == Some(db.subs[p].agreement)
       && row.subscription.bound == Some(db.subs[p].subscription)
       && !BoundElsewhere(db, p, Agreement, row.agreement.bound.value)
       && !BoundElsewhere(db, p, Subscription, row.subscription.bound.value)
  }

  lemma LinkedOwnPending(db: Db, kind: Kind, expected: OpView, conflict: bool, failure: Option<Failure>, now: int,
                      p: Id)
    requires LinkedRow(db, p)
    ensures var db' := PendingRead(db, p, kind, expected, conflict, failure, now).0;
            p in db'.intents
            && (if conflict && db'.intents[p] != db.intents[p] then db'.intents[p].state == IntentReview
                else db'.intents[p].state == Linked && SameAdmission(db.intents[p], db'.intents[p]))
  {
    hide BoundElsewhere, Overdue;
  }

  lemma LinkedPending(db: Db, q: Id, kind: Kind, expected: OpView, conflict: bool, failure: Option<Failure>, now: int,
                      p: Id)
    requires LinkedRow(db, p)
    ensures var db' := PendingRead(db, q, kind, expected, conflict, failure, now).0;
            p in db'.intents
            && (if conflict && p == q && db'.intents[p] != db.intents[p] then db'.intents[p].state == IntentReview
                else db'.intents[p].state == Linked && SameAdmission(db.intents[p], db'.intents[p]))
  {
    hide PendingRead, BoundElsewhere;
    if q == p {
      LinkedOwnPending(db, kind, expected, conflict, failure, now, p);
    } else {
      PendingOfOther(db, q, kind, expected, conflict, failure, now, p);
    }
  }

  lemma LinkedRebind(db: Db, kind: Kind, expected: OpView, providerId: int, observed: bool, now: int, p: Id)
    requires LinkedRow(db, p)
    ensures var db' := Bind(db, p, kind, expected, providerId, observed, now).0;
            p in db'.intents && db'.intents[p].state == Linked && SameAdmission(db.intents[p], db'.intents[p])
  {
    hide BoundElsewhere, Overdue, PendingRead, AuditRequired;
  }

  lemma BindElsewhere(db: Db, q: Id, kind: Kind, expected: OpView, providerId: int, observed: bool, now: int, p: Id)
    requires p in db.intents && q != p
    requires q in db.intents && BoundElsewhere(db, q, kind, providerId) ==>
               p in PendingRead(db, q, kind, expected, true, None, now).0.intents
               && PendingRead(db, q, kind, expected, true, None, now).0.intents[p] == db.intents[p]
    ensures var db' := Bind(db, q, kind, expected, providerId, observed, now).0;
            p in db'.intents && db'.intents[p] == db.intents[p]
  {
    hide BoundElsewhere, Overdue, PendingRead, BindRefusal, BoundOp, BoundState;
  }

  lemma PendingOfOther(db: Db, q: Id, kind: Kind, expected: OpView, conflict: bool, failure: Option<Failure>, now: int,
                      p: Id)
    requires p in db.intents && q != p
    ensures var db' := PendingRead(db, q, kind, expected, conflict, failure, now).0;
            p in db'.intents && db'.intents[p] == db.intents[p]
  {
    hide Overdue, WithFailure, Rescheduled, Reviewed;
  }

  lemma LinkedBind(db: Db, q: Id, kind: Kind, expected: OpView, providerId: int, observed: bool, now: int, p: Id)
    requires LinkedRow(db, p)
    ensures var db' := Bind(db, q, kind, expected, providerId, observed, now).0;
            p in db'.intents && db'.intents[p].state == Linked && SameAdmission(db.intents[p], db'.intents[p])
  {
    hide Bind, PendingRead, BoundElsewhere;
    if q != p {
      PendingOfOther(db, q, kind, expected, true, None, now, p);
      BindElsewhere(db, q, kind, expected, providerId, observed, now, p);
    } else {
      LinkedRebind(db, kind, expected, providerId, observed, now, p);
    }
  }

  lemma LinkedClaim(db: Db, caller: Id, q: Id, kind: Kind, expected: OpView, request: Request, clear: bool, now: int,
                    p: Id)
    requires LinkedRow(db, p)
    ensures KeepsRow(db, Claim(db, caller, q, kind, expected, request, clear, now).0, p)
  {
    hide BoundElsewhere, RetryEvidence, Granted, View;
  }

  lemma LinkedRecords(db: Db, q: Id, kind: Kind, expected: OpView, providerId: int, p: Id)
    requires LinkedRow(db, p)
    ensures KeepsRow(db, NotSent(db, q, kind, expected).0, p)
    ensures KeepsRow(db, Receipt(db, q, kind, expected, providerId).0, p)
  {
    hide BoundElsewhere;
  }

  lemma LinkedEscalation(db: Db, q: Id, kind: Kind, seenFence: Option<Id>, instant: int, p: Id)
    requires LinkedRow(db, p)
    ensures KeepsRow(db, FinancialModel.Escalate(db, q, kind, seenFence, instant), p)
  {
    hide BoundElsewhere, Overdue;
  }

  predicate KeepsRow(db: Db, db': Db, p: Id)
    requires p in db.intents
  {
    p in db'.intents && db'.intents[p] == db.intents[p]
  }

  lemma LinkedTerms(db: Db, q: Id, seenState: IntentState, a: OpView, s: OpView, p: Id)
    requires LinkedRow(db, p)
    ensures var db' := ChangedTerms(db, q, seenState, a, s).0; p in db'.intents && db'.intents[p] == db.intents[p]
  {
    hide BoundElsewhere, View;
  }

  /** On a linked purchase every event but a conflict keeps the state and the admission snapshots a payment rechecks. */
  lemma LinkedStaysProvenFrom(w: World, e: Event, p: Id)
    requires Inv(w) && p in w.db.intents && w.db.intents[p].state == Linked
    ensures var db' := Step(w, e).db;
            p in db'.intents
            && (if IsConflict(e, p) && db'.intents[p] != w.db.intents[p] then db'.intents[p].state == IntentReview
                else db'.intents[p].state == Linked && SameAdmission(w.db.intents[p], db'.intents[p]))
  {
    hide Inv, Pin, Claim, NotSent, Receipt, PendingRead, ChangedTerms, Bind, FinancialModel.Escalate, BoundElsewhere, View;
    LinkedFacts(w, p);
    assert LinkedRow(w.db, p);
    hide LinkedRow;
    match e
    case Confirm(user, customer, account, key, meaning, admitted) =>
      NextIdIsNew(w);
      PinSparesOthers(w.db, user, customer, account, key, meaning, admitted, p);
    case ClaimSend(caller, q, kind, expected, request, clear, now) =>
      LinkedClaim(w.db, caller, q, kind, expected, request, clear, now, p);
    case RecordNotSent(q, kind, expected) => LinkedRecords(w.db, q, kind, expected, 0, p);
    case RecordReceipt(q, kind, expected, providerId) => LinkedRecords(w.db, q, kind, expected, providerId, p);
    case RecordPending(q, kind, expected, conflict, failure, now) =>
      LinkedPending(w.db, q, kind, expected, conflict, failure, now, p);
    case RecordChangedTerms(q, seenState, a, s) => LinkedTerms(w.db, q, seenState, a, s, p);
    case RecordBinding(q, kind, expected, providerId, observed, now) =>
      LinkedBind(w.db, q, kind, expected, providerId, observed, now, p);
    case EscalateOverdue(q, kind, seenFence, instant) =>
      LinkedEscalation(w.db, q, kind, seenFence, instant, p);
    case _ =>
  }

  // ----- the payment recheck -----------------------------------------------

  /** A fence is kept, or replaced by a value that no row or driver has seen. */
  predicate FencesMove(db: Db, db': Db, p: Id, kind: Kind)
    requires p in db.intents
  {
    && p in db'.intents && db.nextId <= db'.nextId
    && var f, f' := db.intents[p].Get(kind).fence, db'.intents[p].Get(kind).fence;
       f' == f || (f'.Some? && db.nextId <= f'.value)
  }

  lemma PutFences(db: Db, q: Id, k: Kind, op: Op, state: IntentState, n: nat, p: Id, kind: Kind)
    requires p in db.intents && q in db.intents
    requires op.fence == db.intents[q].Get(k).fence || op.fence == Some(db.nextId)
    ensures FencesMove(db, PutOp(db, q, k, op, state).(nextId := db.nextId + n), p, kind)
  {
  }

  lemma SendFences(db: Db, caller: Id, q: Id, k: Kind, expected: OpView, request: Request, clear: bool, now: int,
                   providerId: int, p: Id, kind: Kind)
    requires p in db.intents
    ensures FencesMove(db, Claim(db, caller, q, k, expected, request, clear, now).0, p, kind)
    ensures FencesMove(db, NotSent(db, q, k, expected).0, p, kind)
    ensures FencesMove(db, Receipt(db, q, k, expected, providerId).0, p, kind)
  {
    assert FencesMove(db, db, p, kind) by { KeptFences(db, p, kind); }
    hide Claimable, RetryEvidence, View, FencesMove;
    if Held(db, q) {
      var row := db.intents[q];
      var op := row.Get(k);
      PutFences(db, q, k, Granted(op, q, request, row.meaning.fingerprint, db.nextId, now), Preparing, 1, p, kind);
      if AcceptsNotSent(row, op, expected) {
        var op' := op.(state := ProvenNotSent, fence := Some(db.nextId),
                       work := Some(op.work.value.(done := true, lastFailure := Some(NotSentFailure))));
        PutFences(db, q, k, op', Preparing, 1, p, kind);
      }
      if op.work.Some? {
        var received := op.(work := Some(op.work.value.(candidate := Some(providerId))));
        PutFences(db, q, k, received, row.state, 0, p, kind);
        assert PutOp(db, q, k, received, row.state).(nextId := db.nextId + 0) == PutOp(db, q, k, received, row.state);
      }
    }
  }

  lemma DemotedFences(db: Db, q: Id, k: Kind, conflict: bool, now: int, p: Id, kind: Kind)
    requires p in db.intents && q in db.intents
    ensures FencesMove(db, Demoted(db, q, k, conflict, now), p, kind)
    ensures q in Demoted(db, q, k, conflict, now).intents
  {
    hide Overdue;
  }

  lemma ObservedFences(db: Db, mid: Db, q: Id, k: Kind, failure: Option<Failure>, now: int, p: Id, kind: Kind)
    requires p in db.intents && q in mid.intents && FencesMove(db, mid, p, kind)
    ensures FencesMove(db, Observed(mid, q, k, failure, now), p, kind)
  {
  }

  lemma PendingFences(db: Db, q: Id, k: Kind, expected: OpView, conflict: bool, failure: Option<Failure>, now: int,
                      p: Id, kind: Kind)
    requires p in db.intents
    ensures FencesMove(db, PendingRead(db, q, k, expected, conflict, failure, now).0, p, kind)
  {
    hide Demoted, Observed, FencesMove;
    assert FencesMove(db, db, p, kind) by { KeptFences(db, p, kind); }
    if Held(db, q) {
      DemotedFences(db, q, k, conflict, now, p, kind);
      ObservedFences(db, Demoted(db, q, k, conflict, now), q, k, failure, now, p, kind);
    }
  }

  lemma BindFences(db: Db, q: Id, k: Kind, expected: OpView, providerId: int, observed: bool, now: int, p: Id,
                   kind: Kind)
    requires p in db.intents
    ensures FencesMove(db, Bind(db, q, k, expected, providerId, observed, now).0, p, kind)
  {
    PendingFences(db, q, k, expected, true, None, now, p, kind);
    hide BindRefusal, BoundElsewhere, PendingRead, BoundState;
  }

  lemma FenceStep(w: World, e: Event, p: Id, kind: Kind)
    requires p in w.db.intents && w.db.nextId !in w.db.intents
    ensures FencesMove(w.db, Step(w, e).db, p, kind)
  {
    hide Claim, NotSent, Receipt, PendingRead, Bind, Ambiguous, View, Unsent, FencesMove;
    var db := w.db;
    assert FencesMove(db, db, p, kind) by { KeptFences(db, p, kind); }
    match e
    case Confirm(user, customer, account, key, meaning, admitted) =>
      PinFences(db, user, customer, account, key, meaning, admitted, p, kind);
    case ClaimSend(caller, q, k, expected, request, clear, now) =>
      SendFences(db, caller, q, k, expected, request, clear, now, 0, p, kind);
    case RecordNotSent(q, k, expected) => SendFences(db, 0, q, k, expected, Request(0, None), true, 0, 0, p, kind);
    case RecordReceipt(q, k, expected, providerId) =>
      SendFences(db, 0, q, k, expected, Request(0, None), true, 0, providerId, p, kind);
    case RecordPending(q, k, expected, conflict, failure, now) =>
      PendingFences(db, q, k, expected, conflict, failure, now, p, kind);
    case RecordChangedTerms(q, seenState, a, s) => ReviewFences(db, q, seenState, a, s, p, kind);
    case RecordBinding(q, k, expected, providerId, observed, now) =>
      BindFences(db, q, k, expected, providerId, observed, now, p, kind);
    case EscalateOverdue(q, k, seenFence, instant) => EscalateFences(db, q, k, seenFence, instant, p, kind);
    case _ =>
  }

  lemma KeptFences(db: Db, p: Id, kind: Kind)
    requires p in db.intents
    ensures FencesMove(db, db, p, kind)
  {
  }

  lemma PinFences(db: Db, user: Id, customer: Id, account: Id, key: Id, meaning: Meaning, admitted: bool, p: Id,
                  kind: Kind)
    requires p in db.intents && db.nextId !in db.intents
    ensures FencesMove(db, Pin(db, user, customer, account, key, meaning, admitted).0, p, kind)
  {
    hide Ambiguous;
  }

  lemma ReviewFences(db: Db, q: Id, seenState: IntentState, a: OpView, s: OpView, p: Id, kind: Kind)
    requires p in db.intents
    ensures FencesMove(db, ChangedTerms(db, q, seenState, a, s).0, p, kind)
  {
    hide View, Unsent;
  }

  lemma EscalateFences(db: Db, q: Id, k: Kind, seenFence: Option<Id>, instant: int, p: Id, kind: Kind)
    requires p in db.intents
    ensures FencesMove(db, FinancialModel.Escalate(db, q, k, seenFence, instant), p, kind)
  {
    hide Overdue;
  }

  lemma {:induction false} FenceNeverReturns(w: World, events: seq<Event>, p: Id, kind: Kind, fence: Id)
    requires Inv(w) && p in w.db.intents && fence < w.db.nextId && w.db.intents[p].Get(kind).fence != Some(fence)
    ensures var db' := Run(w, events).db; p in db'.intents && db'.intents[p].Get(kind).fence != Some(fence)
    decreases |events|
  {
    hide Inv, Step;
    if events != [] {
      NextIdIsNew(w);
      FenceStep(w, events[0], p, kind);
      StepKeeps(w, events[0]);
      FenceNeverReturns(Step(w, events[0]), events[1..], p, kind, fence);
    }
  }

  lemma LinkedFence(w: World, p: Id, kind: Kind)
    requires Inv(w) && p in w.db.intents && w.db.intents[p].state == Linked
    ensures w.db.intents[p].Get(kind).fence.Some? && w.db.intents[p].Get(kind).fence.value < w.db.nextId
  {
    OperationFacts(w, p, kind);
    LinkedFacts(w, p);
  }

  lemma PendingMovesFence(db: Db, q: Id, kind: Kind, expected: OpView, conflict: bool, failure: Option<Failure>,
                      now: int, p: Id)
    requires LinkedRow(db, p)
    ensures var db' := PendingRead(db, q, kind, expected, conflict, failure, now).0;
            p in db'.intents
            && (db'.intents[p].state != Linked ==> db'.intents[p].Get(kind).fence == Some(db.nextId))
  {
    hide BoundElsewhere, Overdue;
    if q == p { assert db.intents[q].Get(kind).state == Bound; }
  }

  /** A conflict review on a linked purchase replaces the fence of the operation it concerns. */
  lemma ConflictMovesFence(w: World, e: Event, p: Id)
    requires Inv(w) && p in w.db.intents && w.db.intents[p].state == Linked
    requires p in Step(w, e).db.intents && Step(w, e).db.intents[p].state != Linked
    ensures e.RecordPending?
            && Step(w, e).db.intents[p].Get(e.kind).fence == Some(w.db.nextId)
  {
    hide Inv, Step, PendingRead, SameAdmission;
    LinkedStaysProvenFrom(w, e, p);
    LinkedFacts(w, p);
    assert LinkedRow(w.db, p);
    hide LinkedRow;
    PendingMovesFence(w.db, e.p, e.kind, e.expected, e.conflict, e.failure, e.now, p);
    PendingStep(w, e);
  }

  lemma PendingStep(w: World, e: Event)
    requires e.RecordPending?
    ensures Step(w, e).db == PendingRead(w.db, e.p, e.kind, e.expected, e.conflict, e.failure, e.now).0
  {
    hide PendingRead;
  }

  /** The first events of a run are its first event and the first of the others. */
  lemma FirstOfRun(w: World, events: seq<Event>, k: nat)
    requires 0 < k <= |events|
    ensures Run(w, events[..k]) == Run(Step(w, events[0]), events[1..][..k - 1])
  {
    hide Step;
    var front, rest := events[..k], events[1..][..k - 1];
    assert front[1..] == rest by {
      assert |front[1..]| == |rest|;
      forall i | 0 <= i < k - 1 ensures front[1..][i] == rest[i] {
        assert front[1..][i] == events[i + 1];
      }
    }
  }

  /**
   The last check before a payment covers the whole time since the snapshot: a purchase found LINKED
   with the same admission snapshots was LINKED, with them, after every step in between.
   */
  lemma {:induction false} PaymentRecheckCoversTheWholeRunFrom(w: World, events: seq<Event>, k: nat, p: Id)
    requires Inv(w) && p in w.db.intents && w.db.intents[p].state == Linked && k <= |events|
    requires p in Run(w, events).db.intents && SameAdmission(w.db.intents[p], Run(w, events).db.intents[p])
    ensures var between := Run(w, events[..k]).db;
            p in between.intents && between.intents[p].state == Linked
                && SameAdmission(w.db.intents[p], between.intents[p])
    decreases |events|
  {
    hide Inv, Step;
    if k == 0 {
      assert events[..0] == [];
    } else {
      var w1 := Step(w, events[0]);
      LinkedStaysProvenFrom(w, events[0], p);
      StepKeeps(w, events[0]);
      if w1.db.intents[p].state != Linked {
        ConflictMovesFence(w, events[0], p);
        LinkedFence(w, p, events[0].kind);
        NextIdIsNew(w);
        FenceStep(w, events[0], p, events[0].kind);
        FenceNeverReturns(w1, events[1..], p, events[0].kind, w.db.intents[p].Get(events[0].kind).fence.value);
      }
      PaymentRecheckCoversTheWholeRunFrom(w1, events[1..], k - 1, p);
      FirstOfRun(w, events, k);
    }
  }

  // ----- the same, over reachable states -----------------------------------

  /** Only an accepted typed no-send result makes an operation claimable again. */
  lemma OnlyNotSentReopens(events: seq<Event>, e: Event, p: Id, kind: Kind)
    requires p in Run(START, events).db.intents && !MayStillBeClaimed(Run(START, events).db.intents[p].Get(kind))
    requires !e.RecordNotSent?
    ensures var db' := Step(Run(START, events), e).db;
            p in db'.intents && !MayStillBeClaimed(db'.intents[p].Get(kind))
  {
    hide Inv, Run, Step;
    ReachableInv(events);
    OnlyNotSentReopensFrom(Run(START, events), e, p, kind);
  }

  /** In every reachable state every event passes the trigger and the column checks of the operation table. */
  lemma GuardNeverFires(events: seq<Event>, e: Event, p: Id, kind: Kind)
    requires p in Run(START, events).db.intents
    ensures var db, db' := Run(START, events).db, Step(Run(START, events), e).db;
            p in db'.intents && SamePurchase(db.intents[p], db'.intents[p])
            && GuardAllows(db.intents[p].Get(kind), db'.intents[p].Get(kind))
            && ColumnsOk(db'.intents[p].Get(kind))
  {
    hide Inv, Run, Step, SamePurchase, GuardAllows, ColumnsOk;
    ReachableInv(events);
    GuardNeverFiresFrom(Run(START, events), e, p, kind);
  }

  /** A released purchase never changes again. */
  lemma ReleasedIsFrozen(events: seq<Event>, e: Event, p: Id)
    requires p in Run(START, events).db.intents && Run(START, events).db.intents[p].state == FailedBeforeEffect
    ensures var db, db' := Run(START, events).db, Step(Run(START, events), e).db;
            p in db'.intents && db'.intents[p] == db.intents[p] && SubOf(db', p) == SubOf(db, p)
  {
    hide Inv, Run, Step;
    ReachableInv(events);
    ReleasedIsFrozenFrom(Run(START, events), e, p);
  }

  /** A release needs every earlier grant of both operations to be proven unsent; nothing of it takes effect. */
  lemma ReleaseProvesNothingSent(events: seq<Event>, e: Event, p: Id)
    requires var w := Run(START, events);
             p in w.db.intents && w.db.intents[p].state != FailedBeforeEffect
             && p in Step(w, e).db.intents && Step(w, e).db.intents[p].state == FailedBeforeEffect
    ensures var w := Run(START, events);
            && (forall kind: Kind :: |LedgerOf(w, p, kind).grants| == |LedgerOf(w, p, kind).accepted|)
            && (forall f | f in w.effects :: f in w.issued && w.issued[f].0 != p)
  {
    hide Inv, Run, Step;
    ReachableInv(events);
    HistoryOf(Run(START, events));
    ReleaseProvesNothingSentFrom(Run(START, events), e, p);
  }

  /** On a linked purchase every event but a conflict keeps the state and the admission snapshots a payment rechecks. */
  lemma LinkedStaysProven(events: seq<Event>, e: Event, p: Id)
    requires p in Run(START, events).db.intents && Run(START, events).db.intents[p].state == Linked
    ensures var db, db' := Run(START, events).db, Step(Run(START, events), e).db;
            p in db'.intents
            && (if IsConflict(e, p) && db'.intents[p] != db.intents[p] then db'.intents[p].state == IntentReview
                else db'.intents[p].state == Linked && SameAdmission(db.intents[p], db'.intents[p]))
  {
    hide Inv, Run, Step, SameAdmission, IsConflict;
    ReachableInv(events);
    LinkedStaysProvenFrom(Run(START, events), e, p);
  }

  /**
   The last check before a payment covers the whole time since the snapshot: a purchase found LINKED
   with the same admission snapshots was LINKED, with them, after every step in between.
   */
  lemma PaymentRecheckCoversTheWholeRun(earlier: seq<Event>, events: seq<Event>, k: nat, p: Id)
    requires var w := Run(START, earlier);
             && p in w.db.intents && w.db.intents[p].state == Linked && k <= |events|
             && p in Run(w, events).db.intents && SameAdmission(w.db.intents[p], Run(w, events).db.intents[p])
    ensures var w := Run(START, earlier);
            var between := Run(w, events[..k]).db;
            p in between.intents && between.intents[p].state == Linked
                && SameAdmission(w.db.intents[p], between.intents[p])
  {
    hide Inv, Run, SameAdmission;
    ReachableInv(earlier);
    PaymentRecheckCoversTheWholeRunFrom(Run(START, earlier), events, k, p);
  }
}
