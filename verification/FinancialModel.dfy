/**
 Financial create protocol: one purchase owns one AGREEMENT and one SUBSCRIPTION
 create operation.  Every database function takes the user lock, so each is one
 step on the committed rows; the step functions below give the new rows and the
 reply.  Identifiers written by uuid4() are drawn from the counter `nextId`.
 */
module FinancialModel {
  import opened FinancialKinds
  import opened Options

  type Id = nat

  const RECOVERY_WINDOW := 7200  // two hours, in seconds

  datatype OpState = Pending | PossibleSend | Unknown | ProvenNotSent | Bound | ManualReview

  datatype IntentState = Created | Preparing | AwaitingResult | Linked | FailedBeforeEffect | IntentReview

  datatype Reason = OutcomeUnknown(kind: Kind) | BindingConflict | TermsChangedAfterPreparation

  /** The request document of one CREATE; the agreement one carries its date. */
  datatype Request = Request(content: nat, createDate: Option<int>)

  datatype Failure = NotSentFailure | SourceFailure(code: nat)

  /** Hint document retained from the first send. */
  datatype Hint = Hint(request: Request, purchase: Id, fingerprint: nat)

  datatype Work = Work(
    done: bool,
    activeDeadline: Option<int>,
    nextAttempt: int,
    attempts: nat,
    candidate: Option<int>,
    lastFailure: Option<Failure>)

  datatype Op = Op(
    key: Id,
    state: OpState,
    fence: Option<Id>,
    unknownSince: Option<int>,
    unknownDeadline: Option<int>,
    hint: Option<Hint>,
    bound: Option<int>,
    work: Option<Work>,
    openReviews: set<Reason>)

  /** What the buyer confirmed: the product and a digest of its exact terms. */
  datatype Meaning = Meaning(product: Id, fingerprint: nat)

  datatype Intent = Intent(
    user: Id,
    product: Id,
    customer: Id,
    account: Id,
    idempotencyKey: Id,
    meaning: Meaning,
    state: IntentState,
    agreement: Op,
    subscription: Op)
  {
    function Get(kind: Kind): Op {
      if kind.Agreement? then agreement else subscription
    }

    function With(kind: Kind, op: Op): Intent {
      if kind.Agreement? then this.(agreement := op) else this.(subscription := op)
    }

    function Scope(): (Id, Id) {
      (user, product)
    }
  }

  /** The local ExternalSubscription row. */
  datatype Sub = Sub(subscription: int, agreement: int)

  datatype Db = Db(
    intents: map<Id, Intent>,
    holds: map<(Id, Id), Id>,
    subs: map<Id, Sub>,
    nextId: Id)

  const EMPTY_DB := Db(map[], map[], map[], 0)

  /** What a driver keeps of an operation between transactions. */
  datatype OpView = OpView(
    kind: Kind,
    state: OpState,
    key: Id,
    fence: Option<Id>,
    bound: Option<int>,
    candidate: Option<int>,
    deadline: Option<int>,
    maySend: bool,
    lastFailure: Option<Failure>,
    createDate: Option<int>)

  datatype Refusal =
    | PurchaseNotFound
    | ScopeReleased
    | ScopeOccupied
    | IdempotencyConflict
    | AdmissionRefused
    | PurchasePending
    | HistoryUnproven
    | ReviewRequired
    | IdentityUnproven

  datatype Reply<+T> = Ok(value: T) | Refused(reason: Refusal)

  // ----- shared reads ------------------------------------------------------

  function RecoveryDeadline(op: Op): Option<int> {
    if op.work.Some? && op.work.value.activeDeadline.Some?
    then op.work.value.activeDeadline
    else op.unknownDeadline
  }

  predicate Overdue(op: Op, now: int) {
    RecoveryDeadline(op).Some? && RecoveryDeadline(op).value <= now
  }

  function View(kind: Kind, op: Op, maySend: bool): OpView {
    OpView(kind, op.state, op.key, op.fence, op.bound,
           if op.work.Some? then op.work.value.candidate else None,
           RecoveryDeadline(op), maySend,
           if op.work.Some? then op.work.value.lastFailure else None,
           if kind.Agreement? && op.hint.Some? then op.hint.value.request.createDate else None)
  }

  /** Every field of a view except the mutable failure observations. */
  function AdmissionSnapshot(view: OpView): OpView {
    view.(lastFailure := None)
  }

  predicate Held(db: Db, p: Id) {
    p in db.intents
    && db.intents[p].Scope() in db.holds
    && db.holds[db.intents[p].Scope()] == p
  }

  function LockRefusal(db: Db, p: Id): Refusal {
    if p in db.intents then ScopeReleased else PurchaseNotFound
  }

  function PutOp(db: Db, p: Id, kind: Kind, op: Op, state: IntentState): Db
    requires p in db.intents
  {
    db.(intents := db.intents[p := db.intents[p].With(kind, op).(state := state)])
  }

  // ----- acceptance --------------------------------------------------------

  predicate SameRequest(row: Intent, user: Id, key: Id) {
    row.user == user && row.idempotencyKey == key
  }

  ghost predicate Ambiguous(db: Db, user: Id, key: Id) {
    exists p, q :: p in db.intents && q in db.intents && p != q
      && SameRequest(db.intents[p], user, key) && SameRequest(db.intents[q], user, key)
  }

  function NewOp(key: Id): Op {
    Op(key, Pending, None, None, None, None, None, None, {})
  }

  /** Rows inserted by one successful acceptance. */
  function Inserted(db: Db, user: Id, customer: Id, account: Id, key: Id, meaning: Meaning): Db {
    var p := db.nextId;
    Db(db.intents[p := Intent(user, meaning.product, customer, account, key, meaning, Created,
                              NewOp(p + 1), NewOp(p + 2))],
       db.holds[(user, meaning.product) := p],
       db.subs,
       db.nextId + 3)
  }

  /** pin_purchase: `admitted` stands for the head, document and customer checks made under the locks. */
  ghost function Pin(db: Db, user: Id, customer: Id, account: Id, key: Id, meaning: Meaning, admitted: bool)
    : (Db, Reply<Id>)
  {
    if Ambiguous(db, user, key) then (db, Refused(IdempotencyConflict))
    else if p :| p in db.intents && SameRequest(db.intents[p], user, key) then
      (db, if db.intents[p].meaning != meaning then Refused(IdempotencyConflict) else Ok(p))
    else if (user, meaning.product) in db.holds then (db, Refused(ScopeOccupied))
    else if !admitted then (db, Refused(AdmissionRefused))
    else (Inserted(db, user, customer, account, key, meaning), Ok(db.nextId))
  }

  // ----- sending -----------------------------------------------------------

  predicate Claimable(row: Intent, op: Op, expected: OpView) {
    && row.state != IntentReview
    && op.state in {Pending, ProvenNotSent}
    && op.fence == expected.fence
    && op.bound.None?
    && (op.state == Pending ==> op.unknownSince.None?)
  }

  predicate RetryEvidence(op: Op, request: Request) {
    && op.unknownSince.Some?
    && op.hint.Some? && op.hint.value.request == request
    && op.work.Some? && op.work.value.candidate.None?
  }

  function Granted(op: Op, p: Id, request: Request, fingerprint: nat, fence: Id, now: int): Op {
    var sent := op.(
      fence := Some(fence),
      state := PossibleSend,
      work := Some(match op.work
                   case None => Work(false, Some(now + RECOVERY_WINDOW), now + RECOVERY_WINDOW, 1, None, None)
                   case Some(w) => w.(done := false,
                                      activeDeadline := Some(now + RECOVERY_WINDOW),
                                      nextAttempt := now + RECOVERY_WINDOW,
                                      attempts := w.attempts + 1)));
    if op.state == ProvenNotSent then sent
    else sent.(unknownSince := Some(now),
               unknownDeadline := Some(now + RECOVERY_WINDOW),
               hint := Some(Hint(request, p, fingerprint)))
  }

  /** claim_financial: the only step whose reply permits a POST. */
  function Claim(db: Db, caller: Id, p: Id, kind: Kind, expected: OpView, request: Request,
                 customerClear: bool, now: int): (Db, Reply<OpView>)
  {
    if p !in db.intents || db.intents[p].user != caller then (db, Refused(PurchaseNotFound))
    else if !Held(db, p) then (db, Refused(ScopeReleased))
    else
      var row := db.intents[p];
      var op := row.Get(kind);
      if !Claimable(row, op, expected) then (db, Ok(View(kind, op, false)))
      else if !customerClear then (db, Refused(IdentityUnproven))
      else if op.state == ProvenNotSent && !RetryEvidence(op, request) then (db, Refused(HistoryUnproven))
      else if kind.Subscription? && row.agreement.state != Bound then (db, Refused(PurchasePending))
      else
        var op' := Granted(op, p, request, row.meaning.fingerprint, db.nextId, now);
        (PutOp(db, p, kind, op', Preparing).(nextId := db.nextId + 1), Ok(View(kind, op', true)))
  }

  predicate AcceptsNotSent(row: Intent, op: Op, expected: OpView) {
    && expected.maySend
    && expected.fence.Some?
    && op.fence == expected.fence
    && op.state in {PossibleSend, Unknown}
    && op.bound.None?
    && op.unknownSince.Some? && op.hint.Some?
    && op.work.Some? && op.work.value.candidate.None?
    && row.state != IntentReview
  }

  /** proven_not_sent: a typed no-send result returns the operation to the claimable states. */
  function NotSent(db: Db, p: Id, kind: Kind, expected: OpView): (Db, Reply<()>)
  {
    if !Held(db, p) then (db, Refused(LockRefusal(db, p)))
    else
      var row := db.intents[p];
      var op := row.Get(kind);
      if !AcceptsNotSent(row, op, expected) then (db, Ok(()))
      else
        var op' := op.(state := ProvenNotSent,
                       fence := Some(db.nextId),
                       work := Some(op.work.value.(done := true, lastFailure := Some(NotSentFailure))));
        (PutOp(db, p, kind, op', Preparing).(nextId := db.nextId + 1), Ok(()))
  }

  /** record_receipt: keeps the POST candidate; this is not a binding. */
  function Receipt(db: Db, p: Id, kind: Kind, expected: OpView, providerId: int): (Db, Reply<()>)
  {
    if !Held(db, p) then (db, Refused(LockRefusal(db, p)))
    else
      var row := db.intents[p];
      var op := row.Get(kind);
      if op.fence != expected.fence || !expected.maySend || op.state !in {PossibleSend, Unknown}
      then (db, Refused(PurchasePending))
      else if op.work.None? || op.work.value.candidate !in {None, Some(providerId)}
      then (db, Refused(ReviewRequired))
      else
        var op' := op.(work := Some(op.work.value.(candidate := Some(providerId))));
        (PutOp(db, p, kind, op', row.state), Ok(()))
  }

  // ----- review and recovery -----------------------------------------------

  function Reviewed(op: Op, reason: Reason, fence: Id): Op {
    op.(openReviews := op.openReviews + {reason}, state := ManualReview, fence := Some(fence))
  }

  function Review(db: Db, p: Id, kind: Kind, reason: Reason): Db
    requires p in db.intents
  {
    PutOp(db, p, kind, Reviewed(db.intents[p].Get(kind), reason, db.nextId), IntentReview)
      .(nextId := db.nextId + 1)
  }

  function WithFailure(op: Op, failure: Option<Failure>): Op {
    if op.work.Some? && failure.Some?
    then op.(work := Some(op.work.value.(lastFailure := failure)))
    else op
  }

  function Rescheduled(op: Op, now: int): Op {
    if op.work.Some? && op.state == Bound
    then op.(work := Some(op.work.value.(done := false, nextAttempt := now)))
    else op
  }

  function Observed(db: Db, p: Id, kind: Kind, failure: Option<Failure>, now: int): Db
    requires p in db.intents
  {
    var row := db.intents[p];
    PutOp(db, p, kind, WithFailure(Rescheduled(row.Get(kind), now), failure), row.state)
  }

  /** The intent and operation states that financial_pending writes. */
  function Demoted(db: Db, p: Id, kind: Kind, conflict: bool, now: int): Db
    requires p in db.intents
  {
    var row := db.intents[p];
    var op := row.Get(kind);
    if conflict then Review(db, p, kind, BindingConflict)
    else if op.state != Bound then
      if Overdue(op, now) then Review(db, p, kind, OutcomeUnknown(kind))
      else if op.state == ManualReview then db
      else PutOp(db, p, kind, op.(state := if op.unknownSince.Some? then Unknown else Pending), AwaitingResult)
    else if row.state !in {IntentReview, Linked} then PutOp(db, p, kind, op, AwaitingResult)
    else db
  }

  /** financial_pending: a failed, empty or conflicting read. */
  function PendingRead(db: Db, p: Id, kind: Kind, expected: OpView, conflict: bool,
                       failure: Option<Failure>, now: int): (Db, Reply<()>)
  {
    if !Held(db, p) then (db, Refused(LockRefusal(db, p)))
    else
      var op := db.intents[p].Get(kind);
      if op.fence != expected.fence || (!conflict && op.state == ProvenNotSent) then (db, Ok(()))
      else (Observed(Demoted(db, p, kind, conflict, now), p, kind, failure, now), Ok(()))
  }

  /** changed_unsent_terms: release only when nothing may have been sent. */
  function ChangedTerms(db: Db, p: Id, seenState: IntentState, seenAgreement: OpView, seenSubscription: OpView)
    : (Db, Reply<()>)
  {
    if !Held(db, p) then (db, Refused(LockRefusal(db, p)))
    else
      var row := db.intents[p];
      if row.state == Linked || row.state != seenState
         || View(Agreement, row.agreement, false) != seenAgreement
         || View(Subscription, row.subscription, false) != seenSubscription
      then (db, Ok(()))
      else if Unsent(row.agreement) && Unsent(row.subscription)
      then (db.(intents := db.intents[p := row.(state := FailedBeforeEffect)], holds := db.holds - {row.Scope()}),
            Ok(()))
      else (Review(db, p, Subscription, TermsChangedAfterPreparation), Ok(()))
  }

  predicate Unsent(op: Op) {
    op.state in {Pending, ProvenNotSent} && op.bound.None?
  }

  /** uq_financial_operation_binding: the id is bound to another operation of this kind and account. */
  predicate BoundElsewhere(db: Db, p: Id, kind: Kind, providerId: int)
    requires p in db.intents
  {
    exists q | q in db.intents ::
      q != p && db.intents[q].account == db.intents[p].account && db.intents[q].Get(kind).bound == Some(providerId)
  }

  predicate AuditRequired(row: Intent, kind: Kind, op: Op) {
    && op.state == ManualReview
    && row.state == IntentReview
    && exists r | r in op.openReviews :: r != OutcomeUnknown(kind)
  }

  /** Every refusal that _bind_financial raises before its first flush. */
  function BindRefusal(db: Db, p: Id, kind: Kind, expected: OpView, providerId: int, observed: bool): Option<Refusal>
    requires p in db.intents
  {
    var row := db.intents[p];
    var op := row.Get(kind);
    if op.fence != expected.fence then Some(PurchasePending)
    else if op.state in {Pending, ProvenNotSent} || op.unknownSince.None? || op.hint.None?
    then Some(HistoryUnproven)
    else if op.bound !in {None, Some(providerId)} then Some(ReviewRequired)
    else if AuditRequired(row, kind, op) then Some(ReviewRequired)
    else if kind.Subscription? && (row.agreement.state != Bound || !observed) then Some(PurchasePending)
    else if kind.Subscription? && p in db.subs
            && (db.subs[p].subscription != providerId || Some(db.subs[p].agreement) != row.agreement.bound)
    then Some(ReviewRequired)
    else None
  }

  function BoundOp(op: Op, kind: Kind, providerId: int, fence: Id): Op {
    op.(bound := Some(providerId),
        state := Bound,
        fence := if op.state == Bound then op.fence else Some(fence),
        work := if op.work.Some? then Some(op.work.value.(done := true)) else None,
        openReviews := op.openReviews - {OutcomeUnknown(kind)})
  }

  function BoundState(row: Intent, kind: Kind): IntentState {
    if kind.Subscription? then Linked
    else if row.state == IntentReview && row.agreement.state != ManualReview && row.subscription.state != ManualReview
    then Preparing
    else row.state
  }

  /** bind_financial: point proof of the original object; an index violation records a conflict instead. */
  function Bind(db: Db, p: Id, kind: Kind, expected: OpView, providerId: int, observed: bool, now: int)
    : (Db, Reply<()>)
  {
    if !Held(db, p) then (db, Refused(LockRefusal(db, p)))
    else
      var refusal := BindRefusal(db, p, kind, expected, providerId, observed);
      if refusal.Some? then (db, Refused(refusal.value))
      else if BoundElsewhere(db, p, kind, providerId)
      then (PendingRead(db, p, kind, expected, true, None, now).0, Refused(ReviewRequired))
      else
        var row := db.intents[p];
        var op := row.Get(kind);
        var row' := row.With(kind, BoundOp(op, kind, providerId, db.nextId));
        var subs' := if kind.Subscription? && p !in db.subs && row.agreement.bound.Some?
                     then db.subs[p := Sub(providerId, row.agreement.bound.value)]
                     else db.subs;
        (Db(db.intents[p := row'.(state := BoundState(row', kind))], db.holds, subs', db.nextId + 1), Ok(()))
  }

  /** One transaction of escalate_overdue_financial. */
  predicate Escalates(db: Db, p: Id, kind: Kind, seenFence: Option<Id>, instant: int) {
    && Held(db, p)
    && var op := db.intents[p].Get(kind);
       Overdue(op, instant) && op.fence == seenFence && op.state in {PossibleSend, Unknown}
  }

  function Escalate(db: Db, p: Id, kind: Kind, seenFence: Option<Id>, instant: int): Db {
    if Escalates(db, p, kind, seenFence, instant) then Review(db, p, kind, OutcomeUnknown(kind)) else db
  }
}
