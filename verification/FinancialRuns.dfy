/**
 Runs of the financial protocol: database steps by any number of drivers holding
 arbitrarily old views, interleaved with the provider, which decides once and at any
 later time whether the single POST of a grant takes effect.
 */
module FinancialRuns {
  import opened Options
  import opened FinancialKinds
  import opened FinancialModel

  /** One permission to POST, as returned by claim_financial. */
  datatype Grant = Grant(fence: Id, request: Request)

  /** History of one operation: its grants, and the fences of its accepted no-send results, oldest first. */
  datatype Ledger = Ledger(grants: seq<Grant>, accepted: seq<Id>)

  datatype World = World(
    db: Db,
    ledgers: map<(Id, Kind), Ledger>,
    issued: map<Id, (Id, Kind)>,  // the operation each grant belongs to
    unsent: set<Id>,              // grants whose transport reported that nothing was sent
    effects: set<Id>)             // grants whose POST took effect at the provider

  const START := World(EMPTY_DB, map[], map[], {}, {})

  datatype Event =
    | Confirm(user: Id, customer: Id, account: Id, key: Id, meaning: Meaning, admitted: bool)
    | ClaimSend(caller: Id, p: Id, kind: Kind, expected: OpView, request: Request, customerClear: bool, now: int)
    | TransportReportsNotSent(fence: Id)
    | PostTakesEffect(fence: Id)
    | RecordNotSent(p: Id, kind: Kind, expected: OpView)
    | RecordReceipt(p: Id, kind: Kind, expected: OpView, providerId: int)
    | RecordPending(p: Id, kind: Kind, expected: OpView, conflict: bool, failure: Option<Failure>, now: int)
    | RecordChangedTerms(p: Id, seenState: IntentState, seenAgreement: OpView, seenSubscription: OpView)
    | RecordBinding(p: Id, kind: Kind, expected: OpView, providerId: int, observed: bool, now: int)
    | EscalateOverdue(p: Id, kind: Kind, seenFence: Option<Id>, instant: int)

  function LedgerOf(w: World, p: Id, kind: Kind): Ledger {
    if (p, kind) in w.ledgers then w.ledgers[(p, kind)] else Ledger([], [])
  }

  /** The transport is truthful: proven_not_sent is only called with a grant reported unsent. */
  predicate Truthful(w: World, expected: OpView) {
    expected.maySend && expected.fence.Some? ==> expected.fence.value in w.unsent
  }

  function AfterClaim(w: World, p: Id, kind: Kind, request: Request, result: (Db, Reply<OpView>)): World {
    if result.1.Ok? && result.1.value.maySend && result.1.value.fence.Some? then
      var led := LedgerOf(w, p, kind);
      var f := result.1.value.fence.value;
      w.(db := result.0,
         ledgers := w.ledgers[(p, kind) := led.(grants := led.grants + [Grant(f, request)])],
         issued := w.issued[f := (p, kind)])
    else w.(db := result.0)
  }

  function AfterNotSent(w: World, p: Id, kind: Kind, expected: OpView): World {
    var db' := NotSent(w.db, p, kind, expected).0;
    if db' != w.db && expected.fence.Some? then
      var led := LedgerOf(w, p, kind);
      w.(db := db', ledgers := w.ledgers[(p, kind) := led.(accepted := led.accepted + [expected.fence.value])])
    else w.(db := db')
  }

  /** An event that is not possible in `w` leaves it unchanged. */
  ghost function Step(w: World, e: Event): World {
    match e
    case Confirm(user, customer, account, key, meaning, admitted) =>
      w.(db := Pin(w.db, user, customer, account, key, meaning, admitted).0)
    case ClaimSend(caller, p, kind, expected, request, customerClear, now) =>
      AfterClaim(w, p, kind, request, Claim(w.db, caller, p, kind, expected, request, customerClear, now))
    case TransportReportsNotSent(f) =>
      if f in w.issued && f !in w.effects then w.(unsent := w.unsent + {f}) else w
    case PostTakesEffect(f) =>
      if f in w.issued && f !in w.unsent then w.(effects := w.effects + {f}) else w
    case RecordNotSent(p, kind, expected) =>
      if Truthful(w, expected) then AfterNotSent(w, p, kind, expected) else w
    case RecordReceipt(p, kind, expected, providerId) =>
      w.(db := Receipt(w.db, p, kind, expected, providerId).0)
    case RecordPending(p, kind, expected, conflict, failure, now) =>
      w.(db := PendingRead(w.db, p, kind, expected, conflict, failure, now).0)
    case RecordChangedTerms(p, seenState, seenAgreement, seenSubscription) =>
      w.(db := ChangedTerms(w.db, p, seenState, seenAgreement, seenSubscription).0)
    case RecordBinding(p, kind, expected, providerId, observed, now) =>
      w.(db := Bind(w.db, p, kind, expected, providerId, observed, now).0)
    case EscalateOverdue(p, kind, seenFence, instant) =>
      w.(db := FinancialModel.Escalate(w.db, p, kind, seenFence, instant))
  }

  ghost function Run(w: World, events: seq<Event>): World
    decreases |events|
  {
    if events == [] then w else Run(Step(w, events[0]), events[1..])
  }

  lemma {:induction false} RunOn(w: World, first: seq<Event>, rest: seq<Event>)
    ensures Run(w, first + rest) == Run(Run(w, first), rest)
    decreases |first|
  {
    hide Step;
    if first == [] {
      assert first + rest == rest;
    } else {
      RunOn(Step(w, first[0]), first[1..], rest);
      assert (first + rest)[1..] == first[1..] + rest;
    }
  }

  lemma RunAppend(w: World, events: seq<Event>, e: Event)
    ensures Run(w, events + [e]) == Step(Run(w, events), e)
  {
    hide Step;
    RunOn(w, events, [e]);
    assert [e][1..] == [];
  }

  // ----- the invariant -----------------------------------------------------

  predicate LedgerOk(p: Id, kind: Kind, led: Ledger, issued: map<Id, (Id, Kind)>, unsent: set<Id>) {
    && |led.accepted| <= |led.grants| <= |led.accepted| + 1
    && (forall i :: 0 <= i < |led.accepted| ==>
          led.accepted[i] == led.grants[i].fence && led.accepted[i] in unsent)
    && (forall i :: 0 <= i < |led.grants| ==>
          led.grants[i].fence in issued && issued[led.grants[i].fence] == (p, kind))
  }

  /** The column checks of the operation table. */
  predicate ColumnsOk(op: Op) {
    && op.unknownSince.Some? == op.unknownDeadline.Some? == op.hint.Some?
    && (op.unknownSince.Some? ==> op.unknownDeadline.value == op.unknownSince.value + RECOVERY_WINDOW)
  }

  predicate WorkOk(op: Op, led: Ledger) {
    && (led.grants != [] <==> op.unknownSince.Some?)
    && (led.grants != [] <==> op.work.Some?)
    && (op.work.Some? ==> op.work.value.attempts == |led.grants| && op.work.value.activeDeadline.Some?)
    && (forall i :: 0 <= i < |led.grants| ==> op.hint.Some? && led.grants[i].request == op.hint.value.request)
  }

  predicate StateOk(op: Op, led: Ledger) {
    match op.state
    case Pending => led.grants == [] && op.bound.None?
    case ProvenNotSent => led.grants != [] && |led.accepted| == |led.grants| && op.bound.None?
                          && op.work.Some? && op.work.value.candidate.None?
    case PossibleSend => |led.grants| == |led.accepted| + 1 && op.bound.None?
                         && op.fence == Some(led.grants[|led.grants| - 1].fence)
    case Unknown => |led.grants| == |led.accepted| + 1 && op.bound.None?
                    && op.fence == Some(led.grants[|led.grants| - 1].fence)
    case Bound => led.grants != [] && op.bound.Some?
    case ManualReview => true
  }

  predicate OpOk(p: Id, kind: Kind, op: Op, led: Ledger, nextId: Id, issued: map<Id, (Id, Kind)>, unsent: set<Id>) {
    && (if op.fence.Some? then op.fence.value < nextId else led.grants == [])
    && LedgerOk(p, kind, led, issued, unsent)
    && ColumnsOk(op)
    && WorkOk(op, led)
    && StateOk(op, led)
    && (op.bound.Some? ==> led.grants != [])
  }

  predicate IntentOk(row: Intent, sub: Option<Sub>, subscriptionGranted: bool) {
    && (row.state == FailedBeforeEffect ==> Unsent(row.agreement) && Unsent(row.subscription))
    && (row.state == Linked ==> row.agreement.state == Bound && row.subscription.state == Bound)
    && (row.subscription.bound.Some? <==> sub.Some?)
    && (sub.Some? ==> row.agreement.bound == Some(sub.value.agreement)
                      && row.subscription.bound == Some(sub.value.subscription))
    && (subscriptionGranted ==> row.agreement.bound.Some?)
  }

  function SubOf(db: Db, p: Id): Option<Sub> {
    if p in db.subs then Some(db.subs[p]) else None
  }

  predicate OperationOk(w: World, p: Id, kind: Kind)
    requires p in w.db.intents
  {
    OpOk(p, kind, w.db.intents[p].Get(kind), LedgerOf(w, p, kind), w.db.nextId, w.issued, w.unsent)
  }

  predicate PurchaseOk(w: World, p: Id)
    requires p in w.db.intents
  {
    && OperationOk(w, p, Agreement)
    && OperationOk(w, p, Subscription)
    && IntentOk(w.db.intents[p], SubOf(w.db, p), LedgerOf(w, p, Subscription).grants != [])
  }

  /** A purchase occupies its (user, product) scope exactly until it is released. */
  predicate ScopesOk(db: Db) {
    && (forall s | s in db.holds :: db.holds[s] in db.intents && db.intents[db.holds[s]].Scope() == s
                                    && db.intents[db.holds[s]].state != FailedBeforeEffect)
    && (forall p | p in db.intents :: p < db.nextId && (db.intents[p].state != FailedBeforeEffect ==> Held(db, p)))
    && db.subs.Keys <= db.intents.Keys
  }

  predicate KeysOk(db: Db) {
    forall p, q | p in db.intents && q in db.intents && p != q ::
      !SameRequest(db.intents[p], db.intents[q].user, db.intents[q].idempotencyKey)
  }

  /** No provider object is bound to two operations of one kind in one account. */
  predicate BindingsOk(db: Db) {
    forall p, q, kind: Kind | p in db.intents && q in db.intents && p != q && db.intents[p].account == db.intents[q].account ::
      db.intents[p].Get(kind).bound.Some? ==> db.intents[p].Get(kind).bound != db.intents[q].Get(kind).bound
  }

  predicate IssuedOk(w: World) {
    && (forall f | f in w.issued ::
          f < w.db.nextId && w.issued[f].0 in w.db.intents
          && exists i :: 0 <= i < |LedgerOf(w, w.issued[f].0, w.issued[f].1).grants|
                         && LedgerOf(w, w.issued[f].0, w.issued[f].1).grants[i].fence == f)
    && w.unsent <= w.issued.Keys
    && w.effects <= w.issued.Keys
    && w.unsent !! w.effects
    && (forall key | key in w.ledgers :: key.0 in w.db.intents)
  }

  ghost predicate Inv(w: World) {
    && (forall p | p in w.db.intents :: PurchaseOk(w, p))
    && ScopesOk(w.db)
    && KeysOk(w.db)
    && BindingsOk(w.db)
    && IssuedOk(w)
  }

  // ----- every event keeps the invariant -----------------------------------

  predicate SameIdentity(row: Intent, row': Intent) {
    && row'.user == row.user && row'.product == row.product && row'.customer == row.customer
    && row'.account == row.account && row'.idempotencyKey == row.idempotencyKey && row'.meaning == row.meaning
    && (forall kind: Kind :: row'.Get(kind).key == row.Get(kind).key)
  }

  /** `w'` differs from `w` in the rows and history of the held purchase `p` only. */
  ghost predicate TouchesOnly(w: World, w': World, p: Id) {
    && Held(w.db, p)
    && w'.db.intents.Keys == w.db.intents.Keys
    && w'.db.holds == w.db.holds
    && w.db.nextId <= w'.db.nextId
    && SameIdentity(w.db.intents[p], w'.db.intents[p])
    && w'.db.intents[p].state != FailedBeforeEffect
    && w'.db.subs.Keys <= w.db.subs.Keys + {p}
    && w.unsent <= w'.unsent
    && (forall f | f in w.issued :: f in w'.issued && w'.issued[f] == w.issued[f])
    && (forall q | q in w.db.intents && q != p ::
          w'.db.intents[q] == w.db.intents[q] && SubOf(w'.db, q) == SubOf(w.db, q))
    && (forall q, kind | q != p :: LedgerOf(w', q, kind) == LedgerOf(w, q, kind))
    && (forall kind: Kind ::
          var bound, bound' := w.db.intents[p].Get(kind).bound, w'.db.intents[p].Get(kind).bound;
          bound' == bound || (bound'.Some? && !BoundElsewhere(w.db, p, kind, bound'.value)))
  }

  /** Facts about one operation survive growth of the issued and unsent sets. */
  lemma OpOkMonotone(p: Id, kind: Kind, op: Op, led: Ledger, w: World, w': World)
    requires OpOk(p, kind, op, led, w.db.nextId, w.issued, w.unsent)
    requires w.db.nextId <= w'.db.nextId && w.unsent <= w'.unsent
    requires forall f | f in w.issued :: f in w'.issued && w'.issued[f] == w.issued[f]
    ensures OpOk(p, kind, op, led, w'.db.nextId, w'.issued, w'.unsent)
  {
  }

  /** A purchase whose rows and history did not change stays in order while ids and reports accumulate. */
  lemma PurchaseCarried(w: World, w': World, q: Id)
    requires q in w.db.intents && PurchaseOk(w, q)
    requires q in w'.db.intents && w'.db.intents[q] == w.db.intents[q] && SubOf(w'.db, q) == SubOf(w.db, q)
    requires forall kind: Kind :: LedgerOf(w', q, kind) == LedgerOf(w, q, kind)
    requires w.db.nextId <= w'.db.nextId && w.unsent <= w'.unsent
    requires forall f | f in w.issued :: f in w'.issued && w'.issued[f] == w.issued[f]
    ensures PurchaseOk(w', q)
  {
    hide OpOk, IntentOk;
    assert LedgerOf(w', q, Agreement) == LedgerOf(w, q, Agreement);
    assert LedgerOf(w', q, Subscription) == LedgerOf(w, q, Subscription);
    OpOkMonotone(q, Agreement, w.db.intents[q].agreement, LedgerOf(w, q, Agreement), w, w');
    OpOkMonotone(q, Subscription, w.db.intents[q].subscription, LedgerOf(w, q, Subscription), w, w');
  }

  lemma ScopesKept(w: World, w': World, p: Id)
    requires ScopesOk(w.db) && TouchesOnly(w, w', p)
    ensures ScopesOk(w'.db)
  {
    var row, row' := w.db.intents[p], w'.db.intents[p];
    assert row'.Scope() == row.Scope();
    forall q | q in w'.db.intents && w'.db.intents[q].state != FailedBeforeEffect ensures Held(w'.db, q) {
      assert Held(w.db, q);
    }
  }

  lemma KeysKept(w: World, w': World, p: Id)
    requires KeysOk(w.db) && TouchesOnly(w, w', p)
    ensures KeysOk(w'.db)
  {
    forall q, r | q in w'.db.intents && r in w'.db.intents && q != r
      ensures !SameRequest(w'.db.intents[q], w'.db.intents[r].user, w'.db.intents[r].idempotencyKey)
    {
      assert !SameRequest(w.db.intents[q], w.db.intents[r].user, w.db.intents[r].idempotencyKey);
    }
  }

  lemma BindingsKept(w: World, w': World, p: Id)
    requires BindingsOk(w.db) && TouchesOnly(w, w', p)
    ensures BindingsOk(w'.db)
  {
    forall q, r, kind: Kind | q in w'.db.intents && r in w'.db.intents && q != r
                              && w'.db.intents[q].account == w'.db.intents[r].account
                              && w'.db.intents[q].Get(kind).bound.Some?
      ensures w'.db.intents[q].Get(kind).bound != w'.db.intents[r].Get(kind).bound
    {
      assert w.db.intents[q].account == w.db.intents[r].account;
      assert w.db.intents[q].Get(kind).bound.Some? ==> w.db.intents[q].Get(kind).bound != w.db.intents[r].Get(kind).bound;
    }
  }

  lemma LocalStep(w: World, w': World, p: Id)
    requires Inv(w) && TouchesOnly(w, w', p)
    requires PurchaseOk(w', p) && IssuedOk(w')
    ensures Inv(w')
  {
    forall q | q in w'.db.intents ensures PurchaseOk(w', q) {
      if q != p { PurchaseCarried(w, w', q); }
    }
    ScopesKept(w, w', p);
    KeysKept(w, w', p);
    BindingsKept(w, w', p);
  }

  function Other(kind: Kind): Kind {
    if kind.Agreement? then Subscription else Agreement
  }

  /** Events of the database alone keep every grant accounted for. */
  lemma HistoryKept(w: World, w': World)
    requires IssuedOk(w) && w'.db.nextId >= w.db.nextId && w'.db.intents.Keys >= w.db.intents.Keys
    requires w' == w.(db := w'.db)
    ensures IssuedOk(w')
  {
    forall f | f in w'.issued
      ensures exists i :: 0 <= i < |LedgerOf(w', w'.issued[f].0, w'.issued[f].1).grants|
                          && LedgerOf(w', w'.issued[f].0, w'.issued[f].1).grants[i].fence == f
    {
      assert LedgerOf(w', w'.issued[f].0, w'.issued[f].1) == LedgerOf(w, w.issued[f].0, w.issued[f].1);
    }
  }

  predicate CurrentOpOk(w: World, p: Id, kind: Kind, op: Op) {
    OpOk(p, kind, op, LedgerOf(w, p, kind), w.db.nextId, w.issued, w.unsent)
  }

  lemma OperationFacts(w: World, p: Id, kind: Kind)
    requires Inv(w) && p in w.db.intents
    ensures CurrentOpOk(w, p, kind, w.db.intents[p].Get(kind))
    ensures IntentOk(w.db.intents[p], SubOf(w.db, p), LedgerOf(w, p, Subscription).grants != [])
  {
    assert PurchaseOk(w, p);
  }

  lemma PutTouches(w: World, p: Id, kind: Kind, op: Op, state: IntentState, n: nat)
    requires Held(w.db, p) && state != FailedBeforeEffect
    requires op.key == w.db.intents[p].Get(kind).key && op.bound == w.db.intents[p].Get(kind).bound
    ensures TouchesOnly(w, w.(db := PutOp(w.db, p, kind, op, state).(nextId := w.db.nextId + n)), p)
  {
    var w' := w.(db := PutOp(w.db, p, kind, op, state).(nextId := w.db.nextId + n));
    assert forall q, k :: LedgerOf(w', q, k) == LedgerOf(w, q, k);
    forall k: Kind ensures w'.db.intents[p].Get(k).key == w.db.intents[p].Get(k).key
                       && w'.db.intents[p].Get(k).bound == w.db.intents[p].Get(k).bound {}
  }

  lemma PutPurchase(w: World, w': World, p: Id, kind: Kind, op: Op, state: IntentState, n: nat)
    requires p in w.db.intents && state != FailedBeforeEffect
    requires w' == w.(db := PutOp(w.db, p, kind, op, state).(nextId := w.db.nextId + n))
    requires op.bound == w.db.intents[p].Get(kind).bound
    requires state == Linked ==> w.db.intents[p].state == Linked && op.state == w.db.intents[p].Get(kind).state
    requires OpOk(p, kind, op, LedgerOf(w, p, kind), w'.db.nextId, w.issued, w.unsent)
    requires OpOk(p, Other(kind), w.db.intents[p].Get(Other(kind)), LedgerOf(w, p, Other(kind)), w'.db.nextId, w.issued, w.unsent)
    requires IntentOk(w.db.intents[p], SubOf(w.db, p), LedgerOf(w, p, Subscription).grants != [])
    ensures PurchaseOk(w', p)
  {
    hide OpOk;
    assert OperationOk(w', p, kind) && OperationOk(w', p, Other(kind));
  }

  /** A step that rewrites one operation without binding it, and the intent state with it. */
  lemma PutStep(w: World, p: Id, kind: Kind, op: Op, state: IntentState, n: nat)
    requires Inv(w) && Held(w.db, p) && state != FailedBeforeEffect
    requires op.key == w.db.intents[p].Get(kind).key && op.bound == w.db.intents[p].Get(kind).bound
    requires OpOk(p, kind, op, LedgerOf(w, p, kind), w.db.nextId + n, w.issued, w.unsent)
    requires state == Linked ==> w.db.intents[p].state == Linked && op.state == w.db.intents[p].Get(kind).state
    ensures Inv(w.(db := PutOp(w.db, p, kind, op, state).(nextId := w.db.nextId + n)))
  {
    hide TouchesOnly, OpOk, Inv, IssuedOk, PurchaseOk, IntentOk, SubOf;
    var w' := w.(db := PutOp(w.db, p, kind, op, state).(nextId := w.db.nextId + n));
    PutTouches(w, p, kind, op, state, n);
    OperationFacts(w, p, Other(kind));
    OpOkMonotone(p, Other(kind), w.db.intents[p].Get(Other(kind)), LedgerOf(w, p, Other(kind)), w, w');
    PutPurchase(w, w', p, kind, op, state, n);
    IssuedFact(w);
    HistoryKept(w, w');
    LocalStep(w, w', p);
  }

  lemma IssuedFact(w: World)
    requires Inv(w)
    ensures IssuedOk(w)
  {
  }

  lemma ReviewKeeps(w: World, p: Id, kind: Kind, reason: Reason)
    requires Inv(w) && Held(w.db, p)
    ensures Inv(w.(db := Review(w.db, p, kind, reason)))
  {
    hide Inv, TouchesOnly;
    OperationFacts(w, p, kind);
    PutStep(w, p, kind, Reviewed(w.db.intents[p].Get(kind), reason, w.db.nextId), IntentReview, 1);
  }

  lemma RewriteKeeps(w: World, p: Id, kind: Kind, op: Op, state: IntentState)
    requires Inv(w) && Held(w.db, p) && state != FailedBeforeEffect
    requires op.key == w.db.intents[p].Get(kind).key && op.bound == w.db.intents[p].Get(kind).bound
    requires CurrentOpOk(w, p, kind, op)
    requires state == Linked ==> w.db.intents[p].state == Linked && op.state == w.db.intents[p].Get(kind).state
    ensures Inv(w.(db := PutOp(w.db, p, kind, op, state)))
  {
    hide Inv, TouchesOnly;
    PutStep(w, p, kind, op, state, 0);
    var db' := PutOp(w.db, p, kind, op, state);
    assert db'.(nextId := w.db.nextId + 0) == db';
  }

  lemma HeldNotReleased(w: World, p: Id)
    requires Inv(w) && Held(w.db, p)
    ensures w.db.intents[p].state != FailedBeforeEffect
  {
    assert w.db.intents[p].Scope() in w.db.holds;
  }

  lemma ReceiptKeeps(w: World, p: Id, kind: Kind, expected: OpView, providerId: int)
    requires Inv(w)
    ensures Inv(w.(db := Receipt(w.db, p, kind, expected, providerId).0))
  {
    hide Inv;
    var db' := Receipt(w.db, p, kind, expected, providerId).0;
    if db' != w.db {
      var op := w.db.intents[p].Get(kind);
      OperationFacts(w, p, kind);
      HeldNotReleased(w, p);
      RewriteKeeps(w, p, kind, op.(work := Some(op.work.value.(candidate := Some(providerId)))), w.db.intents[p].state);
    } else {
      assert w.(db := db') == w;
    }
  }

  lemma DemotedKeeps(w: World, p: Id, kind: Kind, conflict: bool, now: int)
    requires Inv(w) && Held(w.db, p)
    requires !conflict ==> w.db.intents[p].Get(kind).state != ProvenNotSent
    ensures Inv(w.(db := Demoted(w.db, p, kind, conflict, now)))
    ensures Held(Demoted(w.db, p, kind, conflict, now), p)
  {
    hide Inv, TouchesOnly;
    var row := w.db.intents[p];
    var op := row.Get(kind);
    OperationFacts(w, p, kind);
    if conflict {
      ReviewKeeps(w, p, kind, BindingConflict);
    } else if op.state != Bound && Overdue(op, now) {
      ReviewKeeps(w, p, kind, OutcomeUnknown(kind));
    } else if op.state == ManualReview || (op.state == Bound && row.state in {IntentReview, Linked}) {
      assert w.(db := w.db) == w;
    } else if op.state == Bound {
      RewriteKeeps(w, p, kind, op, AwaitingResult);
    } else {
      RewriteKeeps(w, p, kind, op.(state := if op.unknownSince.Some? then Unknown else Pending), AwaitingResult);
    }
  }

  lemma ObservedKeeps(w: World, p: Id, kind: Kind, failure: Option<Failure>, now: int)
    requires Inv(w) && Held(w.db, p)
    ensures Inv(w.(db := Observed(w.db, p, kind, failure, now)))
  {
    hide Inv;
    OperationFacts(w, p, kind);
    HeldNotReleased(w, p);
    RewriteKeeps(w, p, kind, WithFailure(Rescheduled(w.db.intents[p].Get(kind), now), failure), w.db.intents[p].state);
  }

  lemma PendingKeeps(w: World, p: Id, kind: Kind, expected: OpView, conflict: bool, failure: Option<Failure>, now: int)
    requires Inv(w)
    ensures Inv(w.(db := PendingRead(w.db, p, kind, expected, conflict, failure, now).0))
  {
    hide Inv, OpOk;
    var db' := PendingRead(w.db, p, kind, expected, conflict, failure, now).0;
    if !Held(w.db, p) || w.db.intents[p].Get(kind).fence != expected.fence
       || (!conflict && w.db.intents[p].Get(kind).state == ProvenNotSent) {
      assert w.(db := db') == w;
    } else {
      DemotedKeeps(w, p, kind, conflict, now);
      ObservedKeeps(w.(db := Demoted(w.db, p, kind, conflict, now)), p, kind, failure, now);
    }
  }

  lemma EscalateKeeps(w: World, p: Id, kind: Kind, seenFence: Option<Id>, instant: int)
    requires Inv(w)
    ensures Inv(w.(db := FinancialModel.Escalate(w.db, p, kind, seenFence, instant)))
  {
    hide Inv, OpOk;
    if Escalates(w.db, p, kind, seenFence, instant) {
      ReviewKeeps(w, p, kind, OutcomeUnknown(kind));
    } else {
      assert w.(db := w.db) == w;
    }
  }

  lemma BindTouches(w: World, p: Id, kind: Kind, expected: OpView, providerId: int, observed: bool, now: int)
    requires Held(w.db, p) && BindRefusal(w.db, p, kind, expected, providerId, observed).None?
    requires !BoundElsewhere(w.db, p, kind, providerId)
    requires w.db.intents[p].state != FailedBeforeEffect
    ensures TouchesOnly(w, w.(db := Bind(w.db, p, kind, expected, providerId, observed, now).0), p)
  {
    var w' := w.(db := Bind(w.db, p, kind, expected, providerId, observed, now).0);
    assert forall q, k :: LedgerOf(w', q, k) == LedgerOf(w, q, k);
    forall k: Kind ensures w'.db.intents[p].Get(k).key == w.db.intents[p].Get(k).key
    {}
    assert w'.db.intents[p].Get(kind).bound == Some(providerId);
    assert w'.db.intents[p].Get(Other(kind)) == w.db.intents[p].Get(Other(kind));
  }

  lemma BoundOk(p: Id, kind: Kind, op: Op, led: Ledger, nextId: Id, issued: map<Id, (Id, Kind)>, unsent: set<Id>,
                providerId: int)
    requires OpOk(p, kind, op, led, nextId, issued, unsent)
    requires op.state !in {Pending, ProvenNotSent} && op.unknownSince.Some?
    ensures OpOk(p, kind, BoundOp(op, kind, providerId, nextId), led, nextId + 1, issued, unsent)
  {
  }

  lemma BoundIntentOk(row: Intent, sub: Option<Sub>, granted: bool, kind: Kind, providerId: int, fence: Id)
    requires IntentOk(row, sub, granted)
    requires kind.Subscription? ==> row.agreement.state == Bound && row.agreement.bound.Some?
    requires row.Get(kind).bound in {None, Some(providerId)}
    requires row.state != FailedBeforeEffect
    ensures var row' := row.With(kind, BoundOp(row.Get(kind), kind, providerId, fence));
            IntentOk(row'.(state := BoundState(row', kind)),
                     if kind.Subscription? && sub.None? then Some(Sub(providerId, row.agreement.bound.value)) else sub,
                     granted)
  {
  }

  lemma BindKeeps(w: World, p: Id, kind: Kind, expected: OpView, providerId: int, observed: bool, now: int)
    requires Inv(w)
    ensures Inv(w.(db := Bind(w.db, p, kind, expected, providerId, observed, now).0))
  {
    hide Inv, OpOk, TouchesOnly, IntentOk;
    var w' := w.(db := Bind(w.db, p, kind, expected, providerId, observed, now).0);
    if !Held(w.db, p) || BindRefusal(w.db, p, kind, expected, providerId, observed).Some? {
      assert w' == w;
    } else if BoundElsewhere(w.db, p, kind, providerId) {
      PendingKeeps(w, p, kind, expected, true, None, now);
    } else {
      HeldNotReleased(w, p);
      BindTouches(w, p, kind, expected, providerId, observed, now);
      OperationFacts(w, p, Agreement);
      OperationFacts(w, p, Subscription);
      BoundOk(p, kind, w.db.intents[p].Get(kind), LedgerOf(w, p, kind), w.db.nextId, w.issued, w.unsent, providerId);
      if kind.Subscription? { BoundAgreement(w, p); }
      BoundIntentOk(w.db.intents[p], SubOf(w.db, p), LedgerOf(w, p, Subscription).grants != [], kind, providerId, w.db.nextId);
      OpOkMonotone(p, Other(kind), w.db.intents[p].Get(Other(kind)), LedgerOf(w, p, Other(kind)), w, w');
      assert OperationOk(w', p, kind) && OperationOk(w', p, Other(kind));
      HistoryOf(w);
      HistoryKept(w, w');
      LocalStep(w, w', p);
    }
  }

  lemma HistoryOf(w: World)
    requires Inv(w)
    ensures IssuedOk(w)
  {}

  lemma BoundAgreement(w: World, p: Id)
    requires Inv(w) && p in w.db.intents && w.db.intents[p].agreement.state == Bound
    ensures w.db.intents[p].agreement.bound.Some?
  {
    hide Inv, LedgerOk, ColumnsOk, WorkOk;
    OperationFacts(w, p, Agreement);
  }

  lemma GrantedOk(p: Id, kind: Kind, op: Op, led: Ledger, nextId: Id, issued: map<Id, (Id, Kind)>, unsent: set<Id>,
                  request: Request, fingerprint: nat, now: int)
    requires OpOk(p, kind, op, led, nextId, issued, unsent)
    requires forall f | f in issued :: f < nextId
    requires op.state in {Pending, ProvenNotSent}
    requires op.state == ProvenNotSent ==> RetryEvidence(op, request)
    ensures OpOk(p, kind, Granted(op, p, request, fingerprint, nextId, now),
                 led.(grants := led.grants + [Grant(nextId, request)]),
                 nextId + 1, issued[nextId := (p, kind)], unsent)
  {
    var led' := led.(grants := led.grants + [Grant(nextId, request)]);
    assert led'.grants[|led.grants|] == Grant(nextId, request);
  }

  lemma GrantHistory(w: World, w': World, p: Id, kind: Kind, f: Id, request: Request)
    requires IssuedOk(w) && p in w.db.intents && f == w.db.nextId && w'.db.nextId == f + 1
    requires w'.db.intents.Keys == w.db.intents.Keys
    requires w'.issued == w.issued[f := (p, kind)] && w'.unsent == w.unsent && w'.effects == w.effects
    requires w'.ledgers == w.ledgers[(p, kind) :=
               LedgerOf(w, p, kind).(grants := LedgerOf(w, p, kind).grants + [Grant(f, request)])]
    ensures IssuedOk(w')
  {
    forall g | g in w'.issued
      ensures exists i :: 0 <= i < |LedgerOf(w', w'.issued[g].0, w'.issued[g].1).grants|
                          && LedgerOf(w', w'.issued[g].0, w'.issued[g].1).grants[i].fence == g
    {
      if g == f {
        assert LedgerOf(w', p, kind).grants[|LedgerOf(w, p, kind).grants|].fence == f;
      } else {
        var q, k := w.issued[g].0, w.issued[g].1;
        var i :| 0 <= i < |LedgerOf(w, q, k).grants| && LedgerOf(w, q, k).grants[i].fence == g;
        assert LedgerOf(w', q, k).grants[i].fence == g;
      }
    }
  }

  lemma ClaimTouches(w: World, w': World, p: Id, kind: Kind, op: Op, led: Ledger)
    requires Held(w.db, p) && IssuedOk(w)
    requires op.key == w.db.intents[p].Get(kind).key && op.bound == w.db.intents[p].Get(kind).bound
    requires w'.db == PutOp(w.db, p, kind, op, Preparing).(nextId := w.db.nextId + 1)
    requires w'.issued == w.issued || w'.issued == w.issued[w.db.nextId := (p, kind)]
    requires w'.unsent == w.unsent
    requires w'.ledgers == w.ledgers[(p, kind) := led]
    ensures TouchesOnly(w, w', p)
  {
    PutTouches(w, p, kind, op, Preparing, 1);
  }

  function Sent(w: World, p: Id, kind: Kind, request: Request, now: int): World
    requires p in w.db.intents
  {
    var row := w.db.intents[p];
    var led := LedgerOf(w, p, kind);
    w.(db := PutOp(w.db, p, kind, Granted(row.Get(kind), p, request, row.meaning.fingerprint, w.db.nextId, now), Preparing)
             .(nextId := w.db.nextId + 1),
       ledgers := w.ledgers[(p, kind) := led.(grants := led.grants + [Grant(w.db.nextId, request)])],
       issued := w.issued[w.db.nextId := (p, kind)])
  }

  lemma SentKeeps(w: World, p: Id, kind: Kind, request: Request, now: int)
    requires Inv(w) && Held(w.db, p)
    requires w.db.intents[p].Get(kind).state in {Pending, ProvenNotSent}
    requires w.db.intents[p].Get(kind).state == ProvenNotSent ==> RetryEvidence(w.db.intents[p].Get(kind), request)
    requires kind.Subscription? ==> w.db.intents[p].agreement.state == Bound
    ensures Inv(Sent(w, p, kind, request, now))
  {
    hide Inv, OpOk, TouchesOnly, IssuedOk, Granted;
    var w' := Sent(w, p, kind, request, now);
    var row := w.db.intents[p];
    var op' := Granted(row.Get(kind), p, request, row.meaning.fingerprint, w.db.nextId, now);
    OperationFacts(w, p, Agreement);
    OperationFacts(w, p, Subscription);
    HistoryOf(w);
    IssuedBelow(w);
    GrantedOk(p, kind, row.Get(kind), LedgerOf(w, p, kind), w.db.nextId, w.issued, w.unsent,
              request, row.meaning.fingerprint, now);
    GrantedFrame(row.Get(kind), p, request, row.meaning.fingerprint, w.db.nextId, now);
    if kind.Subscription? { BoundAgreement(w, p); }
    ClaimTouches(w, w', p, kind, op', LedgerOf(w', p, kind));
    GrantHistory(w, w', p, kind, w.db.nextId, request);
    OpOkMonotone(p, Other(kind), row.Get(Other(kind)), LedgerOf(w, p, Other(kind)), w, w');
    assert OperationOk(w', p, kind) && OperationOk(w', p, Other(kind));
    LocalStep(w, w', p);
  }

  lemma GrantedFrame(op: Op, p: Id, request: Request, fingerprint: nat, fence: Id, now: int)
    ensures var op' := Granted(op, p, request, fingerprint, fence, now);
            op'.key == op.key && op'.bound == op.bound && op'.fence == Some(fence)
  {}

  lemma ClaimKeeps(w: World, caller: Id, p: Id, kind: Kind, expected: OpView, request: Request, clear: bool, now: int)
    requires Inv(w)
    ensures Inv(AfterClaim(w, p, kind, request, Claim(w.db, caller, p, kind, expected, request, clear, now)))
  {
    hide Inv, RetryEvidence, Granted;
    var result := Claim(w.db, caller, p, kind, expected, request, clear, now);
    if result.1.Ok? && result.1.value.maySend {
      var row := w.db.intents[p];
      GrantedFrame(row.Get(kind), p, request, row.meaning.fingerprint, w.db.nextId, now);
      SentKeeps(w, p, kind, request, now);
    } else {
      assert AfterClaim(w, p, kind, request, result) == w;
    }
  }

  lemma IssuedBelow(w: World)
    requires IssuedOk(w)
    ensures forall f | f in w.issued :: f < w.db.nextId
  {}

  lemma NotSentOk(p: Id, kind: Kind, op: Op, led: Ledger, nextId: Id, issued: map<Id, (Id, Kind)>, unsent: set<Id>)
    requires OpOk(p, kind, op, led, nextId, issued, unsent)
    requires op.state in {PossibleSend, Unknown} && op.fence.Some? && op.fence.value in unsent
    requires op.work.Some? && op.work.value.candidate.None?
    ensures OpOk(p, kind, op.(state := ProvenNotSent, fence := Some(nextId),
                              work := Some(op.work.value.(done := true, lastFailure := Some(NotSentFailure)))),
                 led.(accepted := led.accepted + [op.fence.value]), nextId + 1, issued, unsent)
  {
  }

  lemma AcceptHistory(w: World, w': World, p: Id, kind: Kind, f: Id)
    requires IssuedOk(w) && p in w.db.intents && w'.db.nextId == w.db.nextId + 1
    requires w'.db.intents.Keys == w.db.intents.Keys
    requires w'.issued == w.issued && w'.unsent == w.unsent && w'.effects == w.effects
    requires w'.ledgers == w.ledgers[(p, kind) := LedgerOf(w, p, kind).(accepted := LedgerOf(w, p, kind).accepted + [f])]
    ensures IssuedOk(w')
  {
    forall g | g in w'.issued
      ensures exists i :: 0 <= i < |LedgerOf(w', w'.issued[g].0, w'.issued[g].1).grants|
                          && LedgerOf(w', w'.issued[g].0, w'.issued[g].1).grants[i].fence == g
    {
      var q, k := w.issued[g].0, w.issued[g].1;
      var i :| 0 <= i < |LedgerOf(w, q, k).grants| && LedgerOf(w, q, k).grants[i].fence == g;
      assert LedgerOf(w', q, k).grants[i].fence == g;
    }
  }

  lemma NotSentKeeps(w: World, p: Id, kind: Kind, expected: OpView)
    requires Inv(w) && Truthful(w, expected)
    ensures Inv(AfterNotSent(w, p, kind, expected))
  {
    hide Inv, OpOk, TouchesOnly, IssuedOk;
    var w' := AfterNotSent(w, p, kind, expected);
    if !Held(w.db, p) || !AcceptsNotSent(w.db.intents[p], w.db.intents[p].Get(kind), expected) {
      assert w' == w;
    } else {
      var row := w.db.intents[p];
      var op := row.Get(kind);
      var op' := op.(state := ProvenNotSent, fence := Some(w.db.nextId),
                     work := Some(op.work.value.(done := true, lastFailure := Some(NotSentFailure))));
      OperationFacts(w, p, Agreement);
      OperationFacts(w, p, Subscription);
      HistoryOf(w);
      NotSentOk(p, kind, op, LedgerOf(w, p, kind), w.db.nextId, w.issued, w.unsent);
      ClaimTouches(w, w', p, kind, op', LedgerOf(w', p, kind));
      AcceptHistory(w, w', p, kind, op.fence.value);
      OpOkMonotone(p, Other(kind), row.Get(Other(kind)), LedgerOf(w, p, Other(kind)), w, w');
      assert OperationOk(w', p, kind) && OperationOk(w', p, Other(kind));
      LocalStep(w, w', p);
    }
  }

  function Released(w: World, p: Id): World
    requires p in w.db.intents
  {
    var row := w.db.intents[p];
    w.(db := w.db.(intents := w.db.intents[p := row.(state := FailedBeforeEffect)], holds := w.db.holds - {row.Scope()}))
  }

  lemma ReleasedIntent(row: Intent, sub: Option<Sub>, granted: bool)
    requires IntentOk(row, sub, granted) && Unsent(row.agreement) && Unsent(row.subscription)
    ensures IntentOk(row.(state := FailedBeforeEffect), sub, granted)
  {
  }

  lemma ReleasedOperation(w: World, p: Id, kind: Kind)
    requires p in w.db.intents && OperationOk(w, p, kind)
    ensures p in Released(w, p).db.intents && OperationOk(Released(w, p), p, kind)
  {
    hide OpOk;
  }

  lemma ReleasedSelf(w: World, p: Id)
    requires p in w.db.intents && PurchaseOk(w, p)
    requires Unsent(w.db.intents[p].agreement) && Unsent(w.db.intents[p].subscription)
    ensures PurchaseOk(Released(w, p), p)
  {
    hide OpOk, IntentOk, OperationOk;
    ReleasedOperation(w, p, Agreement);
    ReleasedOperation(w, p, Subscription);
    ReleasedIntent(w.db.intents[p], SubOf(w.db, p), LedgerOf(w, p, Subscription).grants != []);
  }

  lemma PurchaseFact(w: World, q: Id)
    requires Inv(w) && q in w.db.intents
    ensures PurchaseOk(w, q)
  {
    hide PurchaseOk;
  }

  lemma ReleasedPurchases(w: World, p: Id, q: Id)
    requires Inv(w) && p in w.db.intents && q in w.db.intents
    requires Unsent(w.db.intents[p].agreement) && Unsent(w.db.intents[p].subscription)
    ensures PurchaseOk(Released(w, p), q)
  {
    hide Inv, PurchaseOk, Unsent;
    PurchaseFact(w, q);
    if q == p {
      ReleasedSelf(w, p);
    } else {
      PurchaseCarried(w, Released(w, p), q);
    }
  }

  lemma ReleasedScopes(db: Db, p: Id, db': Db)
    requires ScopesOk(db) && KeysOk(db) && BindingsOk(db) && Held(db, p)
    requires db' == db.(intents := db.intents[p := db.intents[p].(state := FailedBeforeEffect)],
                        holds := db.holds - {db.intents[p].Scope()})
    ensures ScopesOk(db') && KeysOk(db') && BindingsOk(db')
  {
    forall q | q in db'.intents && db'.intents[q].state != FailedBeforeEffect ensures Held(db', q) {
      assert Held(db, q);
    }
    forall q, r | q in db'.intents && r in db'.intents && q != r
      ensures !SameRequest(db'.intents[q], db'.intents[r].user, db'.intents[r].idempotencyKey)
    {
      assert !SameRequest(db.intents[q], db.intents[r].user, db.intents[r].idempotencyKey);
    }
    forall q, r, kind: Kind | q in db'.intents && r in db'.intents && q != r && db'.intents[q].account == db'.intents[r].account
                              && db'.intents[q].Get(kind).bound.Some?
      ensures db'.intents[q].Get(kind).bound != db'.intents[r].Get(kind).bound
    {
      assert db.intents[q].Get(kind).bound == db'.intents[q].Get(kind).bound;
      assert db.intents[r].Get(kind).bound == db'.intents[r].Get(kind).bound;
    }
  }

  lemma ReleaseKeeps(w: World, p: Id)
    requires Inv(w) && Held(w.db, p) && Unsent(w.db.intents[p].agreement) && Unsent(w.db.intents[p].subscription)
    ensures Inv(Released(w, p))
  {
    var w' := Released(w, p);
    forall q | q in w'.db.intents ensures PurchaseOk(w', q) { ReleasedPurchases(w, p, q); }
    ReleasedScopes(w.db, p, w'.db);
    HistoryKept(w, w');
    hide PurchaseOk, ScopesOk, IssuedOk;
  }

  lemma ChangedTermsKeeps(w: World, p: Id, seenState: IntentState, seenAgreement: OpView, seenSubscription: OpView)
    requires Inv(w)
    ensures Inv(w.(db := ChangedTerms(w.db, p, seenState, seenAgreement, seenSubscription).0))
  {
    var db' := ChangedTerms(w.db, p, seenState, seenAgreement, seenSubscription).0;
    if db' == w.db {
      assert w.(db := db') == w;
    } else if Unsent(w.db.intents[p].agreement) && Unsent(w.db.intents[p].subscription) {
      hide Inv, Review;
      ReleaseKeeps(w, p);
      assert Released(w, p) == w.(db := db');
    } else {
      hide Inv, Review;
      ReviewKeeps(w, p, Subscription, TermsChangedAfterPreparation);
    }
  }

  lemma InsertedPurchase(w: World, user: Id, customer: Id, account: Id, key: Id, meaning: Meaning)
    requires IssuedOk(w) && ScopesOk(w.db)
    ensures PurchaseOk(w.(db := Inserted(w.db, user, customer, account, key, meaning)), w.db.nextId)
  {
    var q := w.db.nextId;
    var w' := w.(db := Inserted(w.db, user, customer, account, key, meaning));
    assert (q, Agreement) !in w.ledgers && (q, Subscription) !in w.ledgers;
    assert SubOf(w'.db, q) == None;
  }

  lemma InsertedHolds(db: Db, user: Id, customer: Id, account: Id, key: Id, meaning: Meaning)
    requires ScopesOk(db) && (user, meaning.product) !in db.holds
    ensures db.nextId !in db.intents && ScopesOk(Inserted(db, user, customer, account, key, meaning))
  {
    var db' := Inserted(db, user, customer, account, key, meaning);
    forall q | q in db'.intents && db'.intents[q].state != FailedBeforeEffect ensures Held(db', q) {
      if q != db.nextId { assert Held(db, q); }
    }
  }

  lemma InsertedRows(db: Db, user: Id, customer: Id, account: Id, key: Id, meaning: Meaning)
    requires KeysOk(db) && BindingsOk(db) && db.nextId !in db.intents
    requires forall q | q in db.intents :: !SameRequest(db.intents[q], user, key)
    ensures var db' := Inserted(db, user, customer, account, key, meaning); KeysOk(db') && BindingsOk(db')
  {
  }

  lemma InsertedScopes(db: Db, user: Id, customer: Id, account: Id, key: Id, meaning: Meaning)
    requires ScopesOk(db) && KeysOk(db) && BindingsOk(db)
    requires (user, meaning.product) !in db.holds
    requires forall q | q in db.intents :: !SameRequest(db.intents[q], user, key)
    ensures db.nextId !in db.intents
    ensures var db' := Inserted(db, user, customer, account, key, meaning);
            ScopesOk(db') && KeysOk(db') && BindingsOk(db')
  {
    hide ScopesOk, KeysOk, BindingsOk, Inserted;
    InsertedHolds(db, user, customer, account, key, meaning);
    InsertedRows(db, user, customer, account, key, meaning);
  }

  lemma InsertedKeeps(w: World, user: Id, customer: Id, account: Id, key: Id, meaning: Meaning)
    requires Inv(w) && (user, meaning.product) !in w.db.holds
    requires forall q | q in w.db.intents :: !SameRequest(w.db.intents[q], user, key)
    ensures Inv(w.(db := Inserted(w.db, user, customer, account, key, meaning)))
  {
    hide PurchaseOk;
    var w' := w.(db := Inserted(w.db, user, customer, account, key, meaning));
    InsertedScopes(w.db, user, customer, account, key, meaning);
    forall q | q in w'.db.intents ensures PurchaseOk(w', q) {
      if q == w.db.nextId {
        InsertedPurchase(w, user, customer, account, key, meaning);
      } else {
        PurchaseCarried(w, w', q);
      }
    }
    HistoryKept(w, w');
  }

  lemma PinKeeps(w: World, user: Id, customer: Id, account: Id, key: Id, meaning: Meaning, admitted: bool)
    requires Inv(w)
    ensures Inv(w.(db := Pin(w.db, user, customer, account, key, meaning, admitted).0))
  {
    hide Inv;
    if Pin(w.db, user, customer, account, key, meaning, admitted).0 == w.db {
      assert w.(db := w.db) == w;
    } else {
      InsertedKeeps(w, user, customer, account, key, meaning);
    }
  }

  lemma ReportKeeps(w: World, f: Id)
    requires Inv(w) && f in w.issued && f !in w.effects
    ensures Inv(w.(unsent := w.unsent + {f}))
  {
    hide KeysOk, BindingsOk, ScopesOk, PurchaseOk;
    var w' := w.(unsent := w.unsent + {f});
    forall q | q in w'.db.intents ensures PurchaseOk(w', q) { PurchaseCarried(w, w', q); }
    EnvironmentHistory(w, w');
  }

  lemma EnvironmentHistory(w: World, w': World)
    requires IssuedOk(w) && w' == w.(unsent := w'.unsent, effects := w'.effects)
    requires w'.unsent <= w.issued.Keys && w'.effects <= w.issued.Keys && w'.unsent !! w'.effects
    ensures IssuedOk(w')
  {
    forall g | g in w'.issued
      ensures exists i :: 0 <= i < |LedgerOf(w', w'.issued[g].0, w'.issued[g].1).grants|
                          && LedgerOf(w', w'.issued[g].0, w'.issued[g].1).grants[i].fence == g
    {
      assert LedgerOf(w', w'.issued[g].0, w'.issued[g].1) == LedgerOf(w, w.issued[g].0, w.issued[g].1);
    }
  }

  lemma EffectKeeps(w: World, f: Id)
    requires Inv(w) && f in w.issued && f !in w.unsent
    ensures Inv(w.(effects := w.effects + {f}))
  {
    hide KeysOk, BindingsOk, ScopesOk, PurchaseOk;
    var w' := w.(effects := w.effects + {f});
    forall q | q in w'.db.intents ensures PurchaseOk(w', q) { PurchaseCarried(w, w', q); }
    EnvironmentHistory(w, w');
  }

  /** Every event, however stale the driver's view, keeps the invariant. */
  lemma StepKeeps(w: World, e: Event)
    requires Inv(w)
    ensures Inv(Step(w, e))
  {
    hide Inv;
    match e
    case Confirm(user, customer, account, key, meaning, admitted) =>
      PinKeeps(w, user, customer, account, key, meaning, admitted);
    case ClaimSend(caller, p, kind, expected, request, customerClear, now) =>
      ClaimKeeps(w, caller, p, kind, expected, request, customerClear, now);
    case TransportReportsNotSent(f) =>
      if f in w.issued && f !in w.effects { ReportKeeps(w, f); }
    case PostTakesEffect(f) =>
      if f in w.issued && f !in w.unsent { EffectKeeps(w, f); }
    case RecordNotSent(p, kind, expected) =>
      if Truthful(w, expected) { NotSentKeeps(w, p, kind, expected); }
    case RecordReceipt(p, kind, expected, providerId) =>
      ReceiptKeeps(w, p, kind, expected, providerId);
    case RecordPending(p, kind, expected, conflict, failure, now) =>
      PendingKeeps(w, p, kind, expected, conflict, failure, now);
    case RecordChangedTerms(p, seenState, seenAgreement, seenSubscription) =>
      ChangedTermsKeeps(w, p, seenState, seenAgreement, seenSubscription);
    case RecordBinding(p, kind, expected, providerId, observed, now) =>
      BindKeeps(w, p, kind, expected, providerId, observed, now);
    case EscalateOverdue(p, kind, seenFence, instant) =>
      EscalateKeeps(w, p, kind, seenFence, instant);
  }

  lemma {:induction false} RunKeeps(w: World, events: seq<Event>)
    requires Inv(w)
    ensures Inv(Run(w, events))
    decreases |events|
  {
    hide Inv, Step;
    if events != [] {
      StepKeeps(w, events[0]);
      RunKeeps(Step(w, events[0]), events[1..]);
    }
  }

  lemma ReachableInv(events: seq<Event>)
    ensures Inv(Run(START, events))
  {
    assert Inv(START);
    RunKeeps(START, events);
  }
}
