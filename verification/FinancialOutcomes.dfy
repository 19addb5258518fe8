/**
 What each financial transaction does, by what it means: in every reachable state it has its effect
 exactly under the conditions stated here, which speak of grants, returns, fences and bindings.
 */
module FinancialOutcomes {
  import opened FinancialKinds
  import opened FinancialModel
  import opened FinancialRuns
  import opened FinancialTheorems
  import opened Options

  // ----- the outcome of an operation, by its history -------------------------

  /** Nothing is out at the provider: every grant was returned unsent, nothing is bound, nobody reviews. */
  predicate Idle(op: Op, led: Ledger) {
    |led.accepted| == |led.grants| && op.bound.None? && op.state != ManualReview
  }

  /** The last grant may have had an effect, nothing is bound yet, and nobody reviews. */
  predicate InFlight(op: Op, led: Ledger) {
    |led.accepted| < |led.grants| && op.bound.None? && op.state != ManualReview
  }

  /** The states of an operation say just this. */
  lemma StatesMean(w: World, p: Id, kind: Kind)
    requires Inv(w) && p in w.db.intents
    ensures var op, led := w.db.intents[p].Get(kind), LedgerOf(w, p, kind);
            && (Idle(op, led) <==> op.state in {Pending, ProvenNotSent})
            && (op.state == Pending ==> led.grants == [])
            && (op.state == ProvenNotSent ==> led.grants != [] && op.work.Some? && op.work.value.candidate.None?)
            && (InFlight(op, led) <==> op.state in {PossibleSend, Unknown})
            && (InFlight(op, led) ==> op.work.Some? && |led.grants| == |led.accepted| + 1)
            && (led.grants == [] <==> op.unknownSince.None?) && (op.hint.Some? <==> op.unknownSince.Some?)
            && (op.work.Some? <==> op.unknownSince.Some?)
            && (op.work.Some? ==> op.work.value.attempts == |led.grants|)
            && (forall i :: 0 <= i < |led.grants| ==> op.hint.Some? && led.grants[i].request == op.hint.value.request)
            && (op.state == Bound ==> op.bound.Some?) && (op.bound.Some? ==> led.grants != [])
  {
    hide Inv;
    OperationFacts(w, p, kind);
  }

  // ----- claims -------------------------------------------------------------

  /** What must be true for this caller to be allowed a POST. */
  predicate MaySend(w: World, caller: Id, p: Id, kind: Kind, fence: Option<Id>, request: Request, customerClear: bool) {
    && p in w.db.intents && Held(w.db, p) && customerClear
    && var row, led := w.db.intents[p], LedgerOf(w, p, kind);
       && row.user == caller && row.state != IntentReview
       && Idle(row.Get(kind), led) && row.Get(kind).fence == fence
       && (forall i | 0 <= i < |led.grants| :: led.grants[i].request == request)
       && (kind.Subscription? ==> row.agreement.state == Bound)
  }

  lemma ClaimMeans(w: World, caller: Id, p: Id, kind: Kind, expected: OpView, request: Request, customerClear: bool, now: int)
    requires Inv(w)
    ensures var (db', reply) := Claim(w.db, caller, p, kind, expected, request, customerClear, now);
            if MaySend(w, caller, p, kind, expected.fence, request, customerClear)
            then var row := w.db.intents[p];
                 var op' := Granted(row.Get(kind), p, request, row.meaning.fingerprint, w.db.nextId, now);
                 reply == Ok(View(kind, op', true)) && db' == PutOp(w.db, p, kind, op', Preparing).(nextId := w.db.nextId + 1)
            else db' == w.db && !(reply.Ok? && reply.value.maySend)
  {
    hide Inv, Granted, PutOp, Held, LedgerOf;
    if p in w.db.intents {
      StatesMean(w, p, kind);
      var led := LedgerOf(w, p, kind);
      if led.grants != [] { assert led.grants[0].request == w.db.intents[p].Get(kind).hint.value.request; }
    }
  }

  /** The POST is permitted for this fence, with fresh evidence and a recovery window from now on. */
  predicate SentNow(op: Op, op': Op, p: Id, request: Request, fingerprint: nat, fence: Id, now: int) {
    && op'.state == PossibleSend && op'.fence == Some(fence)
    && op'.work.Some? && !op'.work.value.done && op'.work.value.activeDeadline == Some(now + RECOVERY_WINDOW)
    && op'.work.value.nextAttempt == now + RECOVERY_WINDOW
    && (if op.unknownSince.Some? then (op'.unknownSince, op'.unknownDeadline, op'.hint) == (op.unknownSince, op.unknownDeadline, op.hint)
        else (op'.unknownSince, op'.unknownDeadline, op'.hint)
             == (Some(now), Some(now + RECOVERY_WINDOW), Some(Hint(request, p, fingerprint))))
    && (op'.key, op'.bound, op'.openReviews) == (op.key, op.bound, op.openReviews)
  }

  lemma GrantedMeans(op: Op, p: Id, request: Request, fingerprint: nat, fence: Id, now: int)
    requires op.state in {Pending, ProvenNotSent} && (op.state == Pending <==> op.unknownSince.None?)
    ensures SentNow(op, Granted(op, p, request, fingerprint, fence, now), p, request, fingerprint, fence, now)
  {
  }

  /**
   In every reachable state a claim adds a grant exactly when the caller owns the held purchase, its
   customer is clear and nobody reviews it, the caller's view is current, every earlier grant was returned
   unsent and asked for the same, and, for a subscription, the agreement is bound.  A grant opens a new
   recovery window; a claim without one changes nothing.
   */
  lemma GrantedExactly(events: seq<Event>, caller: Id, p: Id, kind: Kind, expected: OpView, request: Request,
                       customerClear: bool, now: int)
    ensures var w := Run(START, events);
            var w' := Step(w, ClaimSend(caller, p, kind, expected, request, customerClear, now));
            var led := LedgerOf(w, p, kind);
            && (LedgerOf(w', p, kind).grants != led.grants
                <==> MaySend(w, caller, p, kind, expected.fence, request, customerClear))
            && (if MaySend(w, caller, p, kind, expected.fence, request, customerClear)
                then && LedgerOf(w', p, kind) == led.(grants := led.grants + [Grant(w.db.nextId, request)])
                     && p in w'.db.intents && w'.db.intents[p].state == Preparing
                     && SentNow(w.db.intents[p].Get(kind), w'.db.intents[p].Get(kind), p, request,
                                w.db.intents[p].meaning.fingerprint, w.db.nextId, now)
                else w' == w)
  {
    hide Inv, Run, Claim, MaySend, LedgerOf, Granted, SentNow, View;
    ReachableInv(events);
    var w := Run(START, events);
    ClaimMeans(w, caller, p, kind, expected, request, customerClear, now);
    if MaySend(w, caller, p, kind, expected.fence, request, customerClear) {
      PermittedFacts(w, caller, p, kind, expected.fence, request, customerClear);
      GrantedMeans(w.db.intents[p].Get(kind), p, request, w.db.intents[p].meaning.fingerprint, w.db.nextId, now);
      GrantRecorded(w, caller, p, kind, expected, request, customerClear, now);
    } else {
      NoGrantRecorded(w, caller, p, kind, expected, request, customerClear, now);
    }
  }

  lemma PermittedFacts(w: World, caller: Id, p: Id, kind: Kind, fence: Option<Id>, request: Request, customerClear: bool)
    requires Inv(w) && MaySend(w, caller, p, kind, fence, request, customerClear)
    ensures p in w.db.intents && w.db.intents[p].Get(kind).state in {Pending, ProvenNotSent}
    ensures w.db.intents[p].Get(kind).state == Pending <==> w.db.intents[p].Get(kind).unknownSince.None?
  {
    hide Inv;
    StatesMean(w, p, kind);
  }

  lemma GrantRecorded(w: World, caller: Id, p: Id, kind: Kind, expected: OpView, request: Request, customerClear: bool,
                      now: int)
    requires p in w.db.intents
    requires var row := w.db.intents[p];
             var op' := Granted(row.Get(kind), p, request, row.meaning.fingerprint, w.db.nextId, now);
             Claim(w.db, caller, p, kind, expected, request, customerClear, now)
             == (PutOp(w.db, p, kind, op', Preparing).(nextId := w.db.nextId + 1), Ok(View(kind, op', true)))
    ensures var w' := Step(w, ClaimSend(caller, p, kind, expected, request, customerClear, now));
            var row := w.db.intents[p];
            && LedgerOf(w', p, kind) == LedgerOf(w, p, kind).(grants := LedgerOf(w, p, kind).grants + [Grant(w.db.nextId, request)])
            && p in w'.db.intents && w'.db.intents[p].state == Preparing
            && w'.db.intents[p].Get(kind) == Granted(row.Get(kind), p, request, row.meaning.fingerprint, w.db.nextId, now)
  {
    hide Claim;
  }

  lemma NoGrantRecorded(w: World, caller: Id, p: Id, kind: Kind, expected: OpView, request: Request, customerClear: bool,
                        now: int)
    requires Claim(w.db, caller, p, kind, expected, request, customerClear, now).0 == w.db
    requires var reply := Claim(w.db, caller, p, kind, expected, request, customerClear, now).1;
             !(reply.Ok? && reply.value.maySend)
    ensures Step(w, ClaimSend(caller, p, kind, expected, request, customerClear, now)) == w
  {
    hide Claim;
  }

  // ----- returns and receipts -------------------------------------------------

  /**
   In every reachable state a not-sent result returns the last grant exactly when the transport reported
   that grant unsent, it is still the current one with an open outcome and no receipt, and nobody reviews.
   */
  lemma ReturnedExactly(events: seq<Event>, p: Id, kind: Kind, expected: OpView)
    ensures var w := Run(START, events);
            var w' := Step(w, RecordNotSent(p, kind, expected));
            var led := LedgerOf(w, p, kind);
            && (LedgerOf(w', p, kind).accepted != led.accepted <==> MayReturn(w, p, kind, expected))
            && (if MayReturn(w, p, kind, expected)
                then && LedgerOf(w', p, kind) == led.(accepted := led.accepted + [expected.fence.value])
                     && p in w'.db.intents && Idle(w'.db.intents[p].Get(kind), LedgerOf(w', p, kind))
                     && w'.db.intents[p].Get(kind).fence == Some(w.db.nextId)
                     && w'.db.intents[p].Get(kind).work.Some? && w'.db.intents[p].Get(kind).work.value.done
                else w' == w)
  {
    hide Inv, Run;
    ReachableInv(events);
    ReturnMeans(Run(START, events), p, kind, expected);
  }

  predicate MayReturn(w: World, p: Id, kind: Kind, expected: OpView) {
    && p in w.db.intents && Held(w.db, p) && w.db.intents[p].state != IntentReview
    && expected.maySend && expected.fence.Some? && expected.fence.value in w.unsent
    && var op := w.db.intents[p].Get(kind);
       InFlight(op, LedgerOf(w, p, kind)) && op.fence == expected.fence && op.work.Some? && op.work.value.candidate.None?
  }

  lemma ReturnMeans(w: World, p: Id, kind: Kind, expected: OpView)
    requires Inv(w)
    ensures var w' := Step(w, RecordNotSent(p, kind, expected));
            var led := LedgerOf(w, p, kind);
            if MayReturn(w, p, kind, expected)
            then && LedgerOf(w', p, kind) == led.(accepted := led.accepted + [expected.fence.value])
                 && p in w'.db.intents && Idle(w'.db.intents[p].Get(kind), LedgerOf(w', p, kind))
                 && w'.db.intents[p].Get(kind).fence == Some(w.db.nextId)
                 && w'.db.intents[p].Get(kind).work.Some? && w'.db.intents[p].Get(kind).work.value.done
            else w' == w
  {
    hide Inv;
    if p in w.db.intents { StatesMean(w, p, kind); }
    assert NotSent(w.db, p, kind, expected).0 != w.db <==> Held(w.db, p) && AcceptsNotSent(w.db.intents[p], w.db.intents[p].Get(kind), expected) by {
      if p in w.db.intents { FenceIsOld(w, p, kind); }
    }
  }

  lemma FenceIsOld(w: World, p: Id, kind: Kind)
    requires Inv(w) && p in w.db.intents
    ensures w.db.intents[p].Get(kind).fence != Some(w.db.nextId)
  {
    hide Inv;
    OperationFacts(w, p, kind);
  }

  /** In every reachable state a receipt is kept, as it was reported, exactly for the current grant with an open outcome. */
  lemma ReceiptKeptExactly(events: seq<Event>, p: Id, kind: Kind, expected: OpView, providerId: int)
    ensures var w := Run(START, events);
            var w' := Step(w, RecordReceipt(p, kind, expected, providerId));
            if MayKeep(w, p, kind, expected, providerId)
            then && p in w'.db.intents && w'.db.intents[p].Get(kind).work.Some?
                 && w'.db.intents[p].Get(kind).work.value == w.db.intents[p].Get(kind).work.value.(candidate := Some(providerId))
                 && w'.db.intents[p].state == w.db.intents[p].state
                 && w'.db.intents[p].Get(kind).state == w.db.intents[p].Get(kind).state
            else w' == w
  {
    hide Inv, Run;
    ReachableInv(events);
    var w := Run(START, events);
    if p in w.db.intents { StatesMean(w, p, kind); }
  }

  predicate MayKeep(w: World, p: Id, kind: Kind, expected: OpView, providerId: int) {
    && p in w.db.intents && Held(w.db, p) && expected.maySend
    && var op := w.db.intents[p].Get(kind);
       InFlight(op, LedgerOf(w, p, kind)) && op.fence == expected.fence
       && op.work.Some? && op.work.value.candidate in {None, Some(providerId)}
  }

  // ----- acceptance and release ------------------------------------------------

  /** A confirmation inserts a purchase exactly when its key is new, its scope is free and it is admitted. */
  lemma InsertedExactly(events: seq<Event>, user: Id, customer: Id, account: Id, key: Id, meaning: Meaning, admitted: bool)
    ensures var w := Run(START, events);
            var w' := Step(w, Confirm(user, customer, account, key, meaning, admitted));
            if admitted && (user, meaning.product) !in w.db.holds
               && forall q | q in w.db.intents :: w.db.intents[q].user != user || w.db.intents[q].idempotencyKey != key
            then var p := w.db.nextId;
                 && p !in w.db.intents && w'.db.intents.Keys == w.db.intents.Keys + {p} && Held(w'.db, p)
                 && w'.db.intents[p].Scope() == (user, meaning.product) && w'.db.intents[p].state == Created
                 && (w'.db.intents[p].customer, w'.db.intents[p].account, w'.db.intents[p].idempotencyKey, w'.db.intents[p].meaning)
                    == (customer, account, key, meaning)
                 && (forall kind: Kind :: w'.db.intents[p].Get(kind) == NewOp(w'.db.intents[p].Get(kind).key))
                 && w'.db.intents[p].agreement.key != w'.db.intents[p].subscription.key
                 && w' == w.(db := w'.db) && forall q | q in w.db.intents :: w'.db.intents[q] == w.db.intents[q]
            else w' == w
  {
    hide Inv, Run;
    ReachableInv(events);
    var w := Run(START, events);
    NextIdIsNew(w);
    forall q, r | q in w.db.intents && r in w.db.intents && q != r && SameRequest(w.db.intents[q], user, key)
      ensures !SameRequest(w.db.intents[r], user, key)
    {
      KeysOf(w);
    }
  }

  /**
   In every reachable state changed terms release the purchase exactly when the reader saw its current
   state and neither operation has anything out; they review it when something may be out, and do nothing
   for an outdated reader or a linked purchase.
   */
  lemma ReleasedExactly(events: seq<Event>, p: Id, seenState: IntentState, a: OpView, s: OpView)
    ensures var w := Run(START, events);
            var w' := Step(w, RecordChangedTerms(p, seenState, a, s));
            if !SeesCurrent(w, p, seenState, a, s) then w' == w
            else
              && p in w'.db.intents
              && (if forall kind: Kind :: Idle(w.db.intents[p].Get(kind), LedgerOf(w, p, kind))
                  then w'.db.intents[p] == w.db.intents[p].(state := FailedBeforeEffect) && !Held(w'.db, p)
                  else && w'.db.intents[p].state == IntentReview && Held(w'.db, p)
                       && w'.db.intents[p].subscription.state == ManualReview
                       && TermsChangedAfterPreparation in w'.db.intents[p].subscription.openReviews
                       && w'.db.intents[p].agreement == w.db.intents[p].agreement)
  {
    hide Inv, Run, View;
    ReachableInv(events);
    var w := Run(START, events);
    if p in w.db.intents {
      StatesMean(w, p, Agreement);
      StatesMean(w, p, Subscription);
      BothKinds(w, p);
    }
  }

  lemma BothKinds(w: World, p: Id)
    requires p in w.db.intents
    ensures (forall kind: Kind :: Idle(w.db.intents[p].Get(kind), LedgerOf(w, p, kind)))
            <==> Idle(w.db.intents[p].agreement, LedgerOf(w, p, Agreement))
                 && Idle(w.db.intents[p].subscription, LedgerOf(w, p, Subscription))
  {
    hide Idle, LedgerOf;
    if Idle(w.db.intents[p].agreement, LedgerOf(w, p, Agreement)) && Idle(w.db.intents[p].subscription, LedgerOf(w, p, Subscription)) {
      forall kind: Kind ensures Idle(w.db.intents[p].Get(kind), LedgerOf(w, p, kind)) {
        assert kind == Agreement || kind == Subscription;
      }
    }
    assert w.db.intents[p].Get(Agreement) == w.db.intents[p].agreement;
    assert w.db.intents[p].Get(Subscription) == w.db.intents[p].subscription;
  }

  predicate SeesCurrent(w: World, p: Id, seenState: IntentState, a: OpView, s: OpView) {
    && p in w.db.intents && Held(w.db, p) && w.db.intents[p].state != Linked && w.db.intents[p].state == seenState
    && View(Agreement, w.db.intents[p].agreement, false) == a && View(Subscription, w.db.intents[p].subscription, false) == s
  }

  // ----- bindings -------------------------------------------------------------

  /** The reader's view is current, and the operation was sent and not returned. */
  predicate Readable(w: World, p: Id, kind: Kind, expected: OpView) {
    && p in w.db.intents && Held(w.db, p)
    && var op, led := w.db.intents[p].Get(kind), LedgerOf(w, p, kind);
       op.fence == expected.fence && led.grants != [] && !Idle(op, led)
  }

  /** The proof fits what is known of this purchase. */
  predicate Fits(w: World, p: Id, kind: Kind, expected: OpView, providerId: int, observed: bool)
    requires Readable(w, p, kind, expected)
  {
    var row := w.db.intents[p];
    var op := row.Get(kind);
    && op.bound in {None, Some(providerId)}
    && (op.state == ManualReview && row.state == IntentReview ==> op.openReviews <= {OutcomeUnknown(kind)})
    && (kind.Subscription? ==> row.agreement.state == Bound && observed)
  }

  /** No other purchase of the account has this object. */
  predicate Unowned(w: World, p: Id, kind: Kind, providerId: int)
    requires p in w.db.intents
  {
    forall q | q in w.db.intents && q != p && w.db.intents[q].account == w.db.intents[p].account ::
      w.db.intents[q].Get(kind).bound != Some(providerId)
  }

  /** The operation is bound to `providerId`; its own open question is answered, and only that one. */
  predicate BoundTo(op: Op, op': Op, kind: Kind, providerId: int, fence: Id) {
    && op'.state == Bound && op'.bound == Some(providerId)
    && op'.fence == (if op.state == Bound then op.fence else Some(fence))
    && op'.openReviews == op.openReviews - {OutcomeUnknown(kind)}
    && op'.work.Some? && op'.work.value.done
    && (op'.key, op'.unknownSince, op'.unknownDeadline, op'.hint) == (op.key, op.unknownSince, op.unknownDeadline, op.hint)
  }

  /** The intent behind a binding: linked by its subscription, out of review once no operation is reviewed any more. */
  predicate MovesOn(row: Intent, row': Intent, kind: Kind) {
    if kind.Subscription? then row'.state == Linked
    else if row.state == IntentReview && row'.agreement.state != ManualReview && row'.subscription.state != ManualReview
    then row'.state == Preparing
    else row'.state == row.state
  }

  /** A review with this reason is open, behind a new fence, on the operation and its intent. */
  predicate ReviewedFor(w: World, w': World, p: Id, kind: Kind, reason: Reason)
    requires p in w.db.intents
  {
    && p in w'.db.intents && w'.db.intents[p].state == IntentReview
    && w'.db.intents[p].Get(Other(kind)) == w.db.intents[p].Get(Other(kind))
    && ReviewedOp(w.db.intents[p].Get(kind), w'.db.intents[p].Get(kind), reason, w.db.nextId)
  }

  predicate ReviewedOp(op: Op, op': Op, reason: Reason, fence: Id) {
    && op'.state == ManualReview && op'.fence == Some(fence) && op'.openReviews == op.openReviews + {reason}
    && (op'.key, op'.unknownSince, op'.unknownDeadline, op'.hint, op'.bound)
       == (op.key, op.unknownSince, op.unknownDeadline, op.hint, op.bound)
  }

  lemma AuditMeans(row: Intent, kind: Kind)
    ensures AuditRequired(row, kind, row.Get(kind))
            <==> row.Get(kind).state == ManualReview && row.state == IntentReview
                 && !(row.Get(kind).openReviews <= {OutcomeUnknown(kind)})
  {
    var op := row.Get(kind);
    if exists r :: r in op.openReviews && r != OutcomeUnknown(kind) {
      var r :| r in op.openReviews && r != OutcomeUnknown(kind);
      assert r !in {OutcomeUnknown(kind)};
    }
  }

  /** A local row names the ids of its two operations. */
  lemma RowAgrees(w: World, p: Id)
    requires Inv(w) && p in w.db.intents && p in w.db.subs
    ensures w.db.intents[p].subscription.bound == Some(w.db.subs[p].subscription)
    ensures w.db.intents[p].agreement.bound == Some(w.db.subs[p].agreement)
  {
    hide Inv;
    OperationFacts(w, p, Agreement);
  }

  lemma RefusalMeans(w: World, p: Id, kind: Kind, expected: OpView, providerId: int, observed: bool)
    requires Inv(w) && p in w.db.intents && Held(w.db, p)
    ensures BindRefusal(w.db, p, kind, expected, providerId, observed).None?
            <==> Readable(w, p, kind, expected) && Fits(w, p, kind, expected, providerId, observed)
  {
    hide Inv, LedgerOf, AuditRequired, Held;
    StatesMean(w, p, kind);
    AuditMeans(w.db.intents[p], kind);
    if p in w.db.subs { RowAgrees(w, p); }
  }

  lemma OwnershipMeans(w: World, p: Id, kind: Kind, providerId: int)
    requires p in w.db.intents
    ensures BoundElsewhere(w.db, p, kind, providerId) <==> !Unowned(w, p, kind, providerId)
  {
  }

  /**
   In every reachable state a point proof binds exactly when the reader's view is current, the operation
   was sent and not returned, the proof fits, and no other purchase of the account has the object.  An
   object that another one has opens a conflict; every other proof changes nothing.
   */
  lemma BoundExactly(events: seq<Event>, p: Id, kind: Kind, expected: OpView, providerId: int, observed: bool, now: int)
    ensures var w := Run(START, events);
            var w' := Step(w, RecordBinding(p, kind, expected, providerId, observed, now));
            if !Readable(w, p, kind, expected) || !Fits(w, p, kind, expected, providerId, observed) then w' == w
            else if Unowned(w, p, kind, providerId)
            then && p in w'.db.intents
                 && BoundTo(w.db.intents[p].Get(kind), w'.db.intents[p].Get(kind), kind, providerId, w.db.nextId)
                 && MovesOn(w.db.intents[p], w'.db.intents[p], kind)
                 && w'.db.intents[p].Get(Other(kind)) == w.db.intents[p].Get(Other(kind))
                 && (kind.Subscription? ==> p in w'.db.subs && w'.db.subs[p].subscription == providerId
                                            && Some(w'.db.subs[p].agreement) == w'.db.intents[p].agreement.bound)
                 && (kind.Agreement? ==> w'.db.subs == w.db.subs)
            else ReviewedFor(w, w', p, kind, BindingConflict)
  {
    hide Inv, Run, Fits, Unowned, BoundElsewhere, BindRefusal, BoundTo, MovesOn, ReviewedFor, PendingRead, LedgerOf, BoundOp;
    ReachableInv(events);
    var w := Run(START, events);
    if p in w.db.intents && Held(w.db, p) {
      RefusalMeans(w, p, kind, expected, providerId, observed);
      OwnershipMeans(w, p, kind, providerId);
      if Readable(w, p, kind, expected) && Fits(w, p, kind, expected, providerId, observed) {
        if Unowned(w, p, kind, providerId) {
          BindingMeans(w, p, kind, expected, providerId, observed, now);
        } else {
          ConflictMeans(w, p, kind, expected, None, now);
        }
      }
    }
  }

  /** The rows that a binding writes. */
  lemma BindingRows(w: World, p: Id, kind: Kind, expected: OpView, providerId: int, observed: bool, now: int)
    requires p in w.db.intents && Held(w.db, p)
    requires BindRefusal(w.db, p, kind, expected, providerId, observed).None? && !BoundElsewhere(w.db, p, kind, providerId)
    ensures var db' := Bind(w.db, p, kind, expected, providerId, observed, now).0;
            var row := w.db.intents[p];
            var row' := row.With(kind, BoundOp(row.Get(kind), kind, providerId, w.db.nextId));
            && p in db'.intents && db'.intents[p] == row'.(state := BoundState(row', kind))
            && db'.subs == if kind.Subscription? && p !in w.db.subs && row.agreement.bound.Some?
                           then w.db.subs[p := Sub(providerId, row.agreement.bound.value)] else w.db.subs
  {
    hide BindRefusal, BoundElsewhere, BoundOp, BoundState;
  }

  lemma BoundOpMeans(op: Op, kind: Kind, providerId: int, fence: Id)
    requires op.work.Some?
    ensures BoundTo(op, BoundOp(op, kind, providerId, fence), kind, providerId, fence)
  {
  }

  lemma BoundStateMeans(row: Intent, op': Op, kind: Kind)
    ensures var row' := row.With(kind, op'); MovesOn(row, row'.(state := BoundState(row', kind)), kind)
  {
  }

  lemma BindingMeans(w: World, p: Id, kind: Kind, expected: OpView, providerId: int, observed: bool, now: int)
    requires Inv(w) && Readable(w, p, kind, expected) && Fits(w, p, kind, expected, providerId, observed)
    requires BindRefusal(w.db, p, kind, expected, providerId, observed).None? && !BoundElsewhere(w.db, p, kind, providerId)
    ensures var db' := Bind(w.db, p, kind, expected, providerId, observed, now).0;
            && p in db'.intents
            && BoundTo(w.db.intents[p].Get(kind), db'.intents[p].Get(kind), kind, providerId, w.db.nextId)
            && MovesOn(w.db.intents[p], db'.intents[p], kind)
            && db'.intents[p].Get(Other(kind)) == w.db.intents[p].Get(Other(kind))
            && (kind.Subscription? ==> p in db'.subs && db'.subs[p].subscription == providerId
                                       && Some(db'.subs[p].agreement) == db'.intents[p].agreement.bound)
            && (kind.Agreement? ==> db'.subs == w.db.subs)
  {
    hide Inv, LedgerOf, BindRefusal, BoundElsewhere, Bind, BoundOp, BoundState, BoundTo, MovesOn;
    var row := w.db.intents[p];
    StatesMean(w, p, kind);
    StatesMean(w, p, Agreement);
    if p in w.db.subs { RowAgrees(w, p); }
    BindingRows(w, p, kind, expected, providerId, observed, now);
    BoundOpMeans(row.Get(kind), kind, providerId, w.db.nextId);
    BoundStateMeans(row, BoundOp(row.Get(kind), kind, providerId, w.db.nextId), kind);
  }

  lemma ConflictMeans(w: World, p: Id, kind: Kind, expected: OpView, failure: Option<Failure>, now: int)
    requires p in w.db.intents && Held(w.db, p) && w.db.intents[p].Get(kind).fence == expected.fence
    ensures ReviewedFor(w, w.(db := PendingRead(w.db, p, kind, expected, true, failure, now).0), p, kind, BindingConflict)
    ensures p in PendingRead(w.db, p, kind, expected, true, failure, now).0.intents
  {
  }

  // ----- failed reads and the deadline ------------------------------------------

  /** The recovery window of the last grant is over. */
  predicate WindowOver(op: Op, now: int) {
    op.work.Some? && op.work.value.activeDeadline.Some? && op.work.value.activeDeadline.value <= now
  }

  lemma OverdueMeans(w: World, p: Id, kind: Kind, now: int)
    requires Inv(w) && p in w.db.intents
    ensures Overdue(w.db.intents[p].Get(kind), now) <==> WindowOver(w.db.intents[p].Get(kind), now)
  {
    hide Inv;
    OperationFacts(w, p, kind);
  }

  /** The evidence of the operation stays, and the failure is noted on its work item. */
  predicate Noted(op: Op, op': Op, failure: Option<Failure>) {
    && (op'.key, op'.fence, op'.unknownSince, op'.unknownDeadline, op'.hint, op'.bound, op'.openReviews)
       == (op.key, op.fence, op.unknownSince, op.unknownDeadline, op.hint, op.bound, op.openReviews)
    && op'.work.Some? == op.work.Some?
    && (op.work.Some? ==>
          && op'.work.value.lastFailure == (if failure.Some? then failure else op.work.value.lastFailure)
          && (op'.work.value.activeDeadline, op'.work.value.attempts, op'.work.value.candidate)
             == (op.work.value.activeDeadline, op.work.value.attempts, op.work.value.candidate))
  }

  /**
   In every reachable state a failed, empty or conflicting read with a current view does this: a conflict,
   or the end of the recovery window of an unbound operation, opens a review; a bound operation is looked
   at again; one under review stays there; an open one becomes unknown.  After a returned grant a read
   that is no conflict changes nothing, and neither does an outdated view.
   */
  lemma DemotedExactly(events: seq<Event>, p: Id, kind: Kind, expected: OpView, conflict: bool, failure: Option<Failure>,
                       now: int)
    ensures var w := Run(START, events);
            var w' := Step(w, RecordPending(p, kind, expected, conflict, failure, now));
            if !Current(w, p, kind, expected) || (!conflict && w.db.intents[p].Get(kind).state == ProvenNotSent) then w' == w
            else
              var row, op := w.db.intents[p], w.db.intents[p].Get(kind);
              && p in w'.db.intents
              && var row', op' := w'.db.intents[p], w'.db.intents[p].Get(kind);
                 if conflict then ReviewedFor(w, w', p, kind, BindingConflict)
                 else if op.state != Bound && WindowOver(op, now) then ReviewedFor(w, w', p, kind, OutcomeUnknown(kind))
                 else
                   && Noted(op, op', failure) && row'.Get(Other(kind)) == row.Get(Other(kind))
                   && op'.state == (if InFlight(op, LedgerOf(w, p, kind)) then Unknown else op.state)
                   && row'.state == (if op.state == ManualReview || (op.state == Bound && row.state in {IntentReview, Linked})
                                     then row.state else AwaitingResult)
                   && (op.state == Bound ==> op'.work.Some? && !op'.work.value.done && op'.work.value.nextAttempt == now)
  {
    hide Inv, Run, LedgerOf, ReviewedFor, Noted, PendingRead, Overdue;
    ReachableInv(events);
    var w := Run(START, events);
    if Current(w, p, kind, expected) && (conflict || w.db.intents[p].Get(kind).state != ProvenNotSent) {
      StatesMean(w, p, kind);
      OverdueMeans(w, p, kind, now);
      if conflict {
        ConflictMeans(w, p, kind, expected, failure, now);
      } else if w.db.intents[p].Get(kind).state != Bound && WindowOver(w.db.intents[p].Get(kind), now) {
        DeadlineMeans(w, p, kind, expected, failure, now);
      } else {
        ReadMeans(w, p, kind, expected, failure, now);
      }
    } else {
      StaleMeans(w, p, kind, expected, conflict, failure, now);
    }
  }

  lemma StaleMeans(w: World, p: Id, kind: Kind, expected: OpView, conflict: bool, failure: Option<Failure>, now: int)
    requires !Current(w, p, kind, expected) || (!conflict && w.db.intents[p].Get(kind).state == ProvenNotSent)
    ensures w.(db := PendingRead(w.db, p, kind, expected, conflict, failure, now).0) == w
  {
  }

  lemma DeadlineMeans(w: World, p: Id, kind: Kind, expected: OpView, failure: Option<Failure>, now: int)
    requires Current(w, p, kind, expected) && w.db.intents[p].Get(kind).state !in {Bound, ProvenNotSent}
    requires Overdue(w.db.intents[p].Get(kind), now)
    ensures ReviewedFor(w, w.(db := PendingRead(w.db, p, kind, expected, false, failure, now).0), p, kind, OutcomeUnknown(kind))
    ensures p in PendingRead(w.db, p, kind, expected, false, failure, now).0.intents
  {
    hide Overdue;
  }

  lemma NotedMeans(op: Op, failure: Option<Failure>, now: int)
    ensures var op' := WithFailure(Rescheduled(op, now), failure);
            && Noted(op, op', failure) && op'.state == op.state
            && (op.state == Bound && op.work.Some? ==>
                  op'.work.Some? && !op'.work.value.done && op'.work.value.nextAttempt == now)
  {
  }

  /** The row behind a read that opens no review. */
  lemma QuietRow(db: Db, p: Id, kind: Kind, expected: OpView, failure: Option<Failure>, now: int)
    requires Held(db, p) && db.intents[p].Get(kind).fence == expected.fence
    requires db.intents[p].Get(kind).state != ProvenNotSent
    requires db.intents[p].Get(kind).state == Bound || !Overdue(db.intents[p].Get(kind), now)
    ensures var row, op := db.intents[p], db.intents[p].Get(kind);
            var db' := PendingRead(db, p, kind, expected, false, failure, now).0;
            var op1 := if op.state in {Bound, ManualReview} then op
                       else op.(state := if op.unknownSince.Some? then Unknown else Pending);
            && p in db'.intents
            && db'.intents[p].Get(kind) == WithFailure(Rescheduled(op1, now), failure)
            && db'.intents[p].Get(Other(kind)) == row.Get(Other(kind))
            && db'.intents[p].state == if op.state == ManualReview || (op.state == Bound && row.state in {IntentReview, Linked})
                                       then row.state else AwaitingResult
  {
    hide Overdue, WithFailure, Rescheduled;
  }

  predicate Current(w: World, p: Id, kind: Kind, expected: OpView) {
    p in w.db.intents && Held(w.db, p) && w.db.intents[p].Get(kind).fence == expected.fence
  }

  lemma ReadMeans(w: World, p: Id, kind: Kind, expected: OpView, failure: Option<Failure>, now: int)
    requires Current(w, p, kind, expected)
    requires w.db.intents[p].Get(kind).state != ProvenNotSent
    requires w.db.intents[p].Get(kind).state == Bound || !Overdue(w.db.intents[p].Get(kind), now)
    requires w.db.intents[p].Get(kind).state == Pending ==> w.db.intents[p].Get(kind).unknownSince.None?
    requires w.db.intents[p].Get(kind).state in {PossibleSend, Unknown} ==> w.db.intents[p].Get(kind).unknownSince.Some?
    requires w.db.intents[p].Get(kind).state == Bound ==> w.db.intents[p].Get(kind).work.Some?
    ensures var w' := w.(db := PendingRead(w.db, p, kind, expected, false, failure, now).0);
            var row, op := w.db.intents[p], w.db.intents[p].Get(kind);
            && p in w'.db.intents
            && var row', op' := w'.db.intents[p], w'.db.intents[p].Get(kind);
               && Noted(op, op', failure) && row'.Get(Other(kind)) == row.Get(Other(kind))
               && op'.state == (if op.state in {PossibleSend, Unknown} then Unknown else op.state)
               && row'.state == (if op.state == ManualReview || (op.state == Bound && row.state in {IntentReview, Linked})
                                 then row.state else AwaitingResult)
               && (op.state == Bound ==> op'.work.Some? && !op'.work.value.done && op'.work.value.nextAttempt == now)
  {
    hide Overdue, WithFailure, Rescheduled, PendingRead, Held;
    QuietRow(w.db, p, kind, expected, failure, now);
    var op := w.db.intents[p].Get(kind);
    var op1 := if op.state in {Bound, ManualReview} then op else op.(state := if op.unknownSince.Some? then Unknown else Pending);
    NotedMeans(op1, failure, now);
  }

  /** In every reachable state the batch reviews an operation exactly when it is still as seen, open and past its window. */
  lemma EscalatedExactly(events: seq<Event>, p: Id, kind: Kind, seenFence: Option<Id>, instant: int)
    ensures var w := Run(START, events);
            var w' := Step(w, EscalateOverdue(p, kind, seenFence, instant));
            if p in w.db.intents && Held(w.db, p) && w.db.intents[p].Get(kind).fence == seenFence
               && InFlight(w.db.intents[p].Get(kind), LedgerOf(w, p, kind)) && WindowOver(w.db.intents[p].Get(kind), instant)
            then ReviewedFor(w, w', p, kind, OutcomeUnknown(kind))
            else w' == w
  {
    hide Inv, Run, LedgerOf, Overdue;
    ReachableInv(events);
    var w := Run(START, events);
    if p in w.db.intents {
      StatesMean(w, p, kind);
      OverdueMeans(w, p, kind, instant);
    }
  }
}
