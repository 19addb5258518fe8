/**
 The transactions of financial.py and pin_purchase as they are written: locals are changed step by
 step and the rows are assigned at the commit, so a refusal or an early return leaves them alone.
 Each is proved against the step function of FinancialModel, about which the run theorems speak.
 */
module FinancialStore {
  import opened Options
  import opened FinancialKinds
  import opened FinancialModel

  class Store {
    var intents: map<Id, Intent>
    var holds: map<(Id, Id), Id>
    var subs: map<Id, Sub>
    var nextId: Id

    function Rows(): Db
      reads this
    {
      Db(intents, holds, subs, nextId)
    }

    constructor ()
      ensures Rows() == EMPTY_DB
    {
      intents, holds, subs, nextId := map[], map[], map[], 0;
    }

    method PinPurchase(user: Id, customer: Id, account: Id, key: Id, meaning: Meaning, admitted: bool)
      returns (reply: Reply<Id>)
      modifies this
      ensures (Rows(), reply) == Pin(old(Rows()), user, customer, account, key, meaning, admitted)
    {
      var candidates := set p | p in intents && SameRequest(intents[p], user, key);
      TwoCandidates(Rows(), user, key, candidates);
      if |candidates| > 1 {
        return Refused(IdempotencyConflict);
      }
      if candidates != {} {
        var previous :| previous in candidates;
        return if intents[previous].meaning != meaning then Refused(IdempotencyConflict) else Ok(previous);
      }
      assert forall p | p in intents :: SameRequest(intents[p], user, key) ==> p in candidates;
      if (user, meaning.product) in holds {
        return Refused(ScopeOccupied);
      }
      if !admitted {
        return Refused(AdmissionRefused);
      }
      var p := nextId;
      var row := Intent(user, meaning.product, customer, account, key, meaning, Created, NewOp(p + 1), NewOp(p + 2));
      intents := intents[p := row];
      holds := holds[row.Scope() := p];
      nextId := nextId + 3;
      return Ok(p);
    }

    method ClaimFinancial(caller: Id, p: Id, kind: Kind, expected: OpView, request: Request, customerClear: bool,
                        now: int)
      returns (reply: Reply<OpView>)
      modifies this
      ensures (Rows(), reply) == Claim(old(Rows()), caller, p, kind, expected, request, customerClear, now)
    {
      if p !in intents || intents[p].user != caller {
        return Refused(PurchaseNotFound);
      }
      if !Held(Rows(), p) {
        return Refused(ScopeReleased);
      }
      var row := intents[p];
      var operation := row.Get(kind);
      if row.state == IntentReview || operation.state !in {Pending, ProvenNotSent}
         || operation.fence != expected.fence || operation.bound.Some?
      {
        return Ok(View(kind, operation, false));
      }
      var retryUnsent := operation.state == ProvenNotSent;
      if !retryUnsent && operation.unknownSince.Some? {
        return Ok(View(kind, operation, false));
      }
      if !customerClear {
        return Refused(IdentityUnproven);
      }
      if retryUnsent && (operation.unknownSince.None? || operation.hint.None?
                         || operation.hint.value.request != request
                         || operation.work.None? || operation.work.value.candidate.Some?)
      {
        return Refused(HistoryUnproven);
      }
      if kind.Subscription? && row.agreement.state != Bound {
        return Refused(PurchasePending);
      }
      operation := operation.(fence := Some(nextId), state := PossibleSend);
      nextId := nextId + 1;
      if !retryUnsent {
        operation := operation.(unknownSince := Some(now),
                                unknownDeadline := Some(now + RECOVERY_WINDOW),
                                hint := Some(Hint(request, p, row.meaning.fingerprint)));
      }
      var work: Work;
      if operation.work.None? {
        work := Work(false, Some(now + RECOVERY_WINDOW), now + RECOVERY_WINDOW, 1, None, None);
      } else {
        work := operation.work.value.(done := false, activeDeadline := Some(now + RECOVERY_WINDOW));
        work := work.(nextAttempt := work.activeDeadline.value);
        work := work.(attempts := work.attempts + 1);
      }
      operation := operation.(work := Some(work));
      row := row.With(kind, operation).(state := Preparing);
      intents := intents[p := row];
      reply := Ok(View(kind, operation, true));
    }

    method ProvenNotSentResult(p: Id, kind: Kind, expected: OpView) returns (reply: Reply<()>)
      modifies this
      ensures (Rows(), reply) == NotSent(old(Rows()), p, kind, expected)
    {
      if !Held(Rows(), p) {
        return Refused(LockRefusal(Rows(), p));
      }
      var row := intents[p];
      var op := row.Get(kind);
      if !expected.maySend || expected.fence.None? || op.fence != expected.fence
         || op.state !in {PossibleSend, Unknown} || op.bound.Some? || op.unknownSince.None? || op.hint.None?
         || op.work.None? || op.work.value.candidate.Some? || row.state == IntentReview
      {
        return Ok(());
      }
      op := op.(state := ProvenNotSent, fence := Some(nextId));
      nextId := nextId + 1;
      var work := op.work.value.(done := true);
      work := work.(lastFailure := Some(NotSentFailure));
      row := row.With(kind, op.(work := Some(work))).(state := Preparing);
      intents := intents[p := row];
      return Ok(());
    }

    method RecordReceipt(p: Id, kind: Kind, expected: OpView, providerId: int) returns (reply: Reply<()>)
      modifies this
      ensures (Rows(), reply) == Receipt(old(Rows()), p, kind, expected, providerId)
    {
      if !Held(Rows(), p) {
        return Refused(LockRefusal(Rows(), p));
      }
      var row := intents[p];
      var op := row.Get(kind);
      if op.fence != expected.fence || !expected.maySend || op.state !in {PossibleSend, Unknown} {
        return Refused(PurchasePending);
      }
      if op.work.None? || op.work.value.candidate !in {None, Some(providerId)} {
        return Refused(ReviewRequired);
      }
      var work := op.work.value.(candidate := Some(providerId));
      intents := intents[p := row.With(kind, op.(work := Some(work)))];
      return Ok(());
    }

    method FinancialPending(p: Id, kind: Kind, expected: OpView, conflict: bool, failure: Option<Failure>, now: int)
      returns (reply: Reply<()>)
      modifies this
      ensures (Rows(), reply) == PendingRead(old(Rows()), p, kind, expected, conflict, failure, now)
    {
      hide Observed, Demoted, LockRefusal;
      if !Held(Rows(), p) {
        return Refused(LockRefusal(Rows(), p));
      }
      var row := intents[p];
      var op := row.Get(kind);
      ghost var found := op;
      if op.fence != expected.fence {
        return Ok(());
      }
      var deadline := RecoveryDeadline(op);
      if conflict {
        op := Reviewed(op, BindingConflict, nextId);
        nextId := nextId + 1;
        row := row.(state := IntentReview);
      } else if op.state == ProvenNotSent {
        return Ok(());
      } else if op.state != Bound {
        if deadline.Some? && now >= deadline.value {
          op := Reviewed(op, OutcomeUnknown(kind), nextId);
          nextId := nextId + 1;
          row := row.(state := IntentReview);
        } else if op.state != ManualReview {
          op := op.(state := if op.unknownSince.Some? then Unknown else Pending);
          row := row.(state := AwaitingResult);
        }
      } else if row.state !in {IntentReview, Linked} {
        row := row.(state := AwaitingResult);
      }
      assert (row.state, op, nextId) == Branch(intents[p], found, kind, conflict, now, old(nextId));
      var work := op.work;
      if work.Some? && op.state == Bound {
        work := Some(work.value.(done := false, nextAttempt := now));
      }
      if work.Some? && failure.Some? {
        work := Some(work.value.(lastFailure := failure));
      }
      op := op.(work := work);
      intents := intents[p := row.With(kind, op)];
      PendingAsOneWrite(old(Rows()), p, kind, conflict, failure, now);
      return Ok(());
    }

    method ChangedUnsentTerms(p: Id, seenState: IntentState, seenAgreement: OpView, seenSubscription: OpView)
      returns (reply: Reply<()>)
      modifies this
      ensures (Rows(), reply) == ChangedTerms(old(Rows()), p, seenState, seenAgreement, seenSubscription)
    {
      if !Held(Rows(), p) {
        return Refused(LockRefusal(Rows(), p));
      }
      var row := intents[p];
      if row.state == Linked || row.state != seenState
         || (View(Agreement, row.agreement, false), View(Subscription, row.subscription, false))
            != (seenAgreement, seenSubscription)
      {
        return Ok(());
      }
      if row.agreement.state !in {Pending, ProvenNotSent} || row.agreement.bound.Some?
         || row.subscription.state !in {Pending, ProvenNotSent} || row.subscription.bound.Some?
      {
        row := row.(subscription := Reviewed(row.subscription, TermsChangedAfterPreparation, nextId), state := IntentReview);
        nextId := nextId + 1;
      } else {
        row := row.(state := FailedBeforeEffect);
        holds := holds - {row.Scope()};
      }
      intents := intents[p := row];
      return Ok(());
    }

    method BindFinancial(p: Id, kind: Kind, expected: OpView, providerId: int, observed: bool, now: int)
      returns (reply: Reply<()>)
      modifies this
      ensures (Rows(), reply) == Bind(old(Rows()), p, kind, expected, providerId, observed, now)
    {
      hide PendingRead, BoundElsewhere, LockRefusal;
      if !Held(Rows(), p) {
        return Refused(LockRefusal(Rows(), p));
      }
      var row := intents[p];
      var op := row.Get(kind);
      if op.fence != expected.fence {
        return Refused(PurchasePending);
      }
      if op.state in {Pending, ProvenNotSent} || op.unknownSince.None? || op.hint.None? {
        return Refused(HistoryUnproven);
      }
      if op.bound !in {None, Some(providerId)} {
        return Refused(ReviewRequired);
      }
      if op.state == ManualReview && row.state == IntentReview {
        if exists reason | reason in op.openReviews :: reason != OutcomeUnknown(kind) {
          return Refused(ReviewRequired);
        }
      }
      ghost var found := op;
      var alreadyBound := op.state == Bound;
      op := op.(bound := Some(providerId), state := Bound);
      if !alreadyBound {
        op := op.(fence := Some(nextId));
      }
      if op.work.Some? {
        op := op.(work := Some(op.work.value.(done := true)));
      }
      op := op.(openReviews := op.openReviews - {OutcomeUnknown(kind)});
      assert op == BoundOp(found, kind, providerId, nextId);
      hide BoundOp;
      row := row.With(kind, op);
      if row.state == IntentReview && row.agreement.state != ManualReview && row.subscription.state != ManualReview {
        row := row.(state := Preparing);
      }
      var subs' := subs;
      if kind.Subscription? {
        if row.agreement.state != Bound || !observed {
          return Refused(PurchasePending);
        }
        if p in subs' && (subs'[p].subscription != providerId || Some(subs'[p].agreement) != row.agreement.bound) {
          return Refused(ReviewRequired);
        }
        if p !in subs' && row.agreement.bound.Some? {
          subs' := subs'[p := Sub(providerId, row.agreement.bound.value)];
        }
        row := row.(state := Linked);
      }
      if BoundElsewhere(Rows(), p, kind, providerId) {
        // The failed unit has rolled back; the conflict is a transaction of its own.
        var _ := FinancialPending(p, kind, expected, true, None, now);
        return Refused(ReviewRequired);
      }
      intents, subs, nextId := intents[p := row], subs', nextId + 1;
      return Ok(());
    }

    /** One transaction of the escalation loop, for the operation as the batch read it. */
    method EscalateOne(p: Id, kind: Kind, seenFence: Option<Id>, instant: int) returns (counted: nat)
      requires Held(Rows(), p)
      modifies this
      ensures Rows() == Escalate(old(Rows()), p, kind, seenFence, instant)
      ensures counted == if Escalates(old(Rows()), p, kind, seenFence, instant) then 1 else 0
    {
      var row := intents[p];
      var current := row.Get(kind);
      var deadline := RecoveryDeadline(current);
      if deadline.Some? && deadline.value <= instant && current.fence == seenFence
         && current.state in {PossibleSend, Unknown}
      {
        current := Reviewed(current, OutcomeUnknown(kind), nextId);
        nextId := nextId + 1;
        intents := intents[p := row.With(kind, current).(state := IntentReview)];
        return 1;
      }
      return 0;
    }

    /** escalate_overdue_financial over the purchases its query returned. */
    method EscalateOverdue(candidates: seq<Id>, instant: int, limit: nat)
      returns (count: nat, refused: Option<Refusal>)
      requires limit > 0
      modifies this
      ensures count <= limit
      ensures holds == old(holds) && subs == old(subs)
      ensures Escalated(old(Rows()), Rows(), candidates, instant)
      ensures refused.None? && count < limit ==> forall p | p in candidates :: Settled(Rows(), p, instant)
    {
      hide Escalated, Escalate, Escalates, Held, Due;
      count, refused := 0, None;
      NothingEscalated(Rows(), candidates, instant);
      var i := 0;
      while i < |candidates|
        invariant 0 <= i <= |candidates| && count <= limit && refused.None?
        invariant holds == old(holds) && subs == old(subs)
        invariant Escalated(old(Rows()), Rows(), candidates, instant)
        invariant forall j | 0 <= j < i :: Settled(Rows(), candidates[j], instant)
      {
        var p := candidates[i];
        if p !in intents {
          refused := Some(PurchaseNotFound);
          return;
        }
        var purchase := intents[p];
        var k := 0;
        while k < 2
          invariant 0 <= k <= 2 && count <= limit && refused.None?
          invariant holds == old(holds) && subs == old(subs)
          invariant Escalated(old(Rows()), Rows(), candidates, instant)
          invariant forall j | 0 <= j < i :: Settled(Rows(), candidates[j], instant)
          invariant p in intents
          invariant k <= 1 ==> intents[p].subscription == purchase.subscription
          invariant k == 0 ==> intents[p].agreement == purchase.agreement
          invariant k >= 1 ==> !Due(intents[p].agreement, instant)
          invariant k == 2 ==> !Due(intents[p].subscription, instant)
        {
          var kind := if k == 0 then Agreement else Subscription;
          if count >= limit {
            return;
          }
          if Due(purchase.Get(kind), instant) {
            if !Held(Rows(), p) {
              refused := Some(ScopeReleased);
              return;
            }
            ghost var before := Rows();
            var counted := EscalateOne(p, kind, purchase.Get(kind).fence, instant);
            count := count + counted;
            EscalateStep(old(Rows()), before, candidates, p, kind, instant);
            EscalateEffect(before, p, kind, instant);
            SettledStays(before, candidates[..i], p, kind, instant);
          }
          k := k + 1;
        }
        i := i + 1;
      }
    }
  }

  /** What the branches of a failed read decide: the intent's state, the operation, and the next identifier. */
  function Branch(row: Intent, op: Op, kind: Kind, conflict: bool, now: int, nextId: Id): (IntentState, Op, Id) {
    if conflict then (IntentReview, Reviewed(op, BindingConflict, nextId), nextId + 1)
    else if op.state == Bound then (if row.state in {IntentReview, Linked} then row.state else AwaitingResult, op, nextId)
    else if Overdue(op, now) then (IntentReview, Reviewed(op, OutcomeUnknown(kind), nextId), nextId + 1)
    else if op.state == ManualReview then (row.state, op, nextId)
    else (AwaitingResult, op.(state := if op.unknownSince.Some? then Unknown else Pending), nextId)
  }

  lemma DemotedRow(db: Db, p: Id, kind: Kind, conflict: bool, now: int)
    requires p in db.intents
    ensures var row := db.intents[p];
            var (state, op, n) := Branch(row, row.Get(kind), kind, conflict, now, db.nextId);
            Demoted(db, p, kind, conflict, now)
            == Db(db.intents[p := row.With(kind, op).(state := state)], db.holds, db.subs, n)
  {
    hide Overdue, Reviewed;
    var row := db.intents[p];
    if row == row.With(kind, row.Get(kind)) {
      assert db.intents == db.intents[p := row];
    }
  }

  /** The demotion and the bookkeeping of one failed read reach the table as one row. */
  lemma PendingAsOneWrite(db: Db, p: Id, kind: Kind, conflict: bool, failure: Option<Failure>, now: int)
    requires p in db.intents
    ensures var row := db.intents[p];
            var (state, op, n) := Branch(row, row.Get(kind), kind, conflict, now, db.nextId);
            var mid := Demoted(db, p, kind, conflict, now);
            p in mid.intents && Observed(mid, p, kind, failure, now)
            == Db(db.intents[p := row.With(kind, op.(work := Bookkept(op, failure, now))).(state := state)],
                  db.holds, db.subs, n)
  {
    hide Branch, Demoted;
    DemotedRow(db, p, kind, conflict, now);
    var (state, op, n) := Branch(db.intents[p], db.intents[p].Get(kind), kind, conflict, now, db.nextId);
    assert WithFailure(Rescheduled(op, now), failure) == op.(work := Bookkept(op, failure, now));
  }

  function Bookkept(op: Op, failure: Option<Failure>, now: int): Option<Work> {
    var work := if op.work.Some? && op.state == Bound
                then Some(op.work.value.(done := false, nextAttempt := now)) else op.work;
    if work.Some? && failure.Some? then Some(work.value.(lastFailure := failure)) else work
  }

  /** An operation whose outcome is still open past its active recovery window. */
  predicate Due(op: Op, instant: int) {
    op.state in {PossibleSend, Unknown} && Overdue(op, instant)
  }

  predicate Settled(db: Db, p: Id, instant: int) {
    p in db.intents && !Due(db.intents[p].agreement, instant) && !Due(db.intents[p].subscription, instant)
  }

  /** Escalation opens one review and retires the fence; every piece of send evidence stays. */
  ghost predicate Closed(op: Op, op': Op, kind: Kind, oldNext: Id) {
    && op'.fence.Some? && op'.fence.value >= oldNext
    && op' == op.(state := ManualReview, openReviews := op.openReviews + {OutcomeUnknown(kind)}, fence := op'.fence)
  }

  ghost predicate KeptOrClosed(db: Db, db': Db, candidates: seq<Id>, p: Id, kind: Kind, instant: int)
    requires p in db.intents && p in db'.intents
  {
    var op, op' := db.intents[p].Get(kind), db'.intents[p].Get(kind);
    op' == op || (p in candidates && Due(op, instant) && Closed(op, op', kind, db.nextId))
  }

  /** What a batch may do: close due operations of its candidates, and nothing else. */
  ghost predicate Escalated(db: Db, db': Db, candidates: seq<Id>, instant: int) {
    && db'.intents.Keys == db.intents.Keys && db'.nextId >= db.nextId
    && (forall p | p in db.intents :: KeptOrClosed(db, db', candidates, p, Agreement, instant)
                                      && KeptOrClosed(db, db', candidates, p, Subscription, instant))
  }

  lemma EscalateStep(start: Db, db: Db, candidates: seq<Id>, p: Id, kind: Kind, instant: int)
    requires Escalated(start, db, candidates, instant) && p in db.intents && p in candidates && Held(db, p)
    requires Due(db.intents[p].Get(kind), instant)
    ensures Escalated(start, Escalate(db, p, kind, db.intents[p].Get(kind).fence, instant), candidates, instant)
  {
    var db' := Escalate(db, p, kind, db.intents[p].Get(kind).fence, instant);
    forall q | q in start.intents
      ensures KeptOrClosed(start, db', candidates, q, Agreement, instant)
              && KeptOrClosed(start, db', candidates, q, Subscription, instant)
    {
      assert KeptOrClosed(start, db, candidates, q, Agreement, instant);
      assert KeptOrClosed(start, db, candidates, q, Subscription, instant);
    }
  }

  lemma EscalateEffect(db: Db, p: Id, kind: Kind, instant: int)
    requires p in db.intents && Held(db, p) && Due(db.intents[p].Get(kind), instant)
    ensures var db' := Escalate(db, p, kind, db.intents[p].Get(kind).fence, instant);
            p in db'.intents && !Due(db'.intents[p].Get(kind), instant)
            && (kind.Agreement? ==> db'.intents[p].subscription == db.intents[p].subscription)
            && (kind.Subscription? ==> db'.intents[p].agreement == db.intents[p].agreement)
            && db'.holds == db.holds && db'.subs == db.subs
  {
  }

  lemma NothingEscalated(db: Db, candidates: seq<Id>, instant: int)
    ensures Escalated(db, db, candidates, instant)
  {
  }

  lemma SettledStays(db: Db, done: seq<Id>, p: Id, kind: Kind, instant: int)
    requires p in db.intents && Held(db, p) && Due(db.intents[p].Get(kind), instant)
    requires forall j | 0 <= j < |done| :: Settled(db, done[j], instant)
    ensures forall j | 0 <= j < |done| ::
              Settled(Escalate(db, p, kind, db.intents[p].Get(kind).fence, instant), done[j], instant)
  {
  }

  lemma TwoCandidates(db: Db, user: Id, key: Id, candidates: set<Id>)
    requires candidates == set p | p in db.intents && SameRequest(db.intents[p], user, key)
    ensures |candidates| > 1 <==> Ambiguous(db, user, key)
  {
    if |candidates| > 1 {
      var p :| p in candidates;
      assert |candidates - {p}| > 0;
      var q :| q in candidates - {p};
      assert SameRequest(db.intents[p], user, key) && SameRequest(db.intents[q], user, key);
    }
    if Ambiguous(db, user, key) {
      var p, q :| p in db.intents && q in db.intents && p != q
                  && SameRequest(db.intents[p], user, key) && SameRequest(db.intents[q], user, key);
      assert |candidates - {p} - {q}| == |candidates| - 2;
    }
  }
}
