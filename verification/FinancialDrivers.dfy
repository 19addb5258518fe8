/**
 A call of _prepare against the shared database: each of its calls is one or more events of a run of
 the financial protocol, with the events of everybody else in between.
 */
module FinancialDrivers {
  import opened FinancialKinds
  import opened FinancialModel
  import opened FinancialRuns
  import opened FinancialTheorems
  import opened Interleaving
  import opened Options
  import D = Drivers

  /** The purchase that one call advances, and its caller. */
  datatype Driver = Driver(caller: Id, p: Id)

  type Piece = Part<D.Action, Event>

  /** The world in which call `i` starts. */
  ghost function At(w: World, parts: seq<Piece>, i: nat): World
    requires i <= |parts|
  {
    if i == 0 then w else Run(At(w, parts, i - 1), Events(parts[i - 1].marks))
  }

  /** What the driver's last read before call `i` showed of the operation. */
  ghost function Seen(w: World, d: Driver, parts: seq<Piece>, i: nat, kind: Kind): OpView
    requires i <= |parts|
  {
    if i > 0 && parts[i - 1].call.Read? && d.p in At(w, parts, i - 1).db.intents
    then View(kind, At(w, parts, i - 1).db.intents[d.p].Get(kind), false)
    else if i > 0 then Seen(w, d, parts, i - 1, kind)
    else View(kind, NewOp(0), false)
  }

  ghost function ClaimReply(w: World, d: Driver, e: Event): Reply<OpView>
    requires e.ClaimSend?
  {
    Claim(w.db, d.caller, d.p, e.kind, e.expected, e.request, e.customerClear, e.now).1
  }

  function CheckOf(reply: Reply<OpView>): D.Check {
    match reply
    case Refused(_) => D.Raise
    case Ok(view) => if view.maySend then D.Clear else D.Stop
  }

  /** At most one record of a failed or conflicting read of this operation. */
  predicate ReportsOnly(d: Driver, kind: Kind, seen: OpView, own: seq<Event>) {
    |own| <= 1 && forall e | e in own :: e.RecordPending? && e.p == d.p && e.kind == kind && e.expected == seen
  }

  /** At most one record of changed terms. */
  predicate TermsOnly(d: Driver, own: seq<Event>) {
    |own| <= 1 && forall e | e in own :: e.RecordChangedTerms? && e.p == d.p
  }

  predicate BindsOnly(d: Driver, kind: Kind, seen: OpView, own: seq<Event>) {
    |own| == 1 && own[0].RecordBinding? && own[0].p == d.p && own[0].kind == kind && own[0].expected == seen
  }

  /** The binding is applied at that moment. */
  ghost predicate BindsAt(w: World, marks: seq<Mark<Event>>, k: nat) {
    && k < |marks| && marks[k].Own? && marks[k].event.RecordBinding?
    && var e := marks[k].event;
       Bind(Run(w, Events(marks[..k])).db, e.p, e.kind, e.expected, e.providerId, e.observed, e.now).1.Ok?
  }

  /** What one POST leaves in the database, for the grant `view`. */
  predicate Records(d: Driver, kind: Kind, view: OpView, post: D.Post, own: seq<Event>) {
    match post
    case Receipt =>
      |own| == 1 && own[0].RecordReceipt? && own[0].p == d.p && own[0].kind == kind && own[0].expected == view
    case NotSent => view.fence.Some? && own == [TransportReportsNotSent(view.fence.value), RecordNotSent(d.p, kind, view)]
    case Open => own != [] && |own| <= 2 && ReportsOnly(d, kind, view, [own[|own| - 1]]) && (|own| == 2 ==> own[0].RecordReceipt?)
    case Cancelled => own == []
  }

  predicate ClaimsOnly(d: Driver, kind: Kind, seen: OpView, marks: seq<Mark<Event>>) {
    && marks != [] && FirstIsOwn(marks, marks[0].event)
    && var e := marks[0].event;
       e.ClaimSend? && e.caller == d.caller && e.p == d.p && e.kind == kind && e.expected == seen
  }

  /** Call `i` gets the answers that the database gives in the world it meets. */
  ghost predicate Follows(w: World, d: Driver, parts: seq<Piece>, i: nat)
    requires i < |parts|
  {
    var here := At(w, parts, i);
    var marks := parts[i].marks;
    var own := Owned(marks);
    match parts[i].call
    case Read(kind, reading) =>
      && own == [] && d.p in here.db.intents
      && reading.claimable == MayStillBeClaimed(here.db.intents[d.p].Get(kind))
      && reading.underReview == (here.db.intents[d.p].state == IntentReview)
    case Recovered(kind, proof) =>
      var seen := Seen(w, d, parts, i, kind);
      if proof.Clear? then BindsOnly(d, kind, seen, own) && exists k :: BindsAt(here, marks, k)
      else ReportsOnly(d, kind, seen, own) || (proof.Raise? && BindsOnly(d, kind, seen, own))
    case TermsLive(_, check) => if check.Clear? then own == [] else TermsOnly(d, own)
    case Inventory(kind, check) => if check.Clear? then own == [] else ReportsOnly(d, kind, Seen(w, d, parts, i, kind), own)
    case FoundNone(kind, check) => if check.Clear? then own == [] else ReportsOnly(d, kind, Seen(w, d, parts, i, kind), own)
    case LoggedIn(_, _) => own == []
    case ClaimedFor(kind, check) =>
      ClaimsOnly(d, kind, Seen(w, d, parts, i, kind), marks) && check == CheckOf(ClaimReply(here, d, marks[0].event))
    case Posted(kind, post) =>
      && i > 0 && parts[i - 1].marks != [] && parts[i - 1].marks[0].event.ClaimSend?
      && var reply := ClaimReply(At(w, parts, i - 1), d, parts[i - 1].marks[0].event);
         reply.Ok? && Records(d, kind, reply.value, post, own)
  }

  ghost predicate Executes(w: World, d: Driver, parts: seq<Piece>) {
    forall i | 0 <= i < |parts| :: Follows(w, d, parts, i)
  }

  // ----- what every event leaves as it was ---------------------------------

  /** Grants and accepted no-send results are only added. */
  predicate Grows(led: Ledger, led': Ledger) {
    led.grants <= led'.grants && led.accepted <= led'.accepted
  }

  lemma StepGrows(w: World, e: Event, p: Id, kind: Kind)
    ensures Grows(LedgerOf(w, p, kind), LedgerOf(Step(w, e), p, kind))
  {
    hide Claim, NotSent, Pin, Receipt, PendingRead, ChangedTerms, Bind, FinancialModel.Escalate;
  }

  lemma {:induction false} RunGrows(w: World, events: seq<Event>, p: Id, kind: Kind)
    ensures Grows(LedgerOf(w, p, kind), LedgerOf(Run(w, events), p, kind))
    decreases |events|
  {
    hide Step, LedgerOf;
    if events == [] {
    } else {
      StepGrows(w, events[0], p, kind);
      RunGrows(Step(w, events[0]), events[1..], p, kind);
    }
  }

  /** An operation's history changes only together with its fence. */
  lemma LedgerStep(w: World, e: Event, p: Id, kind: Kind)
    requires LedgerOf(Step(w, e), p, kind) != LedgerOf(w, p, kind)
    ensures p in w.db.intents && p in Step(w, e).db.intents
    ensures Step(w, e).db.intents[p].Get(kind).fence == Some(w.db.nextId)
  {
    hide Pin, Receipt, PendingRead, ChangedTerms, Bind, FinancialModel.Escalate, Claimable, RetryEvidence, AcceptsNotSent;
  }

  /**
   Between two moments an operation either keeps fence and history, or has a fence that did not exist at
   the first.
   */
  predicate Moves(w: World, w': World, p: Id, kind: Kind) {
    && p in w.db.intents && p in w'.db.intents && w.db.nextId <= w'.db.nextId
    && var f, f' := w.db.intents[p].Get(kind).fence, w'.db.intents[p].Get(kind).fence;
       if f' == f then LedgerOf(w', p, kind) == LedgerOf(w, p, kind) else f'.Some? && w.db.nextId <= f'.value
  }

  predicate FenceKnown(w: World, p: Id, kind: Kind) {
    p in w.db.intents && (w.db.intents[p].Get(kind).fence.Some? ==> w.db.intents[p].Get(kind).fence.value < w.db.nextId)
  }

  lemma FenceIsKnown(w: World, p: Id, kind: Kind)
    requires Inv(w) && p in w.db.intents
    ensures FenceKnown(w, p, kind)
  {
    hide Inv;
    OperationFacts(w, p, kind);
  }

  lemma MovesOn(a: World, b: World, c: World, p: Id, kind: Kind)
    requires Moves(a, b, p, kind) && Moves(b, c, p, kind) && FenceKnown(a, p, kind)
    ensures Moves(a, c, p, kind)
  {
    hide LedgerOf;
  }

  lemma StepMoves(w: World, e: Event, p: Id, kind: Kind)
    requires Inv(w) && p in w.db.intents
    ensures Moves(w, Step(w, e), p, kind)
  {
    hide Inv, Step, LedgerOf;
    NextIdIsNew(w);
    FenceIsKnown(w, p, kind);
    FenceStep(w, e, p, kind);
    if LedgerOf(Step(w, e), p, kind) != LedgerOf(w, p, kind) {
      LedgerStep(w, e, p, kind);
    }
  }

  lemma {:induction false} RunMoves(w: World, events: seq<Event>, p: Id, kind: Kind)
    requires Inv(w) && p in w.db.intents
    ensures Moves(w, Run(w, events), p, kind)
    decreases |events|
  {
    if events == [] {
    } else {
      hide Inv, Step, Moves, FenceKnown;
      var next := Step(w, events[0]);
      StepMoves(w, events[0], p, kind);
      StepKeeps(w, events[0]);
      FenceIsKnown(w, p, kind);
      MovedExists(w, next, p, kind);
      RunMoves(next, events[1..], p, kind);
      MovesOn(w, next, Run(next, events[1..]), p, kind);
    }
  }

  lemma MovedExists(w: World, w': World, p: Id, kind: Kind)
    requires Moves(w, w', p, kind)
    ensures p in w'.db.intents
  {
  }

  /** A fence that is found again was never away, and nothing was granted or returned meanwhile. */
  lemma FenceFoundAgain(a: World, b: World, c: World, p: Id, kind: Kind)
    requires Moves(a, b, p, kind) && Moves(b, c, p, kind) && FenceKnown(a, p, kind)
    requires c.db.intents[p].Get(kind).fence == a.db.intents[p].Get(kind).fence
    ensures LedgerOf(b, p, kind) == LedgerOf(c, p, kind) == LedgerOf(a, p, kind)
  {
    hide LedgerOf;
  }

  // ----- the execution as a run --------------------------------------------

  /** The calls of a driver and everybody else's events are one run. */
  lemma {:induction false} ExecutionIsRun(w: World, parts: seq<Piece>, i: nat)
    requires i <= |parts|
    ensures At(w, parts, i) == Run(w, Flat(parts[..i]))
    decreases i
  {
    hide Run, Events;
    if i == 0 {
      assert Run(w, []) == w by { Idle(w); }
    } else {
      ExecutionIsRun(w, parts, i - 1);
      assert parts[..i][..i - 1] == parts[..i - 1];
      RunOn(w, Flat(parts[..i - 1]), Events(parts[i - 1].marks));
    }
  }

  lemma Idle(w: World)
    ensures Run(w, []) == w
  {
  }

  lemma Reached(before: seq<Event>, parts: seq<Piece>, i: nat)
    requires i <= |parts|
    ensures Inv(At(Run(START, before), parts, i))
  {
    hide Run, Flat, At, Inv;
    ExecutionIsRun(Run(START, before), parts, i);
    RunOn(START, before, Flat(parts[..i]));
    ReachableInv(before + Flat(parts[..i]));
  }

  lemma {:induction false} AtMoves(before: seq<Event>, parts: seq<Piece>, i: nat, j: nat, p: Id, kind: Kind)
    requires i <= j <= |parts| && p in At(Run(START, before), parts, i).db.intents
    ensures Moves(At(Run(START, before), parts, i), At(Run(START, before), parts, j), p, kind)
    ensures Grows(LedgerOf(At(Run(START, before), parts, i), p, kind), LedgerOf(At(Run(START, before), parts, j), p, kind))
    decreases j
  {
    hide Run, Events, Inv, LedgerOf, FenceKnown;
    if i < j {
      var w := Run(START, before);
      AtMoves(before, parts, i, j - 1, p, kind);
      Reached(before, parts, i);
      Reached(before, parts, j - 1);
      FenceIsKnown(At(w, parts, i), p, kind);
      RunMoves(At(w, parts, j - 1), Events(parts[j - 1].marks), p, kind);
      RunGrows(At(w, parts, j - 1), Events(parts[j - 1].marks), p, kind);
      MovesOn(At(w, parts, i), At(w, parts, j - 1), At(w, parts, j), p, kind);
    }
  }

  // ----- the POST and its own search ---------------------------------------

  /** The guards of a POST read nothing new: its claim rests on the view of the round's first read. */
  lemma OwnView(w: World, d: Driver, parts: seq<Piece>, i: nat, kind: Kind)
    requires 6 <= i < |parts| && parts[i - 6].call.Read? && d.p in At(w, parts, i - 6).db.intents
    requires !parts[i - 5].call.Read? && !parts[i - 4].call.Read? && !parts[i - 3].call.Read? && !parts[i - 2].call.Read?
    ensures Seen(w, d, parts, i - 1, kind) == View(kind, At(w, parts, i - 6).db.intents[d.p].Get(kind), false)
  {
    hide At, View;
    assert Seen(w, d, parts, i - 1, kind) == Seen(w, d, parts, i - 2, kind);
    assert Seen(w, d, parts, i - 2, kind) == Seen(w, d, parts, i - 3, kind);
    assert Seen(w, d, parts, i - 3, kind) == Seen(w, d, parts, i - 4, kind);
    assert Seen(w, d, parts, i - 4, kind) == Seen(w, d, parts, i - 5, kind);
  }

  /** A granted claim finds the fence that its view carries, and every earlier grant returned unsent. */
  lemma GrantedOnView(w: World, d: Driver, e: Event)
    requires Inv(w) && e.ClaimSend? && e.caller == d.caller && e.p == d.p && CheckOf(ClaimReply(w, d, e)).Clear?
    ensures d.p in w.db.intents && w.db.intents[d.p].Get(e.kind).fence == e.expected.fence
    ensures var led := LedgerOf(w, d.p, e.kind);
            |led.accepted| == |led.grants|
            && LedgerOf(Step(w, e), d.p, e.kind) == led.(grants := led.grants + [Grant(w.db.nextId, e.request)])
  {
    hide Inv, RetryEvidence;
    assert d.p in w.db.intents;
    OperationFacts(w, d.p, e.kind);
  }

  /** Once every grant so far was returned, none of them has taken effect. */
  lemma NoEffectYet(w: World, p: Id, kind: Kind)
    requires Inv(w) && |LedgerOf(w, p, kind).accepted| == |LedgerOf(w, p, kind).grants|
    ensures forall f | f in w.effects && f in w.issued :: w.issued[f] != (p, kind)
  {
    forall f | f in w.effects && f in w.issued ensures w.issued[f] != (p, kind) {
      if w.issued[f] == (p, kind) { EffectIsUnreturned(w, f); }
    }
  }

  /** An effect belongs to a grant that was not returned. */
  lemma EffectIsUnreturned(w: World, f: Id)
    requires Inv(w) && f in w.effects
    ensures f in w.issued
    ensures var (p, kind) := w.issued[f];
            var led := LedgerOf(w, p, kind);
            |led.accepted| < |led.grants| && led.grants[|led.accepted|].fence == f
  {
    hide Inv;
    HistoryOf(w);
    EffectIsLive(w, f);
  }

  /** Nothing of the operation is outstanding: its history is `led`, all grants were returned, and none took effect. */
  predicate NothingOutstanding(w: World, p: Id, kind: Kind, led: Ledger) {
    && LedgerOf(w, p, kind) == led && |led.accepted| == |led.grants|
    && (forall f | f in w.effects && f in w.issued :: w.issued[f] != (p, kind))
  }

  lemma GuardCalls(parts: seq<Piece>, i: nat)
    requires D.Safe(Calls(parts)) && i < |parts| && parts[i].call.Posted?
    ensures var kind := parts[i].call.kind;
            && i >= 6 && parts[i - 6].call == D.Read(kind, D.Reading(true, false))
            && parts[i - 5].call == D.TermsLive(kind, D.Clear) && parts[i - 4].call == D.Inventory(kind, D.Clear)
            && parts[i - 3].call == D.FoundNone(kind, D.Clear) && parts[i - 2].call == D.LoggedIn(kind, D.Clear)
            && parts[i - 1].call == D.ClaimedFor(kind, D.Clear)
  {
    var t := Calls(parts);
    assert t[i] == parts[i].call && D.GuardedAt(t, i);
  }

  /** The claim of a POST, in the world that it meets. */
  lemma ClaimOfPost(before: seq<Event>, d: Driver, parts: seq<Piece>, i: nat)
    requires Executes(Run(START, before), d, parts) && D.Safe(Calls(parts))
    requires i < |parts| && parts[i].call.Posted?
    ensures i >= 6
    ensures var w := Run(START, before);
            var kind := parts[i].call.kind;
            var first, here := At(w, parts, i - 6), At(w, parts, i - 1);
            var led := LedgerOf(here, d.p, kind);
            && d.p in first.db.intents && d.p in here.db.intents
            && here.db.intents[d.p].Get(kind).fence == first.db.intents[d.p].Get(kind).fence
            && |led.accepted| == |led.grants|
            && |led.grants| < |LedgerOf(At(w, parts, i), d.p, kind).grants|
            && LedgerOf(At(w, parts, i), d.p, kind).grants[|led.grants|].fence == here.db.nextId
  {
    hide Run, At, Inv, Step, LedgerOf, Seen, ClaimReply;
    var w := Run(START, before);
    var kind := parts[i].call.kind;
    GuardCalls(parts, i);
    assert Follows(w, d, parts, i - 6) && Follows(w, d, parts, i - 1);
    OwnView(w, d, parts, i, kind);
    var here, marks := At(w, parts, i - 1), parts[i - 1].marks;
    var e := marks[0].event;
    Reached(before, parts, i - 1);
    GrantedOnView(here, d, e);
    FirstStep(w, parts, i - 1);
    RunGrows(Step(here, e), Events(marks[1..]), d.p, kind);
  }

  lemma FirstStep(w: World, parts: seq<Piece>, i: nat)
    requires i < |parts| && parts[i].marks != []
    ensures At(w, parts, i + 1)
            == Run(Step(At(w, parts, i), parts[i].marks[0].event), Events(parts[i].marks[1..]))
  {
    hide Step;
    FirstOfEvents(parts[i].marks);
    assert Events(parts[i].marks)[1..] == Events(parts[i].marks[1..]);
  }

  /**
   Whatever the others do, a POST of _prepare follows a clear inventory and an empty search of its own;
   from its first read up to its claim every earlier grant of the operation had been returned unsent,
   nobody was granted another one, and no CREATE of the operation had taken effect.
   */
  lemma PostFollowsOwnSearch(before: seq<Event>, d: Driver, parts: seq<Piece>, i: nat, k: nat)
    requires Executes(Run(START, before), d, parts) && D.Safe(Calls(parts))
    requires i < |parts| && parts[i].call.Posted? && i - 6 <= k < i
    ensures i >= 6 && parts[i - 4].call == D.Inventory(parts[i].call.kind, D.Clear)
        && parts[i - 3].call == D.FoundNone(parts[i].call.kind, D.Clear)
    ensures var w := Run(START, before);
            var kind := parts[i].call.kind;
            var led := LedgerOf(At(w, parts, i - 1), d.p, kind);
            && NothingOutstanding(At(w, parts, k), d.p, kind, led)
            && |led.grants| < |LedgerOf(At(w, parts, i), d.p, kind).grants|
            && LedgerOf(At(w, parts, i), d.p, kind).grants[|led.grants|].fence == At(w, parts, i - 1).db.nextId
  {
    hide Run, At, Inv, LedgerOf, Moves, FenceKnown, Executes, Grows, D.Safe;
    var w := Run(START, before);
    var kind := parts[i].call.kind;
    GuardCalls(parts, i);
    ClaimOfPost(before, d, parts, i);
    var first, here, claimed := At(w, parts, i - 6), At(w, parts, k), At(w, parts, i - 1);
    AtMoves(before, parts, i - 6, k, d.p, kind);
    MovedExists(first, here, d.p, kind);
    AtMoves(before, parts, k, i - 1, d.p, kind);
    Reached(before, parts, i - 6);
    Reached(before, parts, k);
    FenceIsKnown(first, d.p, kind);
    FenceFoundAgain(first, here, claimed, d.p, kind);
    NoEffectYet(here, d.p, kind);
  }

  /** At any later time, only the grant of this POST or a later one can have taken effect. */
  lemma OnlyOwnPostTakesEffect(before: seq<Event>, d: Driver, parts: seq<Piece>, i: nat, later: seq<Event>, f: Id)
    requires Executes(Run(START, before), d, parts) && D.Safe(Calls(parts))
    requires i < |parts| && parts[i].call.Posted?
    requires var last := Run(At(Run(START, before), parts, i), later);
             f in last.effects && f in last.issued && last.issued[f] == (d.p, parts[i].call.kind)
    ensures i >= 6
    ensures var w := Run(START, before);
            var kind := parts[i].call.kind;
            var n := |LedgerOf(At(w, parts, i - 1), d.p, kind).grants|;
            var led := LedgerOf(Run(At(w, parts, i), later), d.p, kind);
            n <= |led.accepted| < |led.grants| && led.grants[|led.accepted|].fence == f
            && led.grants[n].fence == At(w, parts, i - 1).db.nextId
  {
    hide Run, At, Inv, LedgerOf, Executes, D.Safe;
    var w := Run(START, before);
    var kind := parts[i].call.kind;
    ClaimOfPost(before, d, parts, i);
    Reached(before, parts, i);
    RunKeeps(At(w, parts, i), later);
    EffectIsUnreturned(Run(At(w, parts, i), later), f);
    AtMoves(before, parts, i - 1, i, d.p, kind);
    RunGrows(At(w, parts, i), later, d.p, kind);
  }
}
