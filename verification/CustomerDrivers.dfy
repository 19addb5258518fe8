/**
 A driver of ensure_customer against the shared database: each of its calls is one or more events of
 a run, with the events of everybody else in between.
 */
module CustomerDrivers {
  import opened CustomerModel
  import opened CustomerRuns
  import opened Interleaving
  import CustomerTheorems
  import D = Drivers

  /** The slot that one driver opens, and when its budget started. */
  datatype Driver = Driver(account: Id, user: Id, cid: Id, budgetStart: int)

  type Piece = Part<D.Call, Event>

  /** The world in which call `i` starts. */
  ghost function At(w: World, parts: seq<Piece>, i: nat): World
    requires i <= |parts|
  {
    if i == 0 then w else Run(At(w, parts, i - 1), Events(parts[i - 1].marks))
  }

  /** The driver's last reservation before call `i`, by its place among the customer's openings. */
  ghost function Latest(w: World, d: Driver, parts: seq<Piece>, i: nat): nat
    requires i <= |parts|
  {
    if i == 0 then 0
    else if parts[i - 1].call.Reserved? then |TrackOf(At(w, parts, i - 1), d.cid).openings|
    else Latest(w, d, parts, i - 1)
  }

  function AnswerOf(reply: Reply<Opening>): D.ClaimAnswer {
    match reply
    case Refused(_) => D.ClaimRefused
    case Ok(opening) => if opening.mayCreate then D.Granted else D.NotGranted
  }

  predicate ReadsOf(view: Opening, own: seq<Event>) {
    |own| <= 1 && forall e | e in own :: (e.PointRead? || e.AmbiguousRead?) && e.expected == view
  }

  /** A search proves the identity only by a point read that is applied at that moment. */
  ghost predicate ProvesAt(w: World, view: Opening, marks: seq<Mark<Event>>, k: nat) {
    && k < |marks| && marks[k].Own? && marks[k].event.PointRead? && marks[k].event.expected == view
    && ApplyPoint(Run(w, Events(marks[..k])).db, view, marks[k].event.providerId, marks[k].event.outerKey).1.Ok?
  }

  /** The send that got a reply: it went out, tried to keep the receipt, and ended. */
  predicate Answered(cid: Id, n: nat, own: seq<Event>) {
    && |own| == 3 && own[0] == Dispatch(cid, n) && own[1].SaveReceipt? && own[1].expected.customer == cid
    && own[2] == EndAttempt(cid, n)
  }

  /**
   What one fenced send does: it may go out, may leave a receipt, and ends unless a deadline or a
   cancellation keeps its lease.  A refused receipt or another error interrupts the driver and still
   ends the attempt.
   */
  predicate SendsOf(cid: Id, n: nat, attempt: D.Attempted, own: seq<Event>) {
    match attempt
    case Saved => Answered(cid, n, own)
    case Failed(_, _) =>
      own in {[Dispatch(cid, n), EndAttempt(cid, n)], [EndUnsent(cid, n), EndAttempt(cid, n)]}
    case Interrupted =>
      own in {[], [Dispatch(cid, n)], [Dispatch(cid, n), EndAttempt(cid, n)]} || Answered(cid, n, own)
  }

  /** Call `i` gets the answers that the database gives in the world it meets. */
  ghost predicate Follows(w: World, d: Driver, parts: seq<Piece>, i: nat)
    requires i < |parts|
  {
    var here := At(w, parts, i);
    var t := TrackOf(here, d.cid);
    var k := Latest(w, d, parts, i);
    var marks := parts[i].marks;
    match parts[i].call
    case Reserved(saved) =>
      var reply := Reserve(here.db, d.account, d.user).1;
      && FirstIsOwn(marks, ReserveSlot(d.account, d.user))
      && reply.Ok? && reply.value.customer == d.cid
      && saved == (reply.value.provider.Some? || reply.value.receipt.Some?)
    case Searched(search) =>
      && k < |t.openings| && ReadsOf(t.openings[k].view, Owned(marks))
      && (search.Proven? ==> exists p :: ProvesAt(here, t.openings[k].view, marks, p))
    case Authenticated(_) => Owned(marks) == []
    case Claimed(answer) =>
      && FirstIsOwn(marks, ClaimSend(d.cid, k, d.user, d.budgetStart)) && k < |t.openings|
      && answer == AnswerOf(Claim(here.db, d.user, t.openings[k].view, here.clock, here.lease).1)
    case Created(attempt) =>
      i > 0 && SendsOf(d.cid, |TrackOf(At(w, parts, i - 1), d.cid).attempts|, attempt, Owned(marks))
    case Waited => exists seconds :: FirstIsOwn(marks, Wait(seconds))
  }

  ghost predicate Executes(w: World, d: Driver, parts: seq<Piece>) {
    && d.budgetStart <= w.clock
    && (forall i | 0 <= i < |parts| :: Follows(w, d, parts, i))
  }

  // ----- what every event leaves as it was ---------------------------------

  predicate Grows(t: Track, t': Track) {
    && t.openings <= t'.openings
    && |t.attempts| <= |t'.attempts|
    && (forall i | 0 <= i < |t.attempts| :: t'.attempts[i].read == t.attempts[i].read)
  }

  lemma ClaimGrows(w: World, q: Id, k: nat, user: Id, budgetStart: int, cid: Id)
    ensures Grows(TrackOf(w, cid), TrackOf(AfterClaim(w, q, k, user, budgetStart), cid))
  {
    hide Claim;
  }

  lemma ReserveGrows(w: World, account: Id, user: Id, cid: Id)
    ensures Grows(TrackOf(w, cid), TrackOf(AfterReserve(w, account, user), cid))
  {
    hide Reserve;
  }

  lemma DispatchGrows(w: World, q: Id, i: nat, cid: Id)
    ensures Grows(TrackOf(w, cid), TrackOf(AfterDispatch(w, q, i), cid))
  {
  }

  lemma EndGrows(w: World, q: Id, i: nat, cid: Id)
    ensures Grows(TrackOf(w, cid), TrackOf(AfterEnd(w, q, i), cid))
    ensures Grows(TrackOf(w, cid), TrackOf(AfterUnsent(w, q, i), cid))
  {
    hide Finish, Release;
  }

  lemma StepGrows(w: World, e: Event, cid: Id)
    ensures Grows(TrackOf(w, cid), TrackOf(Step(w, e), cid))
    ensures Step(w, e).step == w.step + 1 && w.clock <= Step(w, e).clock
  {
    hide Grows, Reserve, Claim, Finish, Release, Receipt, ApplyPoint, ApplyAmbiguous, CustomerModel.Escalate;
    Same(TrackOf(w, cid));
    match e
    case ReserveSlot(account, user) => ReserveGrows(w, account, user, cid);
    case ClaimSend(q, k, user, budgetStart) => ClaimGrows(w, q, k, user, budgetStart, cid);
    case Dispatch(q, i) => DispatchGrows(w, q, i, cid);
    case EndAttempt(q, i) => EndGrows(w, q, i, cid);
    case EndUnsent(q, i) => EndGrows(w, q, i, cid);
    case _ =>
  }

  lemma Same(t: Track)
    ensures Grows(t, t)
  {
  }

  lemma {:induction false} RunGrows(w: World, events: seq<Event>, cid: Id)
    ensures Grows(TrackOf(w, cid), TrackOf(Run(w, events), cid))
    ensures Run(w, events).step == w.step + |events| && w.clock <= Run(w, events).clock
    decreases |events|
  {
    hide Step;
    if events == [] {
    } else {
      StepGrows(w, events[0], cid);
      RunGrows(Step(w, events[0]), events[1..], cid);
    }
  }

  lemma {:induction false} RunOn(w: World, first: seq<Event>, rest: seq<Event>)
    ensures Run(w, first + rest) == Run(Run(w, first), rest)
    decreases |first|
  {
    hide Step;
    if first == [] {
      assert first + rest == rest;
    } else {
      RunOn(Step(w, first[0]), first[1..], rest);
      assert (first + rest)[1..] == first[1..] + rest;
    }
  }

  lemma {:induction false} AtGrows(w: World, parts: seq<Piece>, i: nat, j: nat, cid: Id)
    requires i <= j <= |parts|
    ensures Grows(TrackOf(At(w, parts, i), cid), TrackOf(At(w, parts, j), cid))
    ensures At(w, parts, i).step <= At(w, parts, j).step && At(w, parts, i).clock <= At(w, parts, j).clock
    decreases j
  {
    hide Run, Events;
    if i < j {
      AtGrows(w, parts, i, j - 1, cid);
      RunGrows(At(w, parts, j - 1), Events(parts[j - 1].marks), cid);
    }
  }

  /** The calls of a driver and everybody else's events are one run. */
  lemma {:induction false} ExecutionIsRun(w: World, parts: seq<Piece>, i: nat)
    requires i <= |parts|
    ensures At(w, parts, i) == Run(w, Flat(parts[..i]))
    decreases i
  {
    hide Run, Events;
    if i == 0 {
      assert Run(w, []) == w by { Idle(w); }
    } else {
      ExecutionIsRun(w, parts, i - 1);
      assert parts[..i][..i - 1] == parts[..i - 1];
      RunOn(w, Flat(parts[..i - 1]), Events(parts[i - 1].marks));
    }
  }

  lemma Idle(w: World)
    ensures Run(w, []) == w
  {
  }

  // ----- the grant and its own discovery -----------------------------------

  /** The reservation of call `i` is the customer's next opening. */
  lemma Reservation(w: World, d: Driver, parts: seq<Piece>, i: nat)
    requires i < |parts| && parts[i].call.Reserved? && Follows(w, d, parts, i)
    ensures var here := At(w, parts, i);
            var k := |TrackOf(here, d.cid).openings|;
            var s := TrackOf(At(w, parts, i + 1), d.cid).openings;
            k < |s| && s[k].at == here.step && s[k].time == here.clock && here.step < At(w, parts, i + 1).step
  {
    hide Reserve, Grows;
    var here := At(w, parts, i);
    var e := ReserveSlot(d.account, d.user);
    var marks := parts[i].marks;
    FirstOfEvents(marks);
    var next := Step(here, e);
    assert Run(here, Events(marks)) == Run(next, Events(marks)[1..]);
    RunGrows(next, Events(marks)[1..], d.cid);
    Prefix(TrackOf(next, d.cid), TrackOf(At(w, parts, i + 1), d.cid));
  }

  lemma Prefix(t: Track, t': Track)
    requires Grows(t, t')
    ensures |t.openings| <= |t'.openings| && |t.attempts| <= |t'.attempts|
    ensures forall k | 0 <= k < |t.openings| :: t'.openings[k] == t.openings[k]
    ensures forall k | 0 <= k < |t.attempts| :: t'.attempts[k].read == t.attempts[k].read
  {
  }

  /** A granted claim is the customer's next attempt, and rests on the opening that the claim named. */
  lemma Grant(w: World, d: Driver, parts: seq<Piece>, i: nat)
    requires i < |parts| && parts[i].call == D.Claimed(D.Granted) && Follows(w, d, parts, i)
    requires var k := Latest(w, d, parts, i);
             k < |TrackOf(At(w, parts, i), d.cid).openings|
             && TrackOf(At(w, parts, i), d.cid).openings[k].view.customer == d.cid
             && d.budgetStart <= TrackOf(At(w, parts, i), d.cid).openings[k].time
    ensures var t := TrackOf(At(w, parts, i), d.cid);
            var s := TrackOf(At(w, parts, i + 1), d.cid).attempts;
            |t.attempts| < |s| && s[|t.attempts|].read == t.openings[Latest(w, d, parts, i)]
  {
    hide Claim, Grows;
    var here := At(w, parts, i);
    var k := Latest(w, d, parts, i);
    var e := ClaimSend(d.cid, k, d.user, d.budgetStart);
    var marks := parts[i].marks;
    FirstOfEvents(marks);
    var next := Step(here, e);
    assert Run(here, Events(marks)) == Run(next, Events(marks)[1..]);
    RunGrows(next, Events(marks)[1..], d.cid);
    Prefix(TrackOf(next, d.cid), TrackOf(At(w, parts, i + 1), d.cid));
  }

  /** Between the reservation and the claim that follows it the driver makes no other reservation. */
  lemma OwnReservation(w: World, d: Driver, parts: seq<Piece>, i: nat)
    requires 3 <= i < |parts| && parts[i - 3].call.Reserved? && !parts[i - 2].call.Reserved? && !parts[i - 1].call.Reserved?
    ensures Latest(w, d, parts, i) == |TrackOf(At(w, parts, i - 3), d.cid).openings|
  {
    hide At;
    assert Latest(w, d, parts, i) == Latest(w, d, parts, i - 1);
    assert Latest(w, d, parts, i - 1) == Latest(w, d, parts, i - 2);
  }

  /** The attempt granted at call `i` rests on the reservation of call `i - 3`, before the search of call `i - 2`. */
  lemma GrantReadsOwnReservation(lease: Lease, before: seq<Event>, d: Driver, parts: seq<Piece>, i: nat)
    requires lease.Valid() && Executes(Run(Start(lease), before), d, parts) && D.ClaimsAreFresh(Calls(parts))
    requires i < |parts| && parts[i].call == D.Claimed(D.Granted)
    ensures i >= 3 && At(Run(Start(lease), before), parts, i - 3).step < At(Run(Start(lease), before), parts, i - 2).step
    ensures var w := Run(Start(lease), before);
            var n := |TrackOf(At(w, parts, i), d.cid).attempts|;
            var s := TrackOf(At(w, parts, |parts|), d.cid).attempts;
            n < |s| && s[n].read.at == At(w, parts, i - 3).step && s[n].read.time == At(w, parts, i - 3).clock
  {
    hide Run, Follows, Latest, At, Grows, Claim, TrackOf;
    var w := Run(Start(lease), before);
    assert Calls(parts)[i] == parts[i].call && Calls(parts)[i - 3] == parts[i - 3].call
        && Calls(parts)[i - 2] == parts[i - 2].call && Calls(parts)[i - 1] == parts[i - 1].call;
    assert Follows(w, d, parts, i - 3) && Follows(w, d, parts, i);
    OwnReservation(w, d, parts, i);
    Reservation(w, d, parts, i - 3);
    AtGrows(w, parts, 0, i - 3, d.cid);
    AtGrows(w, parts, i - 2, i, d.cid);
    AtGrows(w, parts, i + 1, |parts|, d.cid);
    Begins(w, parts);
    Prefix(TrackOf(At(w, parts, i - 2), d.cid), TrackOf(At(w, parts, i), d.cid));
    Prefix(TrackOf(At(w, parts, i + 1), d.cid), TrackOf(At(w, parts, |parts|), d.cid));
    OwnOpening(lease, before, parts, i, d.cid, Latest(w, d, parts, i));
    Grant(w, d, parts, i);
  }

  lemma Begins(w: World, parts: seq<Piece>)
    ensures At(w, parts, 0) == w
  {
  }

  /** Every world of an execution is reached by one run from the start. */
  lemma Reached(lease: Lease, before: seq<Event>, parts: seq<Piece>, i: nat)
    requires i <= |parts|
    ensures At(Run(Start(lease), before), parts, i) == Run(Start(lease), before + Flat(parts[..i]))
  {
    hide Run, Flat, At;
    ExecutionIsRun(Run(Start(lease), before), parts, i);
    RunOn(Start(lease), before, Flat(parts[..i]));
  }

  lemma OwnOpening(lease: Lease, before: seq<Event>, parts: seq<Piece>, i: nat, cid: Id, k: nat)
    requires lease.Valid() && i <= |parts| && k < |TrackOf(At(Run(Start(lease), before), parts, i), cid).openings|
    ensures TrackOf(At(Run(Start(lease), before), parts, i), cid).openings[k].view.customer == cid
  {
    hide Run, Flat, At, Inv;
    Reached(lease, before, parts, i);
    ReachableInv(lease, before + Flat(parts[..i]));
    OpeningsOf(At(Run(Start(lease), before), parts, i), cid, k);
  }

  lemma AttemptsOf(w: World, cid: Id)
    requires Inv(w) && TrackOf(w, cid).attempts != []
    ensures cid in w.db.customers
  {
  }

  /**
   Whatever the others do, a claim that ensure_customer gets granted rests on a search of its own that
   began after every earlier attempt had retired its fence, or, if that attempt's lease was left to run
   out, after twice the cleanup time.  Every trace of EnsureCustomer is disciplined.
   */
  lemma GrantFollowsOwnSearch(lease: Lease, before: seq<Event>, d: Driver, parts: seq<Piece>, i: nat, j: nat)
    requires lease.Valid() && Executes(Run(Start(lease), before), d, parts) && D.Disciplined(Calls(parts))
    requires i < |parts| && parts[i].call == D.Claimed(D.Granted)
    requires j < |TrackOf(At(Run(Start(lease), before), parts, i), d.cid).attempts|
    ensures i >= 3 && parts[i - 2].call == D.Searched(D.Absent)
    ensures var w := Run(Start(lease), before);
            var n := |TrackOf(At(w, parts, i), d.cid).attempts|;
            var s := TrackOf(At(w, parts, |parts|), d.cid).attempts;
            var search := At(w, parts, i - 2);
            && j < n < |s|
            && (Retired(s[j]) ==> s[j].ended.value.step < search.step)
            && (s[n].dispatched.Some? && (s[j].ended.None? || s[n].claimAt < s[j].ended.value.time) ==>
                  s[j].claimAt + 2 * lease.cleanup < search.clock)
  {
    hide Run, Executes, At, Flat, Inv, Retired, TrackOf;
    var w := Run(Start(lease), before);
    var n := |TrackOf(At(w, parts, i), d.cid).attempts|;
    var last := At(w, parts, |parts|);
    GrantReadsOwnReservation(lease, before, d, parts, i);
    assert Calls(parts)[i] == parts[i].call && Calls(parts)[i - 2] == parts[i - 2].call;
    AtGrows(w, parts, i - 3, i - 2, d.cid);
    Reached(lease, before, parts, |parts|);
    var events := before + Flat(parts[..|parts|]);
    ReachableInv(lease, events);
    AttemptsOf(last, d.cid);
    CustomerTheorems.DiscoveryFollowsEarlierAttempts(lease, events, d.cid, j, n);
  }
}
