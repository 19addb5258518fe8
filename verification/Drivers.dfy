/**
 The two drivers that decide when a CREATE may be posted: ensure_customer and _prepare.
 Every transaction and provider call is answered by the environment; the trace of calls records what
 the driver did in response.
 */
module Drivers {
  import opened FinancialKinds
  import opened Options

  // ----- ensure_customer ---------------------------------------------------

  /** Answers to one search: proven, proven absent, a temporary or permanent failure, a refusal, or the deadline. */
  datatype Search = Proven | Absent | TemporaryFailure | PermanentFailure | SearchRefused | SearchExpired

  datatype Reach = Ready | NotReadyNow | NotAuthorized | LoginExpired

  datatype ClaimAnswer = Granted | NotGranted | ClaimRefused

  datatype Attempted = Saved | Failed(temporary: bool, emailTaken: bool) | Interrupted

  datatype Call =
    | Reserved(saved: bool)       // whether the snapshot carries a receipt or a provider id
    | Searched(search: Search)
    | Authenticated(reach: Reach)
    | Claimed(answer: ClaimAnswer)
    | Created(attempt: Attempted)
    | Waited

  datatype Outcome = Opened | GaveUp | OutOfBudget

  /** The environment: its answer to the n-th call, and whether the budget has run out by then. */
  datatype Environment = Environment(
    reserve: nat -> Option<bool>,  // None when the reservation is refused or names another operation
    search: nat -> Search,
    reach: nat -> Reach,
    claim: nat -> ClaimAnswer,
    attempt: nat -> Attempted,
    expired: nat -> bool)

  /** A search by a stored id cannot end in absence: the point read either proves or raises. */
  function SearchAnswer(env: Environment, n: nat, saved: bool): Search {
    if saved && env.search(n) == Absent then SearchRefused else env.search(n)
  }

  /** A claim follows, without anything between, a fresh reservation, a proven absence and an authentication. */
  predicate ClaimsAreFresh(t: seq<Call>) {
    forall i | 0 <= i < |t| && t[i].Claimed? ::
      i >= 3 && t[i - 3] == Reserved(false) && t[i - 2] == Searched(Absent) && t[i - 1] == Authenticated(Ready)
  }

  predicate CreatesAreClaimed(t: seq<Call>) {
    forall i | 0 <= i < |t| && t[i].Created? :: i >= 1 && t[i - 1] == Claimed(Granted)
  }

  predicate Ends(r: Attempted) {
    r.Failed? && (r.emailTaken || !r.temporary)
  }

  /** After a taken email or a permanent failure this opening never sends again. */
  predicate FinalFailuresEndSending(t: seq<Call>) {
    forall i, j | 0 <= i < j < |t| && t[i].Created? && Ends(t[i].attempt) :: !t[j].Claimed?
  }

  predicate WaitedBetween(t: seq<Call>, i: nat, j: nat)
    requires j <= |t|
  {
    exists k | i < k < j :: t[k] == Waited
  }

  /** Between a failed CREATE and the next claim the driver waits, and reads again after waiting. */
  predicate RetriesWait(t: seq<Call>) {
    forall i, j | 0 <= i < j < |t| && t[i].Created? && t[i].attempt.Failed? && t[j].Claimed? :: WaitedBetween(t, i, j)
  }

  predicate Disciplined(t: seq<Call>) {
    ClaimsAreFresh(t) && CreatesAreClaimed(t) && FinalFailuresEndSending(t) && RetriesWait(t)
  }

  /** The successions that the loop allows: no step is skipped. */
  predicate MayFollow(a: Call, b: Call) {
    match a
    case Reserved(_) => b.Searched?
    case Searched(Absent) => b.Authenticated? || b.Waited?
    case Searched(TemporaryFailure) => b.Waited?
    case Authenticated(Ready) => b.Claimed?
    case Authenticated(NotReadyNow) => b.Waited?
    case Claimed(Granted) => b.Created?
    case Claimed(NotGranted) => b.Waited?
    case Created(attempt) => !attempt.Interrupted? && b.Reserved?
    case Waited => b.Reserved?
    case _ => false
  }

  predicate Chained(t: seq<Call>) {
    forall i | 0 <= i < |t| - 1 :: MayFollow(t[i], t[i + 1])
  }

  // What earlier CREATEs of this opening have left.

  predicate EmailRejected(t: seq<Call>) {
    exists i | 0 <= i < |t| :: t[i].Created? && t[i].attempt.Failed? && t[i].attempt.emailTaken
  }

  predicate FailedForGood(t: seq<Call>) {
    exists i | 0 <= i < |t| :: t[i].Created? && t[i].attempt.Failed? && !t[i].attempt.temporary
  }

  /** A temporary failure after which the driver has not waited yet. */
  predicate FailedJustNow(t: seq<Call>) {
    exists i | 0 <= i < |t| :: FailedAt(t, i)
  }

  predicate FailedAt(t: seq<Call>, i: nat)
    requires i < |t|
  {
    t[i].Created? && t[i].attempt.Failed? && t[i].attempt.temporary && !WaitedBetween(t, i, |t|)
  }

  /** Nothing that this opening has seen stands in the way of a CREATE. */
  predicate FreeToSend(t: seq<Call>) {
    !EmailRejected(t) && !FailedForGood(t) && !FailedJustNow(t)
  }

  /** After a proven absence the driver logs in exactly when it is free to send, and goes on only if no failure is final. */
  predicate LeadsOn(t: seq<Call>, c: Call) {
    t != [] && t[|t| - 1] == Searched(Absent) ==>
      (c.Authenticated? <==> FreeToSend(t)) && (FailedForGood(t) ==> EmailRejected(t))
  }

  predicate LedOn(t: seq<Call>) {
    forall i | 0 <= i < |t| :: LeadsOn(t[..i], t[i])
  }

  /** Call `c` after `t` carries the environment's answer. */
  predicate Says(env: Environment, t: seq<Call>, c: Call) {
    match c
    case Reserved(saved) =>
      t == [] || (env.reserve(|t|).Some? && saved == (t[|t| - 1] == Created(Saved) || env.reserve(|t|).value))
    case Searched(search) => t != [] && t[|t| - 1].Reserved? && search == SearchAnswer(env, |t|, t[|t| - 1].saved)
    case Authenticated(reach) => reach == env.reach(|t|)
    case Claimed(answer) => answer == env.claim(|t|)
    case Created(attempt) => attempt == env.attempt(|t|)
    case Waited => true
  }

  predicate Answers(env: Environment, t: seq<Call>) {
    forall i | 0 <= i < |t| :: Says(env, t[..i], t[i])
  }

  /** The budget is looked at before a search and before a wait. */
  predicate LooksAtBudget(t: seq<Call>)
    requires t != []
  {
    match t[|t| - 1]
    case Reserved(_) => true
    case Searched(search) => search == TemporaryFailure || (search == Absent && !FreeToSend(t))
    case Authenticated(reach) => reach == NotReadyNow
    case Claimed(answer) => answer == NotGranted
    case _ => false
  }

  /** Why the loop may stop after its last call. */
  predicate StopsWith(t: seq<Call>, outcome: Outcome, env: Environment, roundsLeft: bool)
    requires t != []
  {
    var last := t[|t| - 1];
    match outcome
    case Opened => last == Searched(Proven)
    case GaveUp =>
      || last in {Searched(PermanentFailure), Searched(SearchRefused), Authenticated(NotAuthorized), Claimed(ClaimRefused)}
      || (last == Searched(Absent) && FailedForGood(t) && !EmailRejected(t))
      || ((last.Waited? || (last.Created? && !last.attempt.Interrupted?)) && env.reserve(|t|).None?)
    case OutOfBudget =>
      || (LooksAtBudget(t) && env.expired(|t|) && (last == Searched(Absent) ==> FailedForGood(t) ==> EmailRejected(t)))
      || (last.Reserved? && !roundsLeft)
      || last in {Searched(SearchExpired), Authenticated(LoginExpired), Created(Interrupted)}
  }

  function Searches(t: seq<Call>): nat {
    if t == [] then 0 else Searches(t[..|t| - 1]) + if t[|t| - 1].Searched? then 1 else 0
  }

  lemma Chains(t: seq<Call>, c: Call)
    requires Chained(t) && (t != [] ==> MayFollow(t[|t| - 1], c))
    ensures Chained(t + [c])
  {
    hide MayFollow;
  }

  lemma SearchesOn(t: seq<Call>, c: Call)
    ensures Searches(t + [c]) == Searches(t) + if c.Searched? then 1 else 0
  {
    assert (t + [c])[..|t|] == t;
  }

  lemma ChainOn(t: seq<Call>, c: Call)
    requires Chained(t) && (t != [] ==> MayFollow(t[|t| - 1], c))
    ensures Chained(t + [c]) && Searches(t + [c]) == Searches(t) + if c.Searched? then 1 else 0
  {
    hide Chained, Searches, MayFollow;
    Chains(t, c);
    SearchesOn(t, c);
  }

  /** What the loop's variables remember of the trace. */
  predicate Remembers(t: seq<Call>, failure: Option<bool>, emailTaken: bool) {
    && (emailTaken <==> EmailRejected(t))
    && (failure == Some(false) <==> FailedForGood(t))
    && (failure == Some(true) <==> FailedJustNow(t))
  }

  lemma FreeMeans(t: seq<Call>, failure: Option<bool>, emailTaken: bool)
    requires Remembers(t, failure, emailTaken)
    ensures FreeToSend(t) <==> failure.None? && !emailTaken
    ensures FailedForGood(t) <==> failure == Some(false)
    ensures EmailRejected(t) <==> emailTaken
  {
    hide EmailRejected, FailedForGood, FailedJustNow;
    if failure.Some? {
      if failure.value { assert failure == Some(true); } else { assert failure == Some(false); }
    }
  }

  lemma WaitedStays(t: seq<Call>, c: Call, i: nat, j: nat)
    requires j <= |t| && WaitedBetween(t, i, j)
    ensures WaitedBetween(t + [c], i, j) && WaitedBetween(t + [c], i, |t| + 1)
  {
    var k :| i < k < j && t[k] == Waited;
    assert (t + [c])[k] == Waited;
  }

  lemma WaitedOn(t: seq<Call>, c: Call, i: nat)
    requires i < |t|
    ensures WaitedBetween(t + [c], i, |t| + 1) <==> WaitedBetween(t, i, |t|) || c == Waited
  {
    var u := t + [c];
    if WaitedBetween(t, i, |t|) { WaitedStays(t, c, i, |t|); }
    if WaitedBetween(u, i, |u|) && c != Waited {
      var k :| i < k < |u| && u[k] == Waited;
      assert t[k] == Waited;
    }
    if c == Waited { assert u[|t|] == Waited; }
  }

  /** What one more call does to the memory of earlier CREATEs. */
  lemma FailuresOn(t: seq<Call>, c: Call)
    ensures var u := t + [c];
            var failed := c.Created? && c.attempt.Failed?;
            && (EmailRejected(u) <==> EmailRejected(t) || (failed && c.attempt.emailTaken))
            && (FailedForGood(u) <==> FailedForGood(t) || (failed && !c.attempt.temporary))
            && (FailedJustNow(u) <==> (FailedJustNow(t) && c != Waited) || (failed && c.attempt.temporary))
  {
    var u := t + [c];
    assert u[|t|] == c && forall i | 0 <= i < |t| :: u[i] == t[i];
    JustNowOn(t, c);
  }

  lemma JustNowOn(t: seq<Call>, c: Call)
    ensures var failed := c.Created? && c.attempt.Failed?;
            FailedJustNow(t + [c]) <==> (FailedJustNow(t) && c != Waited) || (failed && c.attempt.temporary)
  {
    hide WaitedBetween;
    var u := t + [c];
    forall i | 0 <= i < |t| ensures FailedAt(u, i) <==> FailedAt(t, i) && c != Waited {
      WaitedOn(t, c, i);
    }
    assert FailedAt(u, |t|) <==> c.Created? && c.attempt.Failed? && c.attempt.temporary by { NothingAfter(u); }
  }

  lemma NothingAfter(t: seq<Call>)
    requires t != []
    ensures !WaitedBetween(t, |t| - 1, |t|)
  {
  }

  /** Everything a new call leaves as it was. */
  lemma Extend(t: seq<Call>, c: Call)
    requires Disciplined(t)
    ensures var u := t + [c];
            forall i, j | 0 <= i < j < |t| && u[i].Created? && u[i].attempt.Failed? && u[j].Claimed? :: WaitedBetween(u, i, j)
  {
    var u := t + [c];
    forall i, j | 0 <= i < j < |t| && u[i].Created? && u[i].attempt.Failed? && u[j].Claimed?
      ensures WaitedBetween(u, i, j)
    {
      WaitedStays(t, c, i, j);
    }
  }

  /** A call that is no claim, in order behind `t`. */
  predicate Orderly(t: seq<Call>, c: Call) {
    !c.Claimed? && (c.Created? ==> t != [] && t[|t| - 1] == Claimed(Granted))
  }

  lemma Quiet(t: seq<Call>, c: Call)
    requires Disciplined(t) && Orderly(t, c)
    ensures Disciplined(t + [c])
  {
    Extend(t, c);
    hide WaitedBetween;
  }

  lemma Claim(t: seq<Call>, answer: ClaimAnswer)
    requires Disciplined(t) && FreeToSend(t)
    requires |t| >= 3 && t[|t| - 3] == Reserved(false) && t[|t| - 2] == Searched(Absent)
        && t[|t| - 1] == Authenticated(Ready)
    ensures Disciplined(t + [Claimed(answer)])
  {
    var u := t + [Claimed(answer)];
    Extend(t, Claimed(answer));
    forall i | 0 <= i < |t| && t[i].Created? && t[i].attempt.Failed?
      ensures !Ends(t[i].attempt) && WaitedBetween(u, i, |t|)
    {
      assert !FailedAt(t, i);
      WaitedStays(t, Claimed(answer), i, |t|);
    }
    hide WaitedBetween;
  }

  /** The trace is in order so far, and the loop's variables remember it. */
  predicate Going(env: Environment, t: seq<Call>, failure: Option<bool>, emailTaken: bool) {
    Disciplined(t) && Chained(t) && LedOn(t) && Answers(env, t) && Remembers(t, failure, emailTaken)
  }

  lemma LedOnMore(env: Environment, t: seq<Call>, c: Call)
    requires LedOn(t) && Answers(env, t) && LeadsOn(t, c) && Says(env, t, c)
    ensures LedOn(t + [c]) && Answers(env, t + [c])
  {
    hide LeadsOn, Says;
    var u := t + [c];
    forall i | 0 <= i < |u| ensures LeadsOn(u[..i], u[i]) && Says(env, u[..i], u[i]) {
      assert u[..i] == t[..i];
      if i == |t| { assert t[..i] == t; }
    }
  }

  function FailureAfter(failure: Option<bool>, c: Call): Option<bool> {
    if c.Created? && c.attempt.Failed? then Some(c.attempt.temporary)
    else if c.Waited? && failure == Some(true) then None
    else failure
  }

  function TakenAfter(emailTaken: bool, c: Call): bool {
    if c.Created? && c.attempt.Failed? then c.attempt.emailTaken else emailTaken
  }

  lemma RemembersOn(t: seq<Call>, c: Call, failure: Option<bool>, emailTaken: bool)
    requires Remembers(t, failure, emailTaken) && (c.Created? ==> failure.None? && !emailTaken)
    ensures Remembers(t + [c], FailureAfter(failure, c), TakenAfter(emailTaken, c))
  {
    hide EmailRejected, FailedForGood, FailedJustNow;
    FailuresOn(t, c);
  }

  /** One more call in the trace. */
  lemma GoesOn(env: Environment, t: seq<Call>, c: Call, failure: Option<bool>, emailTaken: bool)
    requires Going(env, t, failure, emailTaken) && t != [] && MayFollow(t[|t| - 1], c)
    requires LeadsOn(t, c) && Says(env, t, c)
    requires c.Claimed? || c.Created? ==> failure.None? && !emailTaken
    requires c.Claimed? ==> |t| >= 3 && t[|t| - 3] == Reserved(false) && t[|t| - 2] == Searched(Absent)
                            && t[|t| - 1] == Authenticated(Ready)
    ensures Going(env, t + [c], FailureAfter(failure, c), TakenAfter(emailTaken, c))
    ensures Searches(t + [c]) == Searches(t) + if c.Searched? then 1 else 0
  {
    FreeMeans(t, failure, emailTaken);
    assert c.Created? ==> t[|t| - 1] == Claimed(Granted);
    hide Disciplined, Chained, LedOn, Answers, Remembers, LeadsOn, Says, Searches, FreeToSend, FailureAfter, TakenAfter,
      EmailRejected, FailedForGood;
    ChainOn(t, c);
    LedOnMore(env, t, c);
    RemembersOn(t, c, failure, emailTaken);
    if c.Claimed? {
      Claim(t, c.answer);
    } else {
      Quiet(t, c);
    }
  }

  lemma Begins(env: Environment, saved: bool)
    ensures Going(env, [Reserved(saved)], None, false) && Searches([Reserved(saved)]) == 0
  {
    var t := [Reserved(saved)];
    assert t[..0] == [];
  }

  /** One more call other than a claim or a CREATE. */
  method Noted(env: Environment, t: seq<Call>, c: Call, failure: Option<bool>, emailTaken: bool) returns (u: seq<Call>)
    requires Going(env, t, failure, emailTaken) && t != [] && MayFollow(t[|t| - 1], c) && !c.Claimed? && !c.Created?
    requires Says(env, t, c)
    requires t[|t| - 1] == Searched(Absent) ==>
               (c.Authenticated? <==> failure.None? && !emailTaken) && (failure == Some(false) ==> emailTaken)
    ensures u == t + [c] && Going(env, u, FailureAfter(failure, c), emailTaken)
    ensures Searches(u) == Searches(t) + if c.Searched? then 1 else 0
  {
    FreeMeans(t, failure, emailTaken);
    hide Disciplined, Chained, LedOn, Answers, Remembers, Says, Searches, FreeToSend, EmailRejected, FailedForGood, MayFollow;
    GoesOn(env, t, c, failure, emailTaken);
    u := t + [c];
  }

  /** The claim, and the one fenced send it may permit. */
  method SendOnce(env: Environment, before: seq<Call>) returns (trace: seq<Call>, answer: ClaimAnswer, attempt: Attempted)
    requires Going(env, before, None, false) && |before| >= 3
    requires before[|before| - 3] == Reserved(false) && before[|before| - 2] == Searched(Absent)
    requires before[|before| - 1] == Authenticated(Ready)
    ensures before < trace && Searches(trace) == Searches(before)
    ensures answer == env.claim(|before|) && (answer.Granted? ==> attempt == env.attempt(|before| + 1))
    ensures trace == before + [Claimed(answer)] + if answer.Granted? then [Created(attempt)] else []
    ensures Going(env, trace, if answer.Granted? && attempt.Failed? then Some(attempt.temporary) else None,
                  answer.Granted? && attempt.Failed? && attempt.emailTaken)
  {
    hide Going, Searches;
    answer, attempt := env.claim(|before|), Interrupted;
    GoesOn(env, before, Claimed(answer), None, false);
    trace := before + [Claimed(answer)];
    if answer.Granted? {
      attempt := env.attempt(|trace|);
      GoesOn(env, trace, Created(attempt), None, false);
      trace := trace + [Created(attempt)];
    }
  }

  /** Login, claim and send behind a proven absence; `end` when the loop stops there. */
  method TryToSend(env: Environment, before: seq<Call>, roundsLeft: bool)
    returns (trace: seq<Call>, attempt: Option<Attempted>, end: Option<Outcome>)
    requires Going(env, before, None, false) && |before| >= 2
    requires before[|before| - 2] == Reserved(false) && before[|before| - 1] == Searched(Absent)
    ensures before < trace && Searches(trace) == Searches(before)
    ensures Going(env, trace, if attempt.Some? && attempt.value.Failed? then Some(attempt.value.temporary) else None,
                  attempt.Some? && attempt.value.Failed? && attempt.value.emailTaken)
    ensures end.Some? ==> StopsWith(trace, end.value, env, roundsLeft)
    ensures attempt.Some? ==> trace[|trace| - 1] == Created(attempt.value)
    ensures end.None? && attempt.Some? ==> !attempt.value.Interrupted?
    ensures end.None? && attempt.None? ==> trace[|trace| - 1] in {Authenticated(NotReadyNow), Claimed(NotGranted)}
  {
    hide Going, Searches;
    var reach := env.reach(|before|);
    attempt, end := None, None;
    trace := Noted(env, before, Authenticated(reach), None, false);
    if reach.LoginExpired? {
      end := Some(OutOfBudget);
    } else if reach.NotAuthorized? {
      end := Some(GaveUp);
    } else if reach.Ready? {
      var answer, sent;
      trace, answer, sent := SendOnce(env, trace);
      if answer.ClaimRefused? {
        end := Some(GaveUp);
      } else if answer.Granted? {
        attempt := Some(sent);
        if sent.Interrupted? {
          end := Some(OutOfBudget);
        }
      }
    }
  }

  /** The loop of ensure_customer; `rounds` bounds it as the budget does. */
  method EnsureCustomer(env: Environment, saved: bool, rounds: nat) returns (trace: seq<Call>, outcome: Outcome)
    ensures Disciplined(trace)
    ensures trace != [] && trace[0] == Reserved(saved) && Chained(trace) && LedOn(trace) && Answers(env, trace)
    ensures StopsWith(trace, outcome, env, Searches(trace) < rounds)
  {
    hide Disciplined, Chained, LedOn, Answers, Remembers, Searches, FreeToSend, EmailRejected, FailedForGood;
    var current := saved;
    trace := [Reserved(saved)];
    var failure: Option<bool> := None;  // whether the remembered failure is temporary
    var emailTaken := false;
    Begins(env, saved);
    var left := rounds;
    while left > 0
      invariant Going(env, trace, failure, emailTaken)
      invariant trace != [] && trace[0] == Reserved(saved) && trace[|trace| - 1] == Reserved(current)
      invariant Searches(trace) + left == rounds
    {
      left := left - 1;
      if env.expired(|trace|) {
        return trace, OutOfBudget;
      }
      var found := SearchAnswer(env, |trace|, current);
      trace := Noted(env, trace, Searched(found), failure, emailTaken);
      FreeMeans(trace, failure, emailTaken);
      if found == Proven {
        return trace, Opened;
      }
      if found == SearchExpired {
        return trace, OutOfBudget;
      }
      if found == PermanentFailure || found == SearchRefused {
        return trace, GaveUp;
      }
      if found == Absent && failure == Some(false) && !emailTaken {
        return trace, GaveUp;
      }
      if found == Absent && !emailTaken && failure.None? {
        var attempt, end;
        trace, attempt, end := TryToSend(env, trace, left > 0);
        if end.Some? {
          return trace, end.value;
        }
        if attempt.Some? {
          if attempt.value.Failed? {
            failure, emailTaken := Some(attempt.value.temporary), attempt.value.emailTaken;
          }
          var fetched := env.reserve(|trace|);
          if fetched.None? {
            return trace, GaveUp;
          }
          current := attempt.value.Saved? || fetched.value;
          trace := Noted(env, trace, Reserved(current), failure, emailTaken);
          continue;
        }
      }
      if env.expired(|trace|) {
        return trace, OutOfBudget;
      }
      var fetched;
      trace, failure, fetched := Pause(env, trace, failure, emailTaken);
      if fetched.None? {
        return trace, GaveUp;
      }
      current := fetched.value;
    }
    return trace, OutOfBudget;
  }

  /** Wait, forget a temporary failure, and reserve again. */
  method Pause(env: Environment, t: seq<Call>, failure: Option<bool>, emailTaken: bool)
    returns (u: seq<Call>, left: Option<bool>, fetched: Option<bool>)
    requires Going(env, t, failure, emailTaken)
    requires t != [] && MayFollow(t[|t| - 1], Waited)
    requires t[|t| - 1] == Searched(Absent) ==> (failure.Some? || emailTaken) && (failure == Some(false) ==> emailTaken)
    ensures t < u && Going(env, u, left, emailTaken) && Searches(u) == Searches(t)
    ensures if fetched.Some? then u[|u| - 1] == Reserved(fetched.value)
            else u[|u| - 1] == Waited && env.reserve(|u|).None?
  {
    hide Going, Searches;
    u := Noted(env, t, Waited, failure, emailTaken);
    left := FailureAfter(failure, Waited);
    fetched := env.reserve(|u|);
    if fetched.Some? {
      u := Noted(env, u, Reserved(fetched.value), left, emailTaken);
    }
  }

  /**
   A new customer is created: behind a proven absence, with nothing in the way, the loop logs in, claims
   and sends, as far as the environment's answers allow.
   */
  lemma AbsentCustomerIsSent(env: Environment, t: seq<Call>, outcome: Outcome, roundsLeft: bool, i: nat)
    requires Chained(t) && LedOn(t) && Answers(env, t) && t != [] && StopsWith(t, outcome, env, roundsLeft)
    requires i < |t| && t[i] == Searched(Absent) && FreeToSend(t[..i + 1])
    ensures i + 1 < |t| && t[i + 1] == Authenticated(env.reach(i + 1))
    ensures env.reach(i + 1).Ready? ==> i + 2 < |t| && t[i + 2] == Claimed(env.claim(i + 2))
    ensures env.reach(i + 1).Ready? && env.claim(i + 2).Granted? ==> i + 3 < |t| && t[i + 3] == Created(env.attempt(i + 3))
  {
    FreeGoesOn(env, t, outcome, roundsLeft, i);
    hide StopsWith, Chained, LedOn, Answers, FreeToSend;
    if env.reach(i + 1).Ready? {
      ReadyGoesOn(env, t, outcome, roundsLeft, i + 1);
      if env.claim(i + 2).Granted? {
        ReadyGoesOn(env, t, outcome, roundsLeft, i + 2);
      }
    }
  }

  lemma FreeGoesOn(env: Environment, t: seq<Call>, outcome: Outcome, roundsLeft: bool, i: nat)
    requires LedOn(t) && Answers(env, t) && t != [] && StopsWith(t, outcome, env, roundsLeft)
    requires i < |t| && t[i] == Searched(Absent) && FreeToSend(t[..i + 1])
    ensures i + 1 < |t| && t[i + 1] == Authenticated(env.reach(i + 1))
  {
    hide FreeToSend, EmailRejected, FailedForGood;
    if i + 1 == |t| {
      assert t[..i + 1] == t;
      FreeIsNotFinal(t);
      assert false;
    }
    assert LeadsOn(t[..i + 1], t[i + 1]) && t[..i + 1][i] == t[i];
    assert Says(env, t[..i + 1], t[i + 1]);
  }

  /** A login and a grant are followed by the claim and by the send. */
  lemma ReadyGoesOn(env: Environment, t: seq<Call>, outcome: Outcome, roundsLeft: bool, i: nat)
    requires Chained(t) && Answers(env, t) && t != [] && StopsWith(t, outcome, env, roundsLeft)
    requires i < |t| && t[i] in {Authenticated(Ready), Claimed(Granted)}
    ensures i + 1 < |t| && MayFollow(t[i], t[i + 1]) && Says(env, t[..i + 1], t[i + 1])
  {
    hide FreeToSend, EmailRejected, FailedForGood, Says, MayFollow;
  }

  lemma FreeIsNotFinal(t: seq<Call>)
    requires FreeToSend(t)
    ensures !FailedForGood(t) && !EmailRejected(t)
  {
  }

  // ----- _prepare ----------------------------------------------------------

  /** A fresh read of the purchase: whether the operation is claimable, and whether the intent is under review. */
  datatype Reading = Reading(claimable: bool, underReview: bool)

  /** A check may clear the way, stop this call quietly, or raise. */
  datatype Check = Clear | Stop | Raise

  /** Result of the one POST: a receipt, a typed no-send result, or an open outcome. */
  datatype Post = Receipt | NotSent | Open | Cancelled

  datatype Action =
    | Read(kind: Kind, reading: Reading)
    | Recovered(kind: Kind, proof: Check)
    | TermsLive(kind: Kind, check: Check)
    | Inventory(kind: Kind, check: Check)
    | FoundNone(kind: Kind, check: Check)
    | LoggedIn(kind: Kind, check: Check)
    | ClaimedFor(kind: Kind, check: Check)
    | Posted(kind: Kind, post: Post)

  datatype Provider = Provider(read: nat -> Reading, check: nat -> Check, post: nat -> Post)

  datatype Prepared = Returned | Raised

  const KINDS := [Agreement, Subscription]

  /** A POST follows, step by step, a fresh claimable read, live terms, a clear inventory, an empty search, a login and a grant. */
  predicate PostsAreGuarded(t: seq<Action>) {
    forall i | 0 <= i < |t| && t[i].Posted? :: GuardedAt(t, i)
  }

  predicate GuardedAt(t: seq<Action>, i: nat)
    requires i < |t|
  {
    && i >= 6
    && t[i - 6] == Read(t[i].kind, Reading(true, false))
    && t[i - 5] == TermsLive(t[i].kind, Clear)
    && t[i - 4] == Inventory(t[i].kind, Clear)
    && t[i - 3] == FoundNone(t[i].kind, Clear)
    && t[i - 2] == LoggedIn(t[i].kind, Clear)
    && t[i - 1] == ClaimedFor(t[i].kind, Clear)
  }

  /** One call posts each kind at most once, and nothing after a no-send result. */
  predicate PostsOnce(t: seq<Action>) {
    forall i, j | 0 <= i < j < |t| && t[i].Posted? && t[j].Posted? ::
      t[i].kind == Agreement && t[j].kind == Subscription && t[i].post !in {NotSent, Cancelled}
  }

  /** The subscription is not touched before a point read has proven this call's agreement. */
  predicate AgreementFirst(t: seq<Action>) {
    forall i | 0 <= i < |t| && t[i].kind == Subscription :: Recovered(Agreement, Clear) in t[..i]
  }

  /** The successions that _prepare allows: no guard and no proof is skipped. */
  predicate Succeeds(a: Action, b: Action) {
    match a
    case Read(kind, reading) => b.kind == kind && (b.Recovered? || (b.TermsLive? && reading == Reading(true, false)))
    case TermsLive(kind, Clear) => b.Inventory? && b.kind == kind
    case Inventory(kind, Clear) => b.FoundNone? && b.kind == kind
    case FoundNone(kind, Clear) => b.LoggedIn? && b.kind == kind
    case LoggedIn(kind, Clear) => b.ClaimedFor? && b.kind == kind
    case ClaimedFor(kind, Clear) => b.Posted? && b.kind == kind
    case Posted(kind, post) => b.Read? && b.kind == kind && post !in {NotSent, Cancelled}
    case Recovered(Agreement, Clear) => b.Read? && b.kind == Subscription
    case _ => false
  }

  /** The last action reads back what this call has just posted. */
  predicate BehindPost(t: seq<Action>) {
    |t| >= 2 && t[|t| - 2].Posted?
  }

  /** A read leads to recovery exactly when there is something to recover: sent before, or posted by this call. */
  predicate ReadsOn(t: seq<Action>, a: Action) {
    t != [] && t[|t| - 1].Read? ==> (a.Recovered? <==> !t[|t| - 1].reading.claimable || BehindPost(t))
  }

  /** Action number `n` carries the environment's answer. */
  predicate Tells(env: Provider, n: nat, a: Action) {
    match a
    case Read(_, reading) => reading == env.read(n)
    case Posted(_, post) => post == env.post(n)
    case _ => Answered(a, env.check(n))
  }

  /** `a` is what _prepare does after `t`. */
  predicate NextIs(env: Provider, recoverOnly: bool, t: seq<Action>, a: Action) {
    && (if t == [] then a.Read? && a.kind == Agreement else Succeeds(t[|t| - 1], a))
    && ReadsOn(t, a)
    && Tells(env, |t|, a)
    && (a.TermsLive? ==> !recoverOnly)
  }

  predicate Linked(env: Provider, recoverOnly: bool, t: seq<Action>) {
    forall i | 0 <= i < |t| :: NextIs(env, recoverOnly, t[..i], t[i])
  }

  lemma LinkOn(env: Provider, recoverOnly: bool, t: seq<Action>, a: Action)
    requires Linked(env, recoverOnly, t) && NextIs(env, recoverOnly, t, a)
    ensures Linked(env, recoverOnly, t + [a])
  {
    hide NextIs;
    var u := t + [a];
    forall i | 0 <= i < |u| ensures NextIs(env, recoverOnly, u[..i], u[i]) {
      assert u[..i] == t[..i];
      if i == |t| { assert t[..i] == t; }
    }
  }

  predicate Answered(a: Action, check: Check) {
    match a
    case Recovered(_, proof) => proof == check
    case TermsLive(_, c) => c == check
    case Inventory(_, c) => c == check
    case FoundNone(_, c) => c == check
    case LoggedIn(_, c) => c == check
    case ClaimedFor(_, c) => c == check
    case _ => false
  }

  /** This call read the operation's object back from the provider, and did not post it. */
  predicate Verified(t: seq<Action>, kind: Kind) {
    Recovered(kind, Clear) in t && NoPosts(t, kind)
  }

  predicate PaymentProven(t: seq<Action>) {
    Verified(t, Agreement) && Verified(t, Subscription)
  }

  /** The last action makes the call raise. */
  predicate Raises(last: Action) {
    Answered(last, Raise) || (Answered(last, Stop) && last.LoggedIn?) || last == Posted(last.kind, Cancelled)
  }

  /** The last action ends the rounds quietly. */
  predicate Settles(t: seq<Action>, recoverOnly: bool)
    requires t != []
  {
    var last := t[|t| - 1];
    || last == Recovered(Subscription, Clear)
    || (Answered(last, Stop) && !last.LoggedIn?)
    || (last.Read? && last.reading.claimable && !BehindPost(t) && (recoverOnly || last.reading.underReview))
    || last == Posted(last.kind, NotSent)
  }

  /** A call ends only after such an action, and raises exactly for a raising one or for a missing payment proof. */
  predicate EndsWith(t: seq<Action>, outcome: Prepared, recoverOnly: bool, proofWanted: bool)
    requires t != []
  {
    var last := t[|t| - 1];
    && (Raises(last) || Settles(t, recoverOnly))
    && (outcome.Raised? <==> Raises(last) || (proofWanted && !PaymentProven(t)))
  }

  predicate Safe(t: seq<Action>) {
    PostsAreGuarded(t) && PostsOnce(t) && AgreementFirst(t)
  }

  predicate NoPosts(t: seq<Action>, kind: Kind) {
    forall i | 0 <= i < |t| && t[i].Posted? :: t[i].kind != kind
  }

  /** Nothing was posted, or only an agreement whose outcome may still be sent. */
  predicate MayGoOn(t: seq<Action>) {
    forall i | 0 <= i < |t| && t[i].Posted? :: t[i].kind == Agreement && t[i].post !in {NotSent, Cancelled}
  }

  lemma PrefixAgreement(t: seq<Action>, a: Action)
    requires AgreementFirst(t) && (a.kind == Subscription ==> Recovered(Agreement, Clear) in t)
    ensures AgreementFirst(t + [a])
  {
    var u := t + [a];
    assert u[..|t|] == t;
    forall i | 0 <= i < |u| && u[i].kind == Subscription ensures Recovered(Agreement, Clear) in u[..i] {
      if i < |t| { assert u[..i] == t[..i]; }
    }
  }

  lemma QuietGuards(t: seq<Action>, a: Action)
    requires PostsAreGuarded(t) && !a.Posted?
    ensures PostsAreGuarded(t + [a])
  {
    var u := t + [a];
    forall i | 0 <= i < |u| && u[i].Posted? ensures GuardedAt(u, i) {
      assert GuardedAt(t, i);
    }
  }

  lemma QuietOnce(t: seq<Action>, a: Action)
    requires PostsOnce(t) && !a.Posted?
    ensures PostsOnce(t + [a]) && (MayGoOn(t) ==> MayGoOn(t + [a]))
    ensures forall kind | NoPosts(t, kind) :: NoPosts(t + [a], kind)
  {
  }

  lemma AppendQuiet(t: seq<Action>, a: Action)
    requires Safe(t) && !a.Posted? && (a.kind == Subscription ==> Recovered(Agreement, Clear) in t)
    ensures Safe(t + [a]) && (MayGoOn(t) ==> MayGoOn(t + [a]))
    ensures forall kind | NoPosts(t, kind) :: NoPosts(t + [a], kind)
  {
    hide PostsAreGuarded, PostsOnce, AgreementFirst, MayGoOn, NoPosts;
    PrefixAgreement(t, a);
    QuietGuards(t, a);
    QuietOnce(t, a);
  }

  predicate GuardsPassed(t: seq<Action>, kind: Kind) {
    && |t| >= 6
    && t[|t| - 6] == Read(kind, Reading(true, false)) && t[|t| - 5] == TermsLive(kind, Clear)
    && t[|t| - 4] == Inventory(kind, Clear) && t[|t| - 3] == FoundNone(kind, Clear)
    && t[|t| - 2] == LoggedIn(kind, Clear) && t[|t| - 1] == ClaimedFor(kind, Clear)
  }

  lemma GuardedPost(t: seq<Action>, kind: Kind, post: Post)
    requires PostsAreGuarded(t) && GuardsPassed(t, kind)
    ensures PostsAreGuarded(t + [Posted(kind, post)])
  {
    var u := t + [Posted(kind, post)];
    forall i | 0 <= i < |u| && u[i].Posted? ensures GuardedAt(u, i) {
      if i < |t| { assert GuardedAt(t, i); }
    }
  }

  lemma SinglePost(t: seq<Action>, kind: Kind, post: Post)
    requires PostsOnce(t) && MayGoOn(t) && NoPosts(t, kind)
    ensures PostsOnce(t + [Posted(kind, post)])
    ensures kind == Agreement && post !in {NotSent, Cancelled} ==> MayGoOn(t + [Posted(kind, post)])
    ensures forall other | other != kind && NoPosts(t, other) :: NoPosts(t + [Posted(kind, post)], other)
  {
  }

  lemma AppendPost(t: seq<Action>, kind: Kind, post: Post)
    requires Safe(t) && MayGoOn(t) && NoPosts(t, kind) && (kind == Subscription ==> Recovered(Agreement, Clear) in t)
    requires GuardsPassed(t, kind)
    ensures Safe(t + [Posted(kind, post)])
    ensures kind == Agreement && post !in {NotSent, Cancelled} ==> MayGoOn(t + [Posted(kind, post)])
    ensures forall other | other != kind && NoPosts(t, other) :: NoPosts(t + [Posted(kind, post)], other)
  {
    hide PostsAreGuarded, PostsOnce, AgreementFirst, MayGoOn, NoPosts, GuardsPassed;
    PrefixAgreement(t, Posted(kind, post));
    GuardedPost(t, kind, post);
    SinglePost(t, kind, post);
  }

  lemma QuietVerified(t: seq<Action>, a: Action, kind: Kind)
    requires !a.Posted?
    ensures NoPosts(t + [a], kind) <==> NoPosts(t, kind)
    ensures Verified(t + [a], kind) <==> Verified(t, kind) || (a == Recovered(kind, Clear) && NoPosts(t, kind))
  {
    var u := t + [a];
    assert forall i | 0 <= i < |t| :: u[i] == t[i];
    assert a in u && u[|t|] == a;
  }

  lemma PostVerified(t: seq<Action>, posted: Kind, post: Post, kind: Kind)
    ensures NoPosts(t + [Posted(posted, post)], kind) <==> NoPosts(t, kind) && posted != kind
    ensures Verified(t + [Posted(posted, post)], kind) <==> Verified(t, kind) && posted != kind
  {
    var u := t + [Posted(posted, post)];
    assert forall i | 0 <= i < |t| :: u[i] == t[i];
    assert u[|t|] == Posted(posted, post);
  }

  lemma NoneVerified()
    ensures forall kind :: !Verified([], kind)
  {
  }

  /** One more action other than a POST. */
  method Did(env: Provider, recoverOnly: bool, t: seq<Action>, a: Action) returns (u: seq<Action>)
    requires Safe(t) && Linked(env, recoverOnly, t) && !a.Posted?
    requires a.kind == Subscription ==> Recovered(Agreement, Clear) in t
    requires NextIs(env, recoverOnly, t, a)
    ensures u == t + [a] && Safe(u) && Linked(env, recoverOnly, u) && (MayGoOn(t) ==> MayGoOn(u))
    ensures forall kind :: NoPosts(u, kind) <==> NoPosts(t, kind)
    ensures forall kind :: Verified(u, kind) <==> Verified(t, kind) || (a == Recovered(kind, Clear) && NoPosts(t, kind))
  {
    hide Safe, MayGoOn, NoPosts, Linked, Verified, NextIs;
    AppendQuiet(t, a);
    LinkOn(env, recoverOnly, t, a);
    u := t + [a];
    forall kind
      ensures NoPosts(u, kind) <==> NoPosts(t, kind)
      ensures Verified(u, kind) <==> Verified(t, kind) || (a == Recovered(kind, Clear) && NoPosts(t, kind))
    {
      QuietVerified(t, a, kind);
    }
  }

  /** The guards of one round, from live terms to the claim; it ends at the first one that is not clear. */
  method Guard(env: Provider, kind: Kind, before: seq<Action>) returns (trace: seq<Action>, check: Check)
    requires Safe(before) && MayGoOn(before) && NoPosts(before, kind)
    requires kind == Subscription ==> Recovered(Agreement, Clear) in before
    requires Linked(env, false, before) && before != [] && before[|before| - 1] == Read(kind, Reading(true, false))
    requires !BehindPost(before)
    ensures Safe(trace) && MayGoOn(trace) && Linked(env, false, trace) && before < trace
    ensures forall other :: NoPosts(trace, other) <==> NoPosts(before, other)
    ensures forall other :: Verified(trace, other) <==> Verified(before, other)
    ensures check.Clear? ==> GuardsPassed(trace, kind)
    ensures !check.Clear? ==> Answered(trace[|trace| - 1], check)
  {
    hide Safe, MayGoOn, NoPosts, Linked, Verified;
    trace := before;
    check := env.check(|trace|);
    trace := Did(env, false, trace, TermsLive(kind, check));
    if !check.Clear? { return; }
    check := env.check(|trace|);
    trace := Did(env, false, trace, Inventory(kind, check));
    if !check.Clear? { return; }
    check := env.check(|trace|);
    trace := Did(env, false, trace, FoundNone(kind, check));
    if !check.Clear? { return; }
    check := env.check(|trace|);
    trace := Did(env, false, trace, LoggedIn(kind, check));
    if !check.Clear? { return; }
    check := env.check(|trace|);
    trace := Did(env, false, trace, ClaimedFor(kind, check));
  }

  lemma PassedEnds(env: Provider, t: seq<Action>, kind: Kind)
    requires GuardsPassed(t, kind)
    ensures t != [] && NextIs(env, false, t, Posted(kind, env.post(|t|)))
  {
  }

  /** The guarded part of one round: from live terms to the POST. */
  method Send(env: Provider, kind: Kind, before: seq<Action>) returns (trace: seq<Action>, post: Option<Post>,
              raised: bool)
    requires Safe(before) && MayGoOn(before) && NoPosts(before, kind)
    requires kind == Subscription ==> Recovered(Agreement, Clear) in before
    requires Linked(env, false, before) && before != [] && before[|before| - 1] == Read(kind, Reading(true, false))
    requires !BehindPost(before)
    ensures Safe(trace) && before <= trace
    ensures post.Some? ==> trace != [] && trace[|trace| - 1] == Posted(kind, post.value)
    ensures post.Some? && kind == Agreement && post.value !in {NotSent, Cancelled} ==> MayGoOn(trace)
    ensures forall other :: NoPosts(trace, other) <==> NoPosts(before, other) && (post.Some? ==> other != kind)
    ensures post.Some? ==> raised == post.value.Cancelled?
    ensures Linked(env, false, trace) && trace != []
    ensures forall other :: Verified(trace, other) <==> Verified(before, other) && (post.Some? ==> other != kind)
    ensures post.None? ==> var last := trace[|trace| - 1];
                           if raised then Answered(last, Raise) || (Answered(last, Stop) && last.LoggedIn?)
                           else Answered(last, Stop) && !last.LoggedIn?
  {
    hide Safe, MayGoOn, NoPosts, Linked, Verified, GuardsPassed, Answered, NextIs;
    var check;
    trace, check := Guard(env, kind, before);
    post, raised := None, false;
    if !check.Clear? {
      raised := check.Raise? || trace[|trace| - 1].LoggedIn?;
      return;
    }
    var result := env.post(|trace|);
    PassedEnds(env, trace, kind);
    AppendPost(trace, kind, result);
    LinkOn(env, false, trace, Posted(kind, result));
    forall other
      ensures NoPosts(trace + [Posted(kind, result)], other) <==> NoPosts(trace, other) && kind != other
      ensures Verified(trace + [Posted(kind, result)], other) <==> Verified(trace, other) && kind != other
    {
      PostVerified(trace, kind, result, other);
    }
    trace := trace + [Posted(kind, result)];
    return trace, Some(result), result.Cancelled?;
  }

  /**
   _prepare: both kinds in order.  Payment proof is given only by a call that recovered both
   operations from the provider and posted nothing.
   */
  method Prepare(env: Provider, recoverOnly: bool, requirePaymentProof: bool) returns (trace: seq<Action>,
                 outcome: Prepared)
    ensures Safe(trace) && Linked(env, recoverOnly, trace) && trace != []
    ensures EndsWith(trace, outcome, recoverOnly, requirePaymentProof)
    ensures recoverOnly ==> NoPosts(trace, Agreement) && NoPosts(trace, Subscription)
    ensures requirePaymentProof && outcome.Returned? ==> PaymentProven(trace)
  {
    hide Safe, MayGoOn, Linked, Verified, NoPosts;
    trace := [];
    NothingPosted(env, recoverOnly);
    NoneVerified();
    var verified: set<Kind> := {};
    var n := 0;
    while n < 2
      invariant 0 <= n <= 2 && Safe(trace) && (n < 2 ==> MayGoOn(trace))
      invariant Linked(env, recoverOnly, trace) && (n > 0 ==> trace != [])
      invariant n > 0 ==> trace[|trace| - 1] == Recovered(KINDS[n - 1], Clear)
      invariant n == 0 ==> trace == [] && verified == {}
      invariant n == 1 ==> Recovered(Agreement, Clear) in trace && NoPosts(trace, Subscription)
      invariant n == 1 ==> Subscription !in verified
      invariant recoverOnly ==> NoPosts(trace, Agreement) && NoPosts(trace, Subscription)
      invariant forall kind :: kind in verified <==> Verified(trace, kind)
    {
      var kind := KINDS[n];
      var reading := env.read(|trace|);
      trace := Did(env, recoverOnly, trace, Read(kind, reading));
      if !reading.claimable {
        var proof := env.check(|trace|);
        trace := Did(env, recoverOnly, trace, Recovered(kind, proof));
        if proof.Raise? { return trace, Raised; }
        if proof.Stop? { break; }
        verified := verified + {kind};
        n := n + 1;
        continue;
      }
      if recoverOnly || reading.underReview {
        break;
      }
      var post, raised;
      trace, post, raised := Send(env, kind, trace);
      if raised { return trace, Raised; }
      if post.None? || post.value.NotSent? { break; }
      var reread := env.read(|trace|);
      trace := Did(env, recoverOnly, trace, Read(kind, reread));
      var proof := env.check(|trace|);
      trace := Did(env, recoverOnly, trace, Recovered(kind, proof));
      if proof.Raise? { return trace, Raised; }
      if proof.Stop? { break; }
      n := n + 1;
    }
    BothKinds(verified);
    if requirePaymentProof && verified != {Agreement, Subscription} {
      return trace, Raised;
    }
    return trace, Returned;
  }

  /**
   A claimable operation is sent: behind its first read in a round, with sending allowed and every check
   clear, the call reaches the POST and gets the environment's answer.
   */
  lemma ClaimableIsPosted(env: Provider, t: seq<Action>, outcome: Prepared, proofWanted: bool, i: nat)
    requires Linked(env, false, t) && t != [] && EndsWith(t, outcome, false, proofWanted)
    requires i < |t| && t[i].Read? && t[i].reading == Reading(true, false) && !BehindPost(t[..i + 1])
    requires forall k | i < k <= i + 5 :: env.check(k).Clear?
    ensures i + 6 < |t| && t[i + 6] == Posted(t[i].kind, env.post(i + 6))
  {
    hide PaymentProven;
    assert t[..|t|] == t;
    Follows(env, t, outcome, proofWanted, i);
    Follows(env, t, outcome, proofWanted, i + 1);
    Follows(env, t, outcome, proofWanted, i + 2);
    Follows(env, t, outcome, proofWanted, i + 3);
    Follows(env, t, outcome, proofWanted, i + 4);
    Follows(env, t, outcome, proofWanted, i + 5);
  }

  /** A clear guard, or a claimable first read, is followed by another action. */
  lemma Follows(env: Provider, t: seq<Action>, outcome: Prepared, proofWanted: bool, i: nat)
    requires Linked(env, false, t) && t != [] && EndsWith(t, outcome, false, proofWanted) && i < |t|
    requires if t[i].Read? then t[i].reading == Reading(true, false) && !BehindPost(t[..i + 1])
             else !t[i].Posted? && !t[i].Recovered? && Answered(t[i], Clear)
    ensures i + 1 < |t| && NextIs(env, false, t[..i + 1], t[i + 1]) && Succeeds(t[i], t[i + 1])
    ensures t[i].Read? ==> !t[i + 1].Recovered?
  {
    hide PaymentProven;
    assert t[..|t|] == t;
    assert t[..i + 1][i] == t[i];
  }

  /** What this call has posted, it reads back. */
  lemma PostedIsRecovered(env: Provider, t: seq<Action>, outcome: Prepared, recoverOnly: bool, proofWanted: bool, i: nat)
    requires Linked(env, recoverOnly, t) && t != [] && EndsWith(t, outcome, recoverOnly, proofWanted)
    requires i < |t| && t[i].Posted? && t[i].post !in {NotSent, Cancelled}
    ensures i + 2 < |t| && t[i + 1] == Read(t[i].kind, env.read(i + 1)) && t[i + 2] == Recovered(t[i].kind, env.check(i + 2))
  {
    hide PaymentProven;
    assert t[..|t|] == t;
    assert i + 1 < |t| && NextIs(env, recoverOnly, t[..i + 1], t[i + 1]) && t[..i + 1][i] == t[i];
    assert NextIs(env, recoverOnly, t[..i + 2], t[i + 2]) && t[..i + 2][i + 1] == t[i + 1] && t[..i + 2][i] == t[i];
  }

  lemma BothKinds(kinds: set<Kind>)
    ensures kinds == {Agreement, Subscription} <==> Agreement in kinds && Subscription in kinds
  {
    forall kind | kind in kinds ensures kind in {Agreement, Subscription} {
      assert kind == Agreement || kind == Subscription;
    }
  }

  lemma NothingPosted(env: Provider, recoverOnly: bool)
    ensures Safe([]) && MayGoOn([]) && Linked(env, recoverOnly, [])
    ensures NoPosts([], Agreement) && NoPosts([], Subscription)
  {
  }
}
