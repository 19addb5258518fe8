/**
 What each event of the scheduler does, by what it means: when a source starts and ends, what an opening
 gets, and whom a close reaches.  Every statement holds over all runs.
 */
module PreflightOutcomes {
  import opened PreflightModel
  import opened PreflightRuns

  // ----- what handing over slots leaves as it was ----------------------------

  /** Only the wait and the admission of a budget may differ. */
  predicate AdmissionOnly(budget: Budget, budget': Budget) {
    budget' == budget.(waiter := budget'.waiter, admitted := budget'.admitted)
  }

  predicate AdmissionsOnly(s: Sched, s': Sched) {
    s'.budgets.Keys == s.budgets.Keys && forall b | b in s.budgets :: AdmissionOnly(s.budgets[b], s'.budgets[b])
  }

  lemma {:induction false} AdmitTouches(s: Sched, now: int)
    ensures AdmissionsOnly(s, Admit(s, now))
    decreases |s.waiting|
  {
    if s.closed || s.waiting == [] || |s.active| >= s.policy.maxActive {
    } else {
      var b := s.waiting[0];
      var rest := s.(waiting := s.waiting[1..]);
      if !Live(s, b) {
        AdmitTouches(rest, now);
      } else if now >= s.budgets[b].workDeadline {
        AdmitTouches(Put(rest, b, s.budgets[b].(waiter := Failed)), now);
      } else {
        AdmitTouches(Activated(Put(rest, b, s.budgets[b].(waiter := Granted(now))), b), now);
      }
    }
  }

  /** The parts of a budget that neither leaving nor handing over touches. */
  predicate SameWork(budget: Budget, budget': Budget) {
    && budget'.openedAt == budget.openedAt && budget'.workDeadline == budget.workDeadline
    && budget'.tasks == budget.tasks && budget'.protected == budget.protected && budget'.discarded == budget.discarded
  }

  predicate SameWorks(s: Sched, s': Sched) {
    s'.budgets.Keys == s.budgets.Keys && forall b | b in s.budgets :: SameWork(s.budgets[b], s'.budgets[b])
  }

  lemma ReleaseWorks(s: Sched, b: BudgetId, now: int)
    requires b in s.budgets
    ensures SameWorks(s, ReleaseIfFinished(s, b, now))
  {
    hide Admit;
    var budget := s.budgets[b];
    AdmitTouches(Put(s, b, budget.(admitted := false, releases := budget.releases + 1)).(active := s.active - {b}), now);
  }

  lemma FinishWorks(s: Sched, b: BudgetId, now: int)
    requires b in s.budgets
    ensures SameWorks(s, Finish(s, b, now))
  {
    hide ReleaseIfFinished, Without;
    ReleaseWorks(Put(s, b, s.budgets[b].(finished := true)).(waiting := Without(s.waiting, b)), b, now);
  }

  // ----- openings -----------------------------------------------------------

  lemma {:induction false} WithoutAbsent(q: seq<BudgetId>, b: BudgetId)
    requires b !in q
    ensures Without(q, b) == q && Without(q + [b], b) == q
  {
    if q == [] {
      assert q + [b] == [b];
    } else {
      WithoutAbsent(q[1..], b);
      assert (q + [b])[1..] == q[1..] + [b] && q == [q[0]] + q[1..];
    }
  }

  /** A budget without a slot leaves without handing anything on. */
  lemma FinishIdle(s: Sched, b: BudgetId, now: int, q: seq<BudgetId>)
    requires b in s.budgets && !s.budgets[b].admitted && b !in q && s.waiting in {q, q + [b]}
    ensures Finish(s, b, now) == Put(s, b, s.budgets[b].(finished := true)).(waiting := q)
  {
    WithoutAbsent(q, b);
  }

  /** A budget with a slot and no task leaves behind an empty queue. */
  lemma FinishAlone(s: Sched, b: BudgetId, now: int)
    requires b in s.budgets && s.budgets[b].admitted && s.budgets[b].tasks == map[] && s.waiting == []
    ensures Finish(s, b, now)
            == Put(s, b, s.budgets[b].(finished := true, admitted := false, releases := s.budgets[b].releases + 1))
                 .(active := s.active - {b})
  {
    var left := Put(s, b, s.budgets[b].(finished := true)).(waiting := Without(s.waiting, b));
    assert left.budgets[b := left.budgets[b].(admitted := false, releases := s.budgets[b].releases + 1)]
        == s.budgets[b := s.budgets[b].(finished := true, admitted := false, releases := s.budgets[b].releases + 1)];
  }

  predicate SlotFree(s: Sched) {
    |s.active| < s.policy.maxActive && s.waiting == []
  }

  predicate PlaceFree(s: Sched) {
    !SlotFree(s) && |s.waiting| < s.policy.maxWaiting
  }

  /** The budget that an opening at `now` leaves, `late` when its work deadline has passed at its first check. */
  function Newcomer(s: Sched, now: int, late: bool): Budget {
    var created := New(now, now + s.policy.total - s.policy.cleanup);
    if SlotFree(s) then if late then created.(finished := true, releases := 1) else created.(admitted := true)
    else if PlaceFree(s) then created.(waiter := if late then Cancelled else Waiting, finished := late)
    else created.(finished := true)
  }

  lemma OpenedIs(s: Sched, now: int, later: int)
    requires !s.closed && s.nextBudget !in s.budgets && s.nextBudget !in s.active && s.nextBudget !in s.waiting
    ensures var b := s.nextBudget;
            var late := later >= now + s.policy.total - s.policy.cleanup;
            Opened(s, now, later)
            == s.(budgets := s.budgets[b := Newcomer(s, now, late)], nextBudget := b + 1,
                  active := if SlotFree(s) && !late then s.active + {b} else s.active,
                  waiting := if PlaceFree(s) && !late then s.waiting + [b] else s.waiting)
  {
    hide Finish;
    var b := s.nextBudget;
    var late := later >= now + s.policy.total - s.policy.cleanup;
    var created := New(now, now + s.policy.total - s.policy.cleanup);
    var s1 := Put(s, b, created).(nextBudget := b + 1);
    if SlotFree(s) {
      if late {
        FinishAlone(Activated(s1, b), b, later);
        assert s.active + {b} - {b} == s.active;
      }
    } else if PlaceFree(s) {
      if late {
        var s2 := Put(s1, b, created.(waiter := Waiting)).(waiting := s.waiting + [b]);
        FinishIdle(Put(s2, b, created.(waiter := Cancelled)), b, later, s.waiting);
      }
    } else {
      FinishIdle(s1, b, later, s.waiting);
    }
  }

  lemma NextIsNew(s: Sched)
    requires Inv(s)
    ensures s.nextBudget !in s.budgets && s.nextBudget !in s.active && s.nextBudget !in s.waiting
  {
  }

  /** An opening adds one budget without tasks, opened now, and leaves all others alone. */
  lemma OpenedWorks(s: Sched, now: int, later: int)
    requires Inv(s) && !s.closed
    ensures var s' := Opened(s, now, later);
            && s'.budgets.Keys == s.budgets.Keys + {s.nextBudget} && s.nextBudget !in s.budgets
            && SameWork(New(now, now + s.policy.total - s.policy.cleanup), s'.budgets[s.nextBudget])
            && forall b | b in s.budgets :: s'.budgets[b] == s.budgets[b]
  {
    hide Inv, Opened;
    NextIsNew(s);
    OpenedIs(s, now, later);
  }

  // ----- the work deadline --------------------------------------------------

  /** Every budget's work ends the cleanup time before its total time has run out. */
  predicate DeadlinesOk(s: Sched) {
    forall b | b in s.budgets :: s.budgets[b].workDeadline == s.budgets[b].openedAt + s.policy.total - s.policy.cleanup
  }

  lemma WorksKeepDeadlines(s: Sched, s': Sched)
    requires DeadlinesOk(s) && SameWorks(s, s') && s'.policy == s.policy
    ensures DeadlinesOk(s')
  {
  }

  lemma StepDeadlines(s: Sched, e: Event)
    requires Inv(s) && DeadlinesOk(s)
    ensures DeadlinesOk(Step(s, e))
  {
    hide Inv, Admit, ReleaseIfFinished, Finish, Opened, SameWorks, DeadlinesOk;
    StepPolicy(s, e);
    match e
    case Open(now, later) =>
      if s.closed {
        ClosedOpens(s, now, later);
      } else {
        OpenDeadlines(s, now, later);
      }
    case Leave(b, now) =>
      if b in s.budgets && !s.budgets[b].finished && s.budgets[b].waiter != Waiting {
        FinishWorks(s, b, now);
        WorksKeepDeadlines(s, Finish(s, b, now));
      }
    case SourceDone(b, t, now) =>
      if CallbackDue(s, b, t) {
        UncountedDeadlines(s, b, t);
        ReleaseWorks(Put(s, b, Uncounted(s.budgets[b], t)), b, now);
        WorksKeepDeadlines(Put(s, b, Uncounted(s.budgets[b], t)), Step(s, e));
      }
    case _ => QuietDeadlines(s, e);
  }

  lemma OpenDeadlines(s: Sched, now: int, later: int)
    requires Inv(s) && DeadlinesOk(s) && !s.closed && Opened(s, now, later).policy == s.policy
    ensures DeadlinesOk(Opened(s, now, later))
  {
    hide Inv, Opened;
    OpenedWorks(s, now, later);
  }

  lemma UncountedDeadlines(s: Sched, b: BudgetId, t: TaskId)
    requires DeadlinesOk(s) && b in s.budgets
    ensures DeadlinesOk(Put(s, b, Uncounted(s.budgets[b], t)))
  {
  }

  lemma QuietDeadlines(s: Sched, e: Event)
    requires DeadlinesOk(s) && !e.Open? && !e.Leave? && !e.SourceDone?
    ensures DeadlinesOk(Step(s, e))
  {
    hide Admit, ReleaseIfFinished, Finish, Opened;
  }

  lemma ClosedOpens(s: Sched, now: int, later: int)
    requires s.closed
    ensures Opened(s, now, later) == s
  {
  }

  lemma {:induction false} RunDeadlines(s: Sched, events: seq<Event>)
    requires Inv(s) && s.policy.Valid() && DeadlinesOk(s)
    ensures DeadlinesOk(Run(s, events))
    decreases |events|
  {
    hide Inv, Step, DeadlinesOk;
    if events != [] {
      StepDeadlines(s, events[0]);
      StepKeeps(s, events[0]);
      StepPolicy(s, events[0]);
      RunDeadlines(Step(s, events[0]), events[1..]);
    }
  }

  lemma StartOk(policy: Policy)
    ensures Inv(Start(policy)) && DeadlinesOk(Start(policy)) && Start(policy).policy == policy
  {
  }

  lemma Reached(policy: Policy, events: seq<Event>)
    requires policy.Valid()
    ensures var s := Run(Start(policy), events); Inv(s) && DeadlinesOk(s) && s.policy == policy
  {
    hide Run, Inv, DeadlinesOk;
    StartOk(policy);
    Reachable(policy, events);
    RunDeadlines(Start(policy), events);
  }

  // ----- sources ------------------------------------------------------------

  /** The tasks of every budget, and what they may do. */
  lemma StepTasks(s: Sched, e: Event, b: BudgetId)
    requires Inv(s) && b in s.budgets
    ensures b in Step(s, e).budgets
    ensures var tasks, tasks' := s.budgets[b].tasks, Step(s, e).budgets[b].tasks;
            match e
            case StartTask(c, now) =>
              tasks' == if c == b && MayRun(s, b, now) then map[s.nextTask := Task(true, false)] else tasks
            case Discard(c, t) => tasks' == if c == b && t in tasks && !tasks[t].running then tasks - {t} else tasks
            case SourceDone(c, t, _) => tasks' == if c == b && CallbackDue(s, b, t) then tasks - {t} else tasks
            case _ => tasks'.Keys == tasks.Keys
  {
    hide Inv, Admit, ReleaseIfFinished, Finish, Opened, MayRun;
    match e
    case Open(now, later) =>
      if s.closed {
        ClosedOpens(s, now, later);
      } else {
        OpenedWorks(s, now, later);
      }
    case Leave(c, now) => if c in s.budgets { FinishWorks(s, c, now); }
    case SourceDone(c, t, now) =>
      if CallbackDue(s, c, t) { ReleaseWorks(Put(s, c, Uncounted(s.budgets[c], t)), c, now); }
    case StartTask(c, now) => StartsOnly(s, c, now);
    case _ =>
  }

  lemma StartsOnly(s: Sched, b: BudgetId, now: int)
    ensures Step(s, StartTask(b, now))
            == if MayRun(s, b, now)
               then Put(s, b, s.budgets[b].(tasks := map[s.nextTask := Task(true, false)])).(nextTask := s.nextTask + 1)
               else s
    ensures MayRun(s, b, now) ==> b in s.budgets
  {
  }

  /** A new task number has not been used by any task of the budget. */
  lemma TaskIsNew(s: Sched, b: BudgetId)
    requires Inv(s) && b in s.budgets
    ensures s.nextTask !in s.budgets[b].tasks
  {
    BudgetFacts(s, b);
  }

  /**
   Over every run a budget gets a task exactly when run() is entered early enough: more than the cleanup
   time before the end of the budget's total time, while the owner is open and the budget is admitted,
   unfinished and without a task.
   */
  lemma TaskStartsExactly(policy: Policy, events: seq<Event>, e: Event, b: BudgetId)
    requires policy.Valid() && b in Run(Start(policy), events).budgets
    ensures var s := Run(Start(policy), events);
            var budget := s.budgets[b];
            b in Step(s, e).budgets
            && ((exists t :: t in Step(s, e).budgets[b].tasks && t !in budget.tasks)
                <==> && e.StartTask? && e.b == b
                     && e.now < budget.openedAt + policy.total - policy.cleanup
                     && !s.closed && budget.admitted && !budget.finished && budget.tasks == map[])
  {
    hide Run, Inv, Step;
    Reached(policy, events);
    var s := Run(Start(policy), events);
    StepTasks(s, e, b);
    TaskIsNew(s, b);
    if e.StartTask? && e.b == b && MayRun(s, b, e.now) {
      assert s.nextTask in Step(s, e).budgets[b].tasks;
    }
  }

  /** Over every run a task is dropped exactly by the finally block or the callback of its run(), after it has stopped. */
  lemma TaskEndsExactly(policy: Policy, events: seq<Event>, e: Event, b: BudgetId, t: TaskId)
    requires policy.Valid() && HasTask(Run(Start(policy), events), b, t)
    ensures var s := Run(Start(policy), events);
            b in Step(s, e).budgets
            && (t !in Step(s, e).budgets[b].tasks
                <==> !s.budgets[b].tasks[t].running && (e == Discard(b, t) || (e.SourceDone? && e.b == b && e.t == t)))
  {
    hide Run, Inv, Step;
    Reached(policy, events);
    StepTasks(Run(Start(policy), events), e, b);
  }

  // ----- openings, cancellation and closing ----------------------------------

  /**
   Over every run an opening of an open owner gets a slot exactly when one is free and nobody waits, a
   place at the end of the queue exactly when there is one, and is over at once exactly when it gets
   neither, or when its work deadline has passed by its first check.  Nobody else is affected.
   */
  lemma WelcomedExactly(policy: Policy, events: seq<Event>, now: int, later: int)
    requires policy.Valid() && !Run(Start(policy), events).closed
    ensures var s := Run(Start(policy), events);
            var s' := Step(s, Open(now, later));
            var b := s.nextBudget;
            var inTime := later < now + policy.total - policy.cleanup;
            && b !in s.budgets && b in s'.budgets && s'.budgets[b].openedAt == now
            && (forall c | c in s.budgets :: c in s'.budgets && s'.budgets[c] == s.budgets[c])
            && s'.active == (if inTime && |s.active| < policy.maxActive && s.waiting == [] then s.active + {b} else s.active)
            && s'.waiting == (if inTime && (|s.active| >= policy.maxActive || s.waiting != []) && |s.waiting| < policy.maxWaiting
                              then s.waiting + [b] else s.waiting)
            && (s'.budgets[b].finished <==> b !in s'.active && b !in s'.waiting)
  {
    hide Run, Inv, Opened;
    Reached(policy, events);
    var s := Run(Start(policy), events);
    NextIsNew(s);
    OpenedIs(s, now, later);
  }

  /** Over every run a task is asked to stop exactly by its own cancellation or by a close, and never under protection. */
  lemma CancelledExactly(policy: Policy, events: seq<Event>, e: Event, b: BudgetId, t: TaskId)
    requires policy.Valid() && HasTask(Run(Start(policy), events), b, t)
    requires HasTask(Step(Run(Start(policy), events), e), b, t)
    ensures var s := Run(Start(policy), events);
            Step(s, e).budgets[b].tasks[t].cancelling
            <==> s.budgets[b].tasks[t].cancelling || (t !in s.budgets[b].protected && (e == CancelTask(b, t) || e.Close?))
  {
    hide Run, Inv, Admit, ReleaseIfFinished, Finish, Opened;
    Reached(policy, events);
    var s := Run(Start(policy), events);
    match e
    case Open(now, later) =>
      if s.closed {
        ClosedOpens(s, now, later);
      } else {
        OpenedWorks(s, now, later);
      }
    case Leave(c, now) => if c in s.budgets { FinishWorks(s, c, now); }
    case SourceDone(c, u, now) =>
      if CallbackDue(s, c, u) { ReleaseWorks(Put(s, c, Uncounted(s.budgets[c], u)), c, now); }
    case StartTask(c, now) => StartsOnly(s, c, now);
    case Close => ActiveHolds(s, b, t);
    case _ =>
  }

  lemma ActiveHolds(s: Sched, b: BudgetId, t: TaskId)
    requires Inv(s) && HasTask(s, b, t)
    ensures b in s.active
  {
    BudgetFacts(s, b);
  }

  /** A close refuses exactly those who wait, and takes no slot away. */
  lemma ClosedExactly(s: Sched, b: BudgetId)
    requires Inv(s) && b in s.budgets
    ensures var s' := Step(s, Close);
            && s'.closed && s'.waiting == [] && s'.active == s.active && b in s'.budgets
            && s'.budgets[b].waiter == (if s.budgets[b].waiter == Waiting then Failed else s.budgets[b].waiter)
            && s'.budgets[b].finished == s.budgets[b].finished && s'.budgets[b].admitted == s.budgets[b].admitted
            && s'.budgets[b].tasks.Keys == s.budgets[b].tasks.Keys
  {
    assert s.budgets[b].waiter == Waiting ==> Live(s, b);
  }

  lemma ReleaseStays(s: Sched, b: BudgetId, now: int, c: BudgetId)
    requires b in s.budgets && c in s.budgets
    ensures c in ReleaseIfFinished(s, b, now).budgets && ReleaseIfFinished(s, b, now).budgets[c].finished == s.budgets[c].finished
  {
    hide Admit;
    var budget := s.budgets[b];
    AdmitTouches(Put(s, b, budget.(admitted := false, releases := budget.releases + 1)).(active := s.active - {b}), now);
  }

  /** Over every run a budget is finished exactly by leaving, which waits for the end of its wait. */
  lemma LeavesExactly(policy: Policy, events: seq<Event>, e: Event, b: BudgetId)
    requires policy.Valid() && b in Run(Start(policy), events).budgets
    ensures var s := Run(Start(policy), events);
            b in Step(s, e).budgets
            && (Step(s, e).budgets[b].finished
                <==> s.budgets[b].finished || (e.Leave? && e.b == b && s.budgets[b].waiter != Waiting))
  {
    hide Run, Inv, Admit, ReleaseIfFinished, Opened, Without;
    Reached(policy, events);
    var s := Run(Start(policy), events);
    match e
    case Open(now, later) =>
      if s.closed {
        ClosedOpens(s, now, later);
      } else {
        OpenedWorks(s, now, later);
      }
    case Leave(c, now) =>
      if c in s.budgets {
        ReleaseStays(Put(s, c, s.budgets[c].(finished := true)).(waiting := Without(s.waiting, c)), c, now, b);
      }
    case SourceDone(c, t, now) =>
      if CallbackDue(s, c, t) { ReleaseStays(Put(s, c, Uncounted(s.budgets[c], t)), c, now, b); }
    case _ =>
  }

  /** Releasing gives up exactly the slot of a finished, admitted budget without a task. */
  lemma ReleaseGivesUp(s: Sched, b: BudgetId, now: int, c: BudgetId)
    requires b in s.budgets && c in s.active && (c == b ==> b !in s.waiting && s.budgets[b].admitted)
    ensures c !in ReleaseIfFinished(s, b, now).active <==> c == b && s.budgets[b].finished && s.budgets[b].tasks == map[]
  {
    hide Admit;
    var budget := s.budgets[b];
    var freed := Put(s, b, budget.(admitted := false, releases := budget.releases + 1)).(active := s.active - {b});
    AdmitGrows(freed, now);
    if c == b { StaysOut(freed, b, now); }
  }

  lemma LeaveGivesUp(s: Sched, c: BudgetId, now: int, b: BudgetId)
    requires Inv(s) && b in s.active && c in s.budgets && !s.budgets[c].finished
    ensures b !in Finish(s, c, now).active <==> b == c && s.budgets[b].tasks == map[]
  {
    Holder(s, b);
    BudgetFacts(s, c);
    WithoutMembers(s.waiting, c);
    hide Inv, ReleaseIfFinished, Without;
    var left := Put(s, c, s.budgets[c].(finished := true)).(waiting := Without(s.waiting, c));
    ReleaseGivesUp(left, c, now, b);
  }

  lemma Holder(s: Sched, b: BudgetId)
    requires Inv(s) && b in s.active
    ensures b in s.budgets && s.budgets[b].admitted && b !in s.waiting && s.budgets[b].waiter != Waiting
  {
    assert WasAdmitted(s.budgets[b]);
    BudgetFacts(s, b);
  }

  /** Over every run a slot is given up exactly by leaving without a task, or by the callback of a finished budget's last task. */
  lemma SlotGivenUpExactly(policy: Policy, events: seq<Event>, e: Event, b: BudgetId)
    requires policy.Valid() && b in Run(Start(policy), events).active
    ensures var s := Run(Start(policy), events);
            && b in s.budgets
            && (b !in Step(s, e).active
                <==> || (e.Leave? && e.b == b && !s.budgets[b].finished && s.budgets[b].tasks == map[])
                     || (e.SourceDone? && e.b == b && CallbackDue(s, b, e.t) && s.budgets[b].finished
                         && s.budgets[b].tasks - {e.t} == map[]))
  {
    hide Run, Inv, Admit, ReleaseIfFinished, Finish, Opened;
    Reached(policy, events);
    var s := Run(Start(policy), events);
    Holder(s, b);
    match e
    case Open(now, later) =>
      if s.closed {
        ClosedOpens(s, now, later);
      } else {
        NextIsNew(s);
        OpenedIs(s, now, later);
      }
    case Leave(c, now) =>
      if c in s.budgets && !s.budgets[c].finished && s.budgets[c].waiter != Waiting { LeaveGivesUp(s, c, now, b); }
    case SourceDone(c, t, now) =>
      if CallbackDue(s, c, t) { ReleaseGivesUp(Put(s, c, Uncounted(s.budgets[c], t)), c, now, b); }
    case _ =>
  }

  /** Over every run a running task is protected exactly from its own entry into cleanup until it leaves it. */
  lemma ProtectedExactly(policy: Policy, events: seq<Event>, e: Event, b: BudgetId, t: TaskId)
    requires policy.Valid() && HasTask(Run(Start(policy), events), b, t)
    requires HasTask(Step(Run(Start(policy), events), e), b, t)
    ensures var s := Run(Start(policy), events);
            t in Step(s, e).budgets[b].protected
            <==> || (e == Protect(b, t) && s.budgets[b].tasks[t].running)
                 || (t in s.budgets[b].protected && e != Unprotect(b, t))
  {
    hide Run, Inv, Admit, ReleaseIfFinished, Finish, Opened;
    Reached(policy, events);
    var s := Run(Start(policy), events);
    match e
    case Open(now, later) =>
      if s.closed {
        ClosedOpens(s, now, later);
      } else {
        OpenedWorks(s, now, later);
      }
    case Leave(c, now) => if c in s.budgets { FinishWorks(s, c, now); }
    case SourceDone(c, u, now) =>
      if CallbackDue(s, c, u) { ReleaseWorks(Put(s, c, Uncounted(s.budgets[c], u)), c, now); }
    case StartTask(c, now) => StartsOnly(s, c, now);
    case _ =>
  }
}
