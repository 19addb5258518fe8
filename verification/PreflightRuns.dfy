/**
 Over every run of the scheduler: slots are conserved and bounded, queues drain in arrival order
 without barging or lost wakeups, and closing stops admission for good.
 */
module PreflightRuns {
  import opened PreflightModel

  // ----- the invariant -----------------------------------------------------

  predicate BudgetOk(budget: Budget, nextTask: TaskId) {
    && (!budget.admitted ==> budget.tasks == map[])
    && (forall t, u | t in budget.tasks && u in budget.tasks :: t == u)
    && (forall t | t in budget.tasks :: t < nextTask)
    && budget.releases <= 1
    && (budget.admitted ==> budget.releases == 0)
    && (budget.releases == 1 ==> budget.finished)
    && (budget.finished && budget.admitted ==> budget.tasks != map[] || budget.discarded != {})
    && (budget.waiter.Granted? ==> budget.waiter.at < budget.workDeadline && (budget.admitted || budget.releases == 1))
    && (budget.waiter in {Waiting, Failed, Cancelled} ==> !budget.admitted && budget.releases == 0)
  }

  /** The budget has at some time held a slot. */
  predicate WasAdmitted(budget: Budget) {
    budget.admitted || budget.releases > 0
  }

  predicate Sorted(q: seq<BudgetId>) {
    forall i, j | 0 <= i < j < |q| :: q[i] < q[j]
  }

  /** Queue entries are unadmitted, distinct and younger than everything ever admitted. */
  ghost predicate QueueOk(s: Sched) {
    && Sorted(s.waiting)
    && (forall w | w in s.waiting ::
          w in s.budgets && s.budgets[w].waiter in {Waiting, Cancelled} && !s.budgets[w].finished)
    && (forall w, b | w in s.waiting && b in s.budgets && WasAdmitted(s.budgets[b]) :: b < w)
    && (forall b | Live(s, b) :: b in s.waiting)
  }

  ghost predicate SlotsOk(s: Sched) {
    && (forall b :: b in s.active <==> b in s.budgets && s.budgets[b].admitted)
    && |s.active| <= s.policy.maxActive
    && |s.waiting| <= s.policy.maxWaiting
  }

  /** While open, somebody waits only if every slot is taken. */
  predicate NoLostWakeup(s: Sched) {
    && (s.closed ==> s.waiting == [])
    && (!s.closed && s.waiting != [] ==> |s.active| == s.policy.maxActive)
  }

  ghost predicate Core(s: Sched) {
    && (forall b | b in s.budgets :: b < s.nextBudget && BudgetOk(s.budgets[b], s.nextTask))
    && QueueOk(s)
    && SlotsOk(s)
  }

  ghost predicate Inv(s: Sched) {
    Core(s) && NoLostWakeup(s)
  }

  // ----- the release loop --------------------------------------------------

  lemma TailQueue(s: Sched)
    requires Core(s) && s.waiting != [] && !Live(s, s.waiting[0])
    ensures Core(s.(waiting := s.waiting[1..]))
  {
    var s' := s.(waiting := s.waiting[1..]);
    forall b | Live(s', b) ensures b in s'.waiting {
      assert b in s.waiting;
    }
    assert forall w | w in s'.waiting :: w in s.waiting;
  }

  /** Popping the head and giving it an outcome other than a slot. */
  lemma FailHead(s: Sched)
    requires Core(s) && s.waiting != []
    ensures var b := s.waiting[0];
            Core(Put(s.(waiting := s.waiting[1..]), b, s.budgets[b].(waiter := Failed)))
  {
    var b := s.waiting[0];
    assert b in s.waiting;
    var s' := Put(s.(waiting := s.waiting[1..]), b, s.budgets[b].(waiter := Failed));
    forall c | Live(s', c) ensures c in s'.waiting {
      assert Live(s, c) && c in s.waiting;
    }
  }

  lemma GrantQueue(s: Sched, now: int)
    requires Core(s) && s.waiting != [] && Live(s, s.waiting[0])
    ensures var b := s.waiting[0];
            QueueOk(Activated(Put(s.(waiting := s.waiting[1..]), b, s.budgets[b].(waiter := Granted(now))), b))
  {
    hide SlotsOk, BudgetOk;
    var b := s.waiting[0];
    assert b in s.waiting;
    var s' := Activated(Put(s.(waiting := s.waiting[1..]), b, s.budgets[b].(waiter := Granted(now))), b);
    forall c | Live(s', c) ensures c in s'.waiting {
      assert Live(s, c) && c in s.waiting;
    }
  }

  lemma GrantSlots(s: Sched, now: int)
    requires Core(s) && s.waiting != [] && |s.active| < s.policy.maxActive && s.waiting[0] in s.budgets
    ensures var b := s.waiting[0];
            SlotsOk(Activated(Put(s.(waiting := s.waiting[1..]), b, s.budgets[b].(waiter := Granted(now))), b))
  {
    hide QueueOk, BudgetOk;
  }

  lemma GrantHead(s: Sched, now: int)
    requires Core(s) && s.waiting != [] && |s.active| < s.policy.maxActive
    requires Live(s, s.waiting[0]) && now < s.budgets[s.waiting[0]].workDeadline
    ensures var b := s.waiting[0];
            Core(Activated(Put(s.(waiting := s.waiting[1..]), b, s.budgets[b].(waiter := Granted(now))), b))
  {
    GrantQueue(s, now);
    GrantSlots(s, now);
    GrantedBudget(s, s.waiting[0], now);
    hide QueueOk, SlotsOk, BudgetOk;
    var b := s.waiting[0];
    var s' := Activated(Put(s.(waiting := s.waiting[1..]), b, s.budgets[b].(waiter := Granted(now))), b);
    forall c | c in s'.budgets ensures c < s'.nextBudget && BudgetOk(s'.budgets[c], s'.nextTask) {
      if c == b {
        assert s'.budgets[b] == s.budgets[b].(waiter := Granted(now), admitted := true);
      }
    }
  }

  lemma GrantedBudget(s: Sched, b: BudgetId, now: int)
    requires Core(s) && Live(s, b) && now < s.budgets[b].workDeadline
    ensures BudgetOk(s.budgets[b].(waiter := Granted(now), admitted := true), s.nextTask)
  {
    hide SlotsOk;
    assert b in s.waiting && !s.budgets[b].finished;
  }

  /** After the loop either the queue is empty or no slot is free. */
  lemma {:induction false} AdmitKeeps(s: Sched, now: int)
    requires Core(s) && (s.closed ==> s.waiting == [])
    ensures Inv(Admit(s, now))
    ensures Admit(s, now).policy == s.policy && Admit(s, now).closed == s.closed
    decreases |s.waiting|
  {
    if s.closed || s.waiting == [] || |s.active| >= s.policy.maxActive {
    } else {
      hide Core, Inv;
      var b := s.waiting[0];
      QueueHead(s);
      if !Live(s, b) {
        TailQueue(s);
        AdmitKeeps(s.(waiting := s.waiting[1..]), now);
      } else if now >= s.budgets[b].workDeadline {
        FailHead(s);
        AdmitKeeps(Put(s.(waiting := s.waiting[1..]), b, s.budgets[b].(waiter := Failed)), now);
      } else {
        GrantHead(s, now);
        AdmitKeeps(Activated(Put(s.(waiting := s.waiting[1..]), b, s.budgets[b].(waiter := Granted(now))), b), now);
      }
    }
  }

  lemma QueueHead(s: Sched)
    requires Core(s) && s.waiting != []
    ensures s.waiting[0] in s.budgets
  {
    assert s.waiting[0] in s.waiting;
  }

  // ----- one event ---------------------------------------------------------

  lemma {:induction false} WithoutMembers(q: seq<BudgetId>, b: BudgetId)
    requires Sorted(q)
    ensures Sorted(Without(q, b)) && |Without(q, b)| <= |q|
    ensures forall c :: c in Without(q, b) <==> c in q && c != b
  {
    if q != [] {
      var tail := q[1..];
      assert q == [q[0]] + tail && Sorted(tail);
      assert forall c | c in tail :: q[0] < c;
      if q[0] != b {
        WithoutMembers(tail, b);
        SortedCons(q[0], Without(tail, b));
      }
    }
  }

  lemma SortedCons(b: BudgetId, q: seq<BudgetId>)
    requires Sorted(q) && forall c | c in q :: b < c
    ensures Sorted([b] + q)
  {
    assert forall i | 0 <= i < |q| :: q[i] in q;
  }

  /** The parts of a budget that queue and slots depend on. */
  predicate SamePlace(budget: Budget, budget': Budget) {
    && budget'.admitted == budget.admitted && budget'.releases == budget.releases && budget'.finished == budget.finished
    && (budget'.waiter == budget.waiter || (budget.waiter == Waiting && budget'.waiter == Cancelled))
  }

  lemma PutQueue(s: Sched, b: BudgetId, budget: Budget, n: nat)
    requires QueueOk(s) && b in s.budgets && SamePlace(s.budgets[b], budget)
    ensures QueueOk(Put(s, b, budget).(nextTask := s.nextTask + n))
  {
    var s' := Put(s, b, budget).(nextTask := s.nextTask + n);
    forall c | Live(s', c) ensures c in s'.waiting {
      assert Live(s, c);
    }
  }

  lemma PutSlots(s: Sched, b: BudgetId, budget: Budget, n: nat)
    requires SlotsOk(s) && NoLostWakeup(s) && b in s.budgets && SamePlace(s.budgets[b], budget)
    ensures SlotsOk(Put(s, b, budget).(nextTask := s.nextTask + n))
    ensures NoLostWakeup(Put(s, b, budget).(nextTask := s.nextTask + n))
  {
  }

  /** A budget may change its tasks, or end its wait, without touching queue or slots. */
  lemma PutKeeps(s: Sched, b: BudgetId, budget: Budget, n: nat)
    requires Inv(s) && b in s.budgets
    requires BudgetOk(budget, s.nextTask + n)
    requires budget.admitted == s.budgets[b].admitted && budget.releases == s.budgets[b].releases
    requires budget.finished == s.budgets[b].finished
    requires budget.waiter == s.budgets[b].waiter || (s.budgets[b].waiter == Waiting && budget.waiter == Cancelled)
    ensures Inv(Put(s, b, budget).(nextTask := s.nextTask + n))
  {
    PutQueue(s, b, budget, n);
    PutSlots(s, b, budget, n);
    hide QueueOk, SlotsOk, NoLostWakeup;
  }

  predicate Shortened(q: seq<BudgetId>, q': seq<BudgetId>, b: BudgetId) {
    && Sorted(q') && |q'| <= |q|
    && (forall c | c in q' :: c in q && c != b)
    && (forall c | c in q :: c == b || c in q')
  }

  /** The departing budget `b` keeps no slot: it never had one, or its task still holds it. */
  lemma DepartKeeps(s: Sched, b: BudgetId, budget: Budget, q: seq<BudgetId>)
    requires Inv(s) && b in s.budgets && Shortened(s.waiting, q, b)
    requires BudgetOk(budget, s.nextTask) && budget.waiter != Waiting
    requires budget.admitted == s.budgets[b].admitted && budget.releases == s.budgets[b].releases
    ensures Inv(Put(s, b, budget).(waiting := q))
  {
    var s' := Put(s, b, budget).(waiting := q);
    forall c | Live(s', c) ensures c in s'.waiting {
      assert Live(s, c);
    }
    if !s'.closed && q != [] {
      assert q[0] in s.waiting;
    }
  }

  /** The slot of `b` comes back: the rest of the state is in order for the release loop. */
  lemma SlotReturns(s: Sched, b: BudgetId, budget: Budget, q: seq<BudgetId>)
    requires Inv(s) && b in s.budgets && Shortened(s.waiting, q, b)
    requires s.budgets[b].admitted && s.budgets[b].releases == 0
    requires BudgetOk(budget, s.nextTask) && !budget.admitted && budget.releases == 1 && budget.waiter != Waiting
    ensures Core(Put(s, b, budget).(waiting := q, active := s.active - {b}))
  {
    var s' := Put(s, b, budget).(waiting := q, active := s.active - {b});
    forall c | Live(s', c) ensures c in s'.waiting {
      assert Live(s, c);
    }
    assert b in s.active;
    assert |s'.active| == |s.active| - 1;
  }

  lemma BudgetFacts(s: Sched, b: BudgetId)
    requires Inv(s) && b in s.budgets
    ensures BudgetOk(s.budgets[b], s.nextTask) && b < s.nextBudget && Sorted(s.waiting)
    ensures s.closed ==> s.waiting == []
    ensures s.budgets[b].admitted ==> b !in s.waiting
  {
    assert s.budgets[b].admitted ==> WasAdmitted(s.budgets[b]);
  }

  lemma FinishKeeps(s: Sched, b: BudgetId, now: int)
    requires Inv(s) && b in s.budgets && !s.budgets[b].finished && s.budgets[b].waiter != Waiting
    ensures Inv(Finish(s, b, now))
  {
    hide Inv, Core;
    BudgetFacts(s, b);
    WithoutMembers(s.waiting, b);
    var budget := s.budgets[b].(finished := true);
    var q := Without(s.waiting, b);
    if budget.admitted && budget.tasks == map[] {
      var gone := budget.(admitted := false, releases := budget.releases + 1);
      SlotReturns(s, b, gone, q);
      assert Put(Put(s, b, budget).(waiting := q), b, gone).(active := s.active - {b})
          == Put(s, b, gone).(waiting := q, active := s.active - {b});
      AdmitKeeps(Put(s, b, gone).(waiting := q, active := s.active - {b}), now);
    } else {
      DepartKeeps(s, b, budget, q);
    }
  }

  lemma SourceDoneKeeps(s: Sched, b: BudgetId, t: TaskId, now: int)
    requires Inv(s)
    ensures Inv(Step(s, SourceDone(b, t, now)))
  {
    hide Inv, Core;
    if CallbackDue(s, b, t) {
      BudgetFacts(s, b);
      var budget := Uncounted(s.budgets[b], t);
      if budget.finished && budget.admitted && budget.tasks == map[] {
        var gone := budget.(admitted := false, releases := budget.releases + 1);
        SlotReturns(s, b, gone, s.waiting);
        assert Put(Put(s, b, budget), b, gone).(active := s.active - {b})
            == Put(s, b, gone).(waiting := s.waiting, active := s.active - {b});
        AdmitKeeps(Put(s, b, gone).(waiting := s.waiting, active := s.active - {b}), now);
      } else {
        PutKeeps(s, b, budget, 0);
        assert Put(s, b, budget).(nextTask := s.nextTask + 0) == Put(s, b, budget);
      }
    }
  }

  lemma CreatedQueue(s: Sched, now: int, workDeadline: int)
    requires QueueOk(s) && s.nextBudget !in s.budgets
    ensures QueueOk(Put(s, s.nextBudget, New(now, workDeadline)).(nextBudget := s.nextBudget + 1))
  {
    var s' := Put(s, s.nextBudget, New(now, workDeadline)).(nextBudget := s.nextBudget + 1);
    forall c | Live(s', c) ensures c in s'.waiting {
      assert Live(s, c);
    }
  }

  lemma CreatedKeeps(s: Sched, now: int, workDeadline: int)
    requires Inv(s) && s.policy.Valid()
    ensures s.nextBudget !in s.budgets && s.nextBudget !in s.waiting
    ensures Inv(Put(s, s.nextBudget, New(now, workDeadline)).(nextBudget := s.nextBudget + 1))
  {
    assert s.nextBudget !in s.budgets;
    QueueMembers(s);
    CreatedQueue(s, now, workDeadline);
    hide QueueOk;
  }

  lemma QueueMembers(s: Sched)
    requires QueueOk(s)
    ensures forall w | w in s.waiting :: w in s.budgets
  {
  }

  lemma ActivateKeeps(s: Sched, b: BudgetId)
    requires Inv(s) && b in s.budgets && s.waiting == [] && |s.active| < s.policy.maxActive
    requires s.budgets[b] == New(s.budgets[b].openedAt, s.budgets[b].workDeadline)
    ensures Inv(Activated(s, b))
  {
    var s' := Activated(s, b);
    forall c | Live(s', c) ensures c in s'.waiting {
      assert Live(s, c);
    }
  }

  lemma EnqueueKeeps(s: Sched, b: BudgetId)
    requires Inv(s) && b in s.budgets && b + 1 == s.nextBudget && !s.closed
    requires |s.waiting| < s.policy.maxWaiting && (s.waiting != [] || |s.active| >= s.policy.maxActive)
    requires s.budgets[b] == New(s.budgets[b].openedAt, s.budgets[b].workDeadline)
    ensures Inv(Put(s, b, s.budgets[b].(waiter := Waiting)).(waiting := s.waiting + [b]))
  {
    var s' := Put(s, b, s.budgets[b].(waiter := Waiting)).(waiting := s.waiting + [b]);
    forall w | w in s.waiting ensures w < b {
      assert w in s.budgets && s.budgets[w].waiter != NoWaiter;
    }
    forall i | 0 <= i < |s.waiting| ensures s.waiting[i] < b {
      assert s.waiting[i] in s.waiting;
    }
    forall c | Live(s', c) ensures c in s'.waiting {
      if c != b { assert Live(s, c); }
    }
    forall w | w in s'.waiting
      ensures w in s'.budgets && s'.budgets[w].waiter in {Waiting, Cancelled} && !s'.budgets[w].finished
    {
      if w != b { assert w in s.waiting; }
    }
    forall w, c | w in s'.waiting && c in s'.budgets && WasAdmitted(s'.budgets[c]) ensures c < w {
      if w != b { assert w in s.waiting; }
    }
  }

  /** A waiter that is too late for its own first check. */
  lemma LateKeeps(s: Sched, b: BudgetId, later: int)
    requires Inv(s) && b in s.budgets && s.budgets[b] == New(s.budgets[b].openedAt, s.budgets[b].workDeadline).(waiter := Waiting)
    ensures var cancelled := Put(s, b, New(s.budgets[b].openedAt, s.budgets[b].workDeadline).(waiter := Cancelled)); Inv(Finish(cancelled, b, later))
  {
    hide Inv, Finish;
    var created := New(s.budgets[b].openedAt, s.budgets[b].workDeadline).(waiter := Cancelled);
    BudgetFacts(s, b);
    PutKeeps(s, b, created, 0);
    var cancelled := Put(s, b, created);
    assert cancelled.(nextTask := s.nextTask + 0) == cancelled;
    FinishKeeps(cancelled, b, later);
  }

  lemma OpenKeeps(s: Sched, now: int, later: int)
    requires Inv(s) && s.policy.Valid()
    ensures Inv(Opened(s, now, later))
  {
    hide Inv, Core, Finish;
    if !s.closed {
      var b := s.nextBudget;
      var workDeadline := now + s.policy.total - s.policy.cleanup;
      var created := New(now, workDeadline);
      var s1 := Put(s, b, created).(nextBudget := b + 1);
      CreatedKeeps(s, now, workDeadline);
      if |s.active| < s.policy.maxActive && s.waiting == [] {
        ActivateKeeps(s1, b);
        if later >= workDeadline { FinishKeeps(Activated(s1, b), b, later); }
      } else if |s.waiting| >= s.policy.maxWaiting {
        FinishKeeps(s1, b, later);
      } else {
        EnqueueKeeps(s1, b);
        var s2 := Put(s1, b, created.(waiter := Waiting)).(waiting := s.waiting + [b]);
        if later >= workDeadline { LateKeeps(s2, b, later); }
      }
    }
  }

  lemma CloseKeeps(s: Sched)
    requires Inv(s)
    ensures Inv(Closed(s))
  {
    var s' := Closed(s);
    forall b | b in s'.budgets ensures BudgetOk(s'.budgets[b], s'.nextTask) {
      assert BudgetOk(s.budgets[b], s.nextTask);
      if s.budgets[b].tasks != map[] {
        var t :| t in s.budgets[b].tasks;
        assert t in s'.budgets[b].tasks;
      }
    }
    forall b ensures !Live(s', b) {
      if Live(s', b) { assert Live(s, b); }
    }
  }

  lemma TaskKeeps(s: Sched, b: BudgetId, budget: Budget)
    requires Inv(s) && b in s.budgets
    requires budget == s.budgets[b].(tasks := budget.tasks, protected := budget.protected, discarded := budget.discarded)
    requires budget.tasks.Keys <= s.budgets[b].tasks.Keys && s.budgets[b].discarded <= budget.discarded
    requires budget.tasks.Keys == s.budgets[b].tasks.Keys || budget.discarded != {}
    ensures Inv(Put(s, b, budget))
  {
    hide Inv;
    BudgetFacts(s, b);
    assert budget.tasks == map[] <==> budget.tasks.Keys == {};
    assert s.budgets[b].tasks == map[] <==> s.budgets[b].tasks.Keys == {};
    PutKeeps(s, b, budget, 0);
    assert Put(s, b, budget).(nextTask := s.nextTask + 0) == Put(s, b, budget);
  }

  lemma StepKeeps(s: Sched, e: Event)
    requires Inv(s) && s.policy.Valid()
    ensures Inv(Step(s, e))
  {
    hide Inv, BudgetOk;
    match e
    case Open(now, later) => OpenKeeps(s, now, later);
    case EndWait(b) =>
      if Live(s, b) {
        BudgetFacts(s, b);
        WaitEnds(s.budgets[b], s.nextTask);
        PutKeeps(s, b, s.budgets[b].(waiter := Cancelled), 0);
        assert Step(s, e).(nextTask := s.nextTask + 0) == Step(s, e);
      }
    case Leave(b, now) =>
      if b in s.budgets && !s.budgets[b].finished && s.budgets[b].waiter != Waiting { FinishKeeps(s, b, now); }
    case StartTask(b, now) =>
      if MayRun(s, b, now) {
        BudgetFacts(s, b);
        TaskStarts(s.budgets[b], s.nextTask);
        PutKeeps(s, b, s.budgets[b].(tasks := map[s.nextTask := Task(true, false)]), 1);
      }
    case Protect(b, t) =>
      if HasTask(s, b, t) && s.budgets[b].tasks[t].running {
        TaskKeeps(s, b, s.budgets[b].(protected := s.budgets[b].protected + {t}));
      }
    case Unprotect(b, t) =>
      if b in s.budgets { TaskKeeps(s, b, s.budgets[b].(protected := s.budgets[b].protected - {t})); }
    case CancelTask(b, t) =>
      if b in s.budgets { TaskKeeps(s, b, CancelSource(s.budgets[b], t)); }
    case TaskStops(b, t) =>
      if HasTask(s, b, t) {
        TaskKeeps(s, b, s.budgets[b].(tasks := s.budgets[b].tasks[t := s.budgets[b].tasks[t].(running := false)]));
      }
    case Discard(b, t) =>
      if HasTask(s, b, t) && !s.budgets[b].tasks[t].running {
        TaskKeeps(s, b, s.budgets[b].(tasks := s.budgets[b].tasks - {t}, discarded := s.budgets[b].discarded + {t}));
      }
    case SourceDone(b, t, now) => SourceDoneKeeps(s, b, t, now);
    case Close => CloseKeeps(s);
  }

  lemma WaitEnds(budget: Budget, n: TaskId)
    requires BudgetOk(budget, n) && budget.waiter == Waiting
    ensures BudgetOk(budget.(waiter := Cancelled), n)
  {
  }

  lemma TaskStarts(budget: Budget, n: TaskId)
    requires BudgetOk(budget, n) && budget.admitted && budget.tasks == map[] && !budget.finished
    ensures BudgetOk(budget.(tasks := map[n := Task(true, false)]), n + 1)
  {
    assert n in map[n := Task(true, false)];
  }

  lemma StepPolicy(s: Sched, e: Event)
    ensures Step(s, e).policy == s.policy
  {
    forall s', now ensures Admit(s', now).policy == s'.policy { AdmitFrame(s', now); }
  }

  lemma AdmitFrame(s: Sched, now: int)
    ensures Admit(s, now).policy == s.policy
    decreases |s.waiting|
  {
  }

  lemma {:induction false} RunKeeps(s: Sched, events: seq<Event>)
    requires Inv(s) && s.policy.Valid()
    ensures Inv(Run(s, events)) && Run(s, events).policy == s.policy
    decreases |events|
  {
    hide Inv, Step;
    if events != [] {
      StepKeeps(s, events[0]);
      StepPolicy(s, events[0]);
      RunKeeps(Step(s, events[0]), events[1..]);
    }
  }

  lemma Reachable(policy: Policy, events: seq<Event>)
    requires policy.Valid()
    ensures Inv(Run(Start(policy), events)) && Run(Start(policy), events).policy == policy
  {
    RunKeeps(Start(policy), events);
  }

  // ----- what every run promises -------------------------------------------

  /**
   Slots are bounded and conserved; a slot is returned once, and never while a task of its budget
   lives.  A finished budget keeps its slot only for a task, or for a callback that is still to come.
   */
  lemma SlotsAreConserved(policy: Policy, events: seq<Event>, b: BudgetId)
    requires policy.Valid()
    ensures var s := Run(Start(policy), events);
            && |s.active| <= policy.maxActive && |s.waiting| <= policy.maxWaiting
            && (b in s.active <==> b in s.budgets && s.budgets[b].admitted)
            && (b in s.budgets ==>
                  && (forall t, u | t in s.budgets[b].tasks && u in s.budgets[b].tasks :: t == u)
                  && s.budgets[b].releases <= 1
                  && (s.budgets[b].releases == 1 ==> b !in s.active)
                  && (b !in s.active ==> s.budgets[b].tasks == map[])
                  && (s.budgets[b].finished && b in s.active ==>
                        s.budgets[b].tasks != map[] || exists t :: CallbackDue(s, b, t)))
  {
    hide Run;
    Reachable(policy, events);
    var s := Run(Start(policy), events);
    if b in s.budgets {
      BudgetFacts(s, b);
      if s.budgets[b].tasks == map[] && s.budgets[b].discarded != {} {
        var t :| t in s.budgets[b].discarded;
        assert CallbackDue(s, b, t);
      }
    }
    hide QueueOk, NoLostWakeup;
  }

  /** Arrival order is admission order: whoever waits is younger than everyone ever admitted. */
  lemma NoBargingNoLostWakeup(policy: Policy, events: seq<Event>)
    requires policy.Valid()
    ensures var s := Run(Start(policy), events);
            && (forall w, b | w in s.waiting && b in s.budgets && WasAdmitted(s.budgets[b]) :: b < w)
            && (forall b | Live(s, b) :: b in s.waiting)
            && (!s.closed && s.waiting != [] ==> |s.active| == policy.maxActive)
            && (s.closed ==> s.waiting == [])
            && (forall b | b in s.budgets && s.budgets[b].waiter.Granted? ::
                  s.budgets[b].waiter.at < s.budgets[b].workDeadline)
  {
    hide Run;
    Reachable(policy, events);
    var s := Run(Start(policy), events);
    forall b | b in s.budgets && s.budgets[b].waiter.Granted?
      ensures s.budgets[b].waiter.at < s.budgets[b].workDeadline
    {
      BudgetFacts(s, b);
    }
  }

  /** The head of the queue that can still use a slot at `now`. */
  predicate FirstLive(s: Sched, w: BudgetId, now: int) {
    && w in s.waiting && Live(s, w) && now < s.budgets[w].workDeadline
    && forall v | v in s.waiting && v < w :: v in s.budgets && (!Live(s, v) || now >= s.budgets[v].workDeadline)
  }

  lemma {:induction false} FirstLiveGranted(s: Sched, w: BudgetId, now: int)
    requires Core(s) && !s.closed && |s.active| < s.policy.maxActive && FirstLive(s, w, now)
    ensures w in Admit(s, now).budgets && Admit(s, now).budgets[w].waiter == Granted(now) && w in Admit(s, now).active
    decreases |s.waiting|
  {
    hide Core, FirstLive, Live;
    HeadFacts(s, w, now);
    var b := s.waiting[0];
    var rest := s.(waiting := s.waiting[1..]);
    if b == w {
      GrantHead(s, now);
      AdmitKeepsGrant(Activated(Put(rest, b, s.budgets[b].(waiter := Granted(now))), b), w, now);
    } else if !Live(s, b) {
      TailQueue(s);
      FirstLiveRest(s, rest, w, now);
      FirstLiveGranted(rest, w, now);
    } else {
      FailHead(s);
      FirstLiveRest(s, Put(rest, b, s.budgets[b].(waiter := Failed)), w, now);
      FirstLiveGranted(Put(rest, b, s.budgets[b].(waiter := Failed)), w, now);
    }
  }

  lemma HeadFacts(s: Sched, w: BudgetId, now: int)
    requires Core(s) && FirstLive(s, w, now)
    ensures s.waiting != [] && s.waiting[0] in s.budgets
    ensures s.waiting[0] == w ==> Live(s, w) && now < s.budgets[w].workDeadline
    ensures s.waiting[0] != w && Live(s, s.waiting[0]) ==> now >= s.budgets[s.waiting[0]].workDeadline
  {
    QueueHead(s);
    if s.waiting[0] != w { HeadIsLeast(s, w); }
  }

  lemma FirstLiveRest(s: Sched, s': Sched, w: BudgetId, now: int)
    requires Core(s) && FirstLive(s, w, now) && s.waiting[0] != w && s'.waiting == s.waiting[1..]
    requires forall v | v in s.budgets && v != s.waiting[0] :: v in s'.budgets && s'.budgets[v] == s.budgets[v]
    ensures FirstLive(s', w, now)
  {
    HeadIsLeast(s, w);
    forall v | v in s'.waiting ensures v in s.waiting && v != s.waiting[0] {
      var i :| 0 <= i < |s'.waiting| && s'.waiting[i] == v;
      assert s.waiting[i + 1] == v;
    }
  }

  lemma HeadIsLeast(s: Sched, w: BudgetId)
    requires Sorted(s.waiting) && w in s.waiting && s.waiting[0] != w
    ensures s.waiting[0] < w && w in s.waiting[1..]
  {
    var i :| 0 <= i < |s.waiting| && s.waiting[i] == w;
    assert s.waiting[1..][i - 1] == w;
  }

  lemma {:induction false} AdmitKeepsGrant(s: Sched, w: BudgetId, now: int)
    requires Core(s) && w in s.active && w in s.budgets && s.budgets[w].waiter.Granted?
    ensures w in Admit(s, now).budgets && Admit(s, now).budgets[w] == s.budgets[w] && w in Admit(s, now).active
    decreases |s.waiting|
  {
    if s.closed || s.waiting == [] || |s.active| >= s.policy.maxActive {
    } else {
      var b := s.waiting[0];
      assert b in s.waiting && b != w;
      if !Live(s, b) {
        TailQueue(s);
        hide Core;
        AdmitKeepsGrant(s.(waiting := s.waiting[1..]), w, now);
      } else if now >= s.budgets[b].workDeadline {
        FailHead(s);
        hide Core;
        AdmitKeepsGrant(Put(s.(waiting := s.waiting[1..]), b, s.budgets[b].(waiter := Failed)), w, now);
      } else {
        GrantHead(s, now);
        hide Core;
        AdmitKeepsGrant(Activated(Put(s.(waiting := s.waiting[1..]), b, s.budgets[b].(waiter := Granted(now))), b), w, now);
      }
    }
  }

  /** A departing budget without a task hands its slot to the first live waiter, even if it was itself granted and then cancelled. */
  lemma SlotPassesOn(s: Sched, b: BudgetId, w: BudgetId, now: int)
    requires Inv(s) && !s.closed && b in s.active && b in s.budgets
    requires s.budgets[b].tasks == map[] && !s.budgets[b].finished && FirstLive(s, w, now)
    ensures var s' := Step(s, Leave(b, now));
            b !in s'.active && w in s'.active && w in s'.budgets && s'.budgets[w].waiter == Granted(now)
  {
    hide Inv, Core, FirstLive, Sorted, Step, BudgetOk;
    Departing(s, b);
    WithoutMembers(s.waiting, b);
    var s1 := SlotFreed(s, b);
    LeaveFreesSlot(s, b, now);
    SlotReturns(s, b, s1.budgets[b], s1.waiting);
    StillFirst(s, s1, b, w, now);
    FirstLiveGranted(s1, w, now);
    StaysOut(s1, b, now);
  }

  function SlotFreed(s: Sched, b: BudgetId): Sched
    requires b in s.budgets
  {
    var budget := s.budgets[b];
    Put(s, b, budget.(finished := true, admitted := false, releases := budget.releases + 1))
      .(waiting := Without(s.waiting, b), active := s.active - {b})
  }

  lemma LeaveFreesSlot(s: Sched, b: BudgetId, now: int)
    requires b in s.budgets && s.budgets[b].admitted && s.budgets[b].tasks == map[] && !s.budgets[b].finished
    requires s.budgets[b].waiter != Waiting
    ensures Step(s, Leave(b, now)) == Admit(SlotFreed(s, b), now)
  {
    var left := Put(s, b, s.budgets[b].(finished := true)).(waiting := Without(s.waiting, b));
    assert Put(left, b, SlotFreed(s, b).budgets[b]).(active := s.active - {b}) == SlotFreed(s, b);
  }

  lemma Departing(s: Sched, b: BudgetId)
    requires Inv(s) && b in s.active
    ensures b in s.budgets && s.budgets[b].admitted && s.budgets[b].releases == 0 && s.budgets[b].waiter != Waiting
    ensures Sorted(s.waiting) && |s.active - {b}| < s.policy.maxActive
    ensures s.budgets[b].tasks == map[] ==> BudgetOk(SlotFreed(s, b).budgets[b], s.nextTask)
  {
    assert |s.active - {b}| == |s.active| - 1;
  }

  lemma StillFirst(s: Sched, s': Sched, b: BudgetId, w: BudgetId, now: int)
    requires FirstLive(s, w, now) && b in s.budgets && s.budgets[b].waiter != Waiting
    requires s'.budgets.Keys == s.budgets.Keys && forall v | v in s.budgets && v != b :: s'.budgets[v] == s.budgets[v]
    requires forall c :: c in s'.waiting <==> c in s.waiting && c != b
    ensures FirstLive(s', w, now)
  {
  }

  lemma {:induction false} StaysOut(s: Sched, b: BudgetId, now: int)
    requires b !in s.active && b !in s.waiting
    ensures b !in Admit(s, now).active
    decreases |s.waiting|
  {
    if s.closed || s.waiting == [] || |s.active| >= s.policy.maxActive {
    } else {
      var c := s.waiting[0];
      var rest := s.(waiting := s.waiting[1..]);
      if !Live(s, c) {
        StaysOut(rest, b, now);
      } else if now >= s.budgets[c].workDeadline {
        StaysOut(Put(rest, c, s.budgets[c].(waiter := Failed)), b, now);
      } else {
        StaysOut(Activated(Put(rest, c, s.budgets[c].(waiter := Granted(now))), c), b, now);
      }
    }
  }

  lemma ClosedStep(s: Sched, e: Event)
    requires s.closed
    ensures Step(s, e).closed && Step(s, e).active <= s.active
  {
  }

  /** After close nothing is ever activated again, whatever happens. */
  lemma {:induction false} ClosedNeverActivates(s: Sched, events: seq<Event>)
    requires s.closed
    ensures Run(s, events).closed && Run(s, events).active <= s.active
    decreases |events|
  {
    hide Step;
    if events != [] {
      ClosedStep(s, events[0]);
      ClosedNeverActivates(Step(s, events[0]), events[1..]);
    }
  }

  /** A task inside protected cleanup is never asked to stop: no event but its own end of protection exposes it. */
  lemma ProtectedIsNeverCancelled(s: Sched, e: Event, b: BudgetId, t: TaskId)
    requires HasTask(s, b, t) && t in s.budgets[b].protected
    requires HasTask(Step(s, e), b, t)
    ensures Step(s, e).budgets[b].tasks[t].cancelling == s.budgets[b].tasks[t].cancelling
  {
    match e
    case Open(now, later) => OpenedKeepsTasks(s, now, later, b);
    case Leave(c, now) => if c in s.budgets { FinishKeepsTasks(s, c, now, b); }
    case SourceDone(c, u, now) => DoneKeepsTasks(s, c, u, now, b, t);
    case _ => hide Opened, Finish, ReleaseIfFinished, Admit;
  }

  lemma ReleaseKeepsTasks(s: Sched, c: BudgetId, now: int, b: BudgetId)
    requires c in s.budgets && b in s.budgets
    ensures b in ReleaseIfFinished(s, c, now).budgets
        && ReleaseIfFinished(s, c, now).budgets[b].tasks == s.budgets[b].tasks
  {
    hide Admit;
    var budget := s.budgets[c];
    var freed := Put(s, c, budget.(admitted := false, releases := budget.releases + 1)).(active := s.active - {c});
    AdmitKeepsTasks(freed, now, b);
  }

  lemma FinishKeepsTasks(s: Sched, c: BudgetId, now: int, b: BudgetId)
    requires c in s.budgets && b in s.budgets
    ensures b in Finish(s, c, now).budgets && Finish(s, c, now).budgets[b].tasks == s.budgets[b].tasks
  {
    hide ReleaseIfFinished, Without;
    ReleaseKeepsTasks(Put(s, c, s.budgets[c].(finished := true)).(waiting := Without(s.waiting, c)), c, now, b);
  }

  lemma OpenedKeepsTasks(s: Sched, now: int, later: int, b: BudgetId)
    requires b in s.budgets && b in Opened(s, now, later).budgets
    ensures Opened(s, now, later).budgets[b].tasks == s.budgets[b].tasks || b == s.nextBudget
  {
    hide Finish;
    forall s': Sched | s.nextBudget in s'.budgets && b in s'.budgets
      ensures b in Finish(s', s.nextBudget, later).budgets
              && Finish(s', s.nextBudget, later).budgets[b].tasks == s'.budgets[b].tasks
    {
      FinishKeepsTasks(s', s.nextBudget, later, b);
    }
  }

  lemma DoneKeepsTasks(s: Sched, c: BudgetId, u: TaskId, now: int, b: BudgetId, t: TaskId)
    requires HasTask(s, b, t) && HasTask(Step(s, SourceDone(c, u, now)), b, t)
    ensures Step(s, SourceDone(c, u, now)).budgets[b].tasks[t] == s.budgets[b].tasks[t]
  {
    hide ReleaseIfFinished;
    if c in s.budgets {
      var mid := Put(s, c, Uncounted(s.budgets[c], u));
      ReleaseKeepsTasks(mid, c, now, b);
    }
  }

  lemma {:induction false} AdmitKeepsTasks(s: Sched, now: int, b: BudgetId)
    requires b in s.budgets
    ensures b in Admit(s, now).budgets && Admit(s, now).budgets[b].tasks == s.budgets[b].tasks
    decreases |s.waiting|
  {
    if s.closed || s.waiting == [] || |s.active| >= s.policy.maxActive {
    } else {
      var c := s.waiting[0];
      var rest := s.(waiting := s.waiting[1..]);
      if !Live(s, c) {
        AdmitKeepsTasks(rest, now, b);
      } else if now >= s.budgets[c].workDeadline {
        AdmitKeepsTasks(Put(rest, c, s.budgets[c].(waiter := Failed)), now, b);
      } else {
        AdmitKeepsTasks(Activated(Put(rest, c, s.budgets[c].(waiter := Granted(now))), c), now, b);
      }
    }
  }

  /** No slot is freed while a task of its budget is running. */
  lemma NoSlotFreedUnderTask(s: Sched, e: Event, b: BudgetId)
    requires Inv(s) && b in s.active && b in s.budgets && b !in Step(s, e).active
    ensures forall t | t in s.budgets[b].tasks :: !s.budgets[b].tasks[t].running
  {
    BudgetFacts(s, b);
    FreedBy(s, e, b);
  }

  lemma FreedBy(s: Sched, e: Event, b: BudgetId)
    requires b in s.active && b in s.budgets && b < s.nextBudget && b !in Step(s, e).active
    ensures forall t | t in s.budgets[b].tasks :: !s.budgets[b].tasks[t].running
  {
    forall s': Sched, now | b in s'.active ensures b in Admit(s', now).active { AdmitGrows(s', now); }
    if e.SourceDone? && e.b == b {
      assert forall t | t in s.budgets[b].tasks && t != e.t :: t in s.budgets[b].tasks - {e.t};
    }
  }

  lemma {:induction false} AdmitGrows(s: Sched, now: int)
    ensures s.active <= Admit(s, now).active
    decreases |s.waiting|
  {
    if s.closed || s.waiting == [] || |s.active| >= s.policy.maxActive {
    } else {
      var c := s.waiting[0];
      var rest := s.(waiting := s.waiting[1..]);
      if !Live(s, c) {
        AdmitGrows(rest, now);
      } else if now >= s.budgets[c].workDeadline {
        AdmitGrows(Put(rest, c, s.budgets[c].(waiter := Failed)), now);
      } else {
        AdmitGrows(Activated(Put(rest, c, s.budgets[c].(waiter := Granted(now))), c), now);
      }
    }
  }
}
