/**
 The scheduler object of preflight.py.  Each method is one stretch between two awaits and is proved
 to do what the corresponding event of PreflightModel does to the whole state.
 */
module PreflightAdmission {
  import opened Options
  import opened PreflightModel

  class Admission {
    const policy: Policy
    var closed: bool
    var active: set<BudgetId>
    var waiting: seq<BudgetId>
    var budgets: map<BudgetId, Budget>
    var nextBudget: BudgetId
    var nextTask: TaskId

    function State(): Sched
      reads this
    {
      Sched(policy, closed, active, waiting, budgets, nextBudget, nextTask)
    }

    constructor (policy: Policy)
      requires policy.Valid()
      ensures State() == Start(policy)
    {
      this.policy := policy;
      closed, active, waiting, budgets, nextBudget, nextTask := false, {}, [], map[], 0, 0;
    }

    method Activate(b: BudgetId)
      requires b in budgets
      modifies this
      ensures State() == Activated(old(State()), b)
    {
      budgets := budgets[b := budgets[b].(admitted := true)];
      active := active + {b};
    }

    /** _release after the slot was given up: hand slots on while there is somebody to take one. */
    method HandOver(now: int)
      modifies this
      ensures State() == Admit(old(State()), now)
    {
      while !closed && waiting != [] && |active| < policy.maxActive
        invariant Admit(State(), now) == Admit(old(State()), now)
        decreases |waiting|
      {
        var queued := waiting[0];
        waiting := waiting[1..];
        if !Live(State(), queued) {
          continue;
        }
        if now >= budgets[queued].workDeadline {
          budgets := budgets[queued := budgets[queued].(waiter := Failed)];
          continue;
        }
        budgets := budgets[queued := budgets[queued].(waiter := Granted(now))];
        Activate(queued);
      }
    }

    method ReleaseFinished(b: BudgetId, now: int)
      requires b in budgets
      modifies this
      ensures State() == ReleaseIfFinished(old(State()), b, now)
    {
      var budget := budgets[b];
      if budget.finished && budget.admitted && budget.tasks == map[] {
        budgets := budgets[b := budget.(admitted := false, releases := budget.releases + 1)];
        active := active - {b};
        HandOver(now);
      }
    }

    /** deque.remove: drop the first entry of `b`, if there is one. */
    method RemoveEntry(b: BudgetId)
      modifies this
      ensures State() == old(State()).(waiting := Without(old(waiting), b))
    {
      var i := 0;
      while i < |waiting| && waiting[i] != b
        invariant 0 <= i <= |waiting| && forall j | 0 <= j < i :: waiting[j] != b
      {
        i := i + 1;
      }
      WithoutFirst(waiting, i, b);
      if i < |waiting| {
        waiting := waiting[..i] + waiting[i + 1..];
      }
    }

    /** The finally block of operation(). */
    method Exit(b: BudgetId, now: int)
      requires b in budgets
      modifies this
      ensures State() == Finish(old(State()), b, now)
    {
      budgets := budgets[b := budgets[b].(finished := true)];
      RemoveEntry(b);
      ReleaseFinished(b, now);
    }

    /** A place at the end of the queue, with a future to wait for. */
    method Enqueue(b: BudgetId)
      requires b in budgets
      modifies this
      ensures State() == Put(old(State()), b, old(budgets)[b].(waiter := Waiting)).(waiting := old(waiting) + [b])
    {
      waiting := waiting + [b];
      budgets := budgets[b := budgets[b].(waiter := Waiting)];
    }

    /** operation() up to its first await; None when the caller gets a refusal or a spent budget instead of a slot or a place. */
    method Operation(now: int, later: int) returns (budget: Option<BudgetId>)
      modifies this
      ensures State() == Step(old(State()), Open(now, later))
      ensures budget.Some? ==> budget.value in budgets && !budgets[budget.value].finished
    {
      hide Finish, Without, Step;
      OpenStep(State(), now, later);
      if closed {
        return None;
      }
      var b := nextBudget;
      var workDeadline := now + policy.total - policy.cleanup;
      var created := New(now, workDeadline);
      nextBudget := b + 1;
      budgets := budgets[b := created];
      if |active| < policy.maxActive && waiting == [] {
        Activate(b);
        if later >= workDeadline {
          Exit(b, later);
          return None;
        }
        return Some(b);
      }
      if |waiting| >= policy.maxWaiting {
        Exit(b, later);
        return None;
      }
      Enqueue(b);
      if later >= workDeadline {
        budgets := budgets[b := created.(waiter := Cancelled)];
        Exit(b, later);
        return None;
      }
      return Some(b);
    }

    /** run() up to its first await. */
    method RunSource(b: BudgetId, now: int) returns (task: Option<TaskId>)
      modifies this
      ensures State() == Step(old(State()), StartTask(b, now))
      ensures task.Some? <==> MayRun(old(State()), b, now)
      ensures task.Some? ==> b in budgets && budgets[b].tasks.Keys == {task.value}
    {
      if b !in budgets {
        return None;
      }
      var budget := budgets[b];
      if now >= budget.workDeadline || closed || budget.finished {
        return None;
      }
      if !budget.admitted || budget.tasks != map[] {
        return None;
      }
      var t := nextTask;
      nextTask := t + 1;
      budgets := budgets[b := budget.(tasks := map[t := Task(true, false)])];
      return Some(t);
    }

    /** The finally block of run(): a stopped task is dropped, its callback may still be to come. */
    method DropStopped(b: BudgetId, t: TaskId)
      requires HasTask(State(), b, t)
      modifies this
      ensures State() == Step(old(State()), Discard(b, t))
    {
      if !budgets[b].tasks[t].running {
        budgets := budgets[b := budgets[b].(tasks := budgets[b].tasks - {t}, discarded := budgets[b].discarded + {t})];
      }
    }

    /** _source_done, the done callback of a counted task. */
    method OnSourceDone(b: BudgetId, t: TaskId, now: int)
      requires CallbackDue(State(), b, t)
      modifies this
      ensures State() == Step(old(State()), SourceDone(b, t, now))
    {
      var budget := budgets[b];
      budget := budget.(tasks := budget.tasks - {t});
      budget := budget.(protected := budget.protected - {t}, discarded := budget.discarded - {t});
      budgets := budgets[b := budget];
      ReleaseFinished(b, now);
    }

    /** The first loop of aclose(): every queued live waiter gets the closed error. */
    method FailWaiters()
      modifies this
      ensures State() == old(State()).(waiting := [], budgets := RefusedAll(old(budgets), old(waiting)))
    {
      hide RefusedAll, Refused;
      ghost var popped := [];
      RefusedNone(budgets);
      while waiting != []
        invariant popped + waiting == old(waiting)
        invariant budgets == RefusedAll(old(budgets), popped)
        invariant State() == old(State()).(waiting := waiting, budgets := budgets)
        decreases |waiting|
      {
        var waiter := waiting[0];
        PopNext(popped, waiting);
        RefusedOn(old(budgets), popped, waiter);
        waiting := waiting[1..];
        popped := popped + [waiter];
        if waiter in budgets && budgets[waiter].waiter == Waiting {
          budgets := budgets[waiter := budgets[waiter].(waiter := Failed)];
        }
      }
      assert popped + [] == popped;
    }

    /** Ask each unprotected task of one budget to stop. */
    method StopTasks(b: BudgetId)
      requires b in budgets
      modifies this
      ensures State() == Put(old(State()), b, Stopping(old(budgets)[b]))
    {
      var left := budgets[b].tasks.Keys;
      assert Partly(budgets[b], left).tasks == budgets[b].tasks;
      assert budgets == budgets[b := Partly(budgets[b], left)];
      while left != {}
        invariant left <= old(budgets)[b].tasks.Keys
        invariant State() == Put(old(State()), b, Partly(old(budgets)[b], left))
        decreases |left|
      {
        var t :| t in left;
        ghost var was := Partly(old(budgets)[b], left);
        budgets := budgets[b := CancelSource(budgets[b], t)];
        left := left - {t};
        assert CancelSource(was, t).tasks == Partly(old(budgets)[b], left).tasks;
        assert budgets == old(budgets)[b := Partly(old(budgets)[b], left)];
      }
      assert Partly(old(budgets)[b], {}).tasks == Stopping(old(budgets)[b]).tasks;
    }

    /** aclose(): empty the queue, then ask every unprotected active task to stop. */
    method Aclose()
      requires active <= budgets.Keys
      modifies this
      ensures State() == Step(old(State()), Close)
    {
      hide Refused, Stopping, ClosedBudget;
      ClosedAsMap(State());
      closed := true;
      FailWaiters();
      label Refusing:
      var todo := active;
      while todo != {}
        invariant todo <= active && active <= budgets.Keys
        invariant State() == old@Refusing(State()).(budgets := StoppedAll(old@Refusing(budgets), active - todo))
        decreases |todo|
      {
        var b :| b in todo;
        StopTasks(b);
        todo := todo - {b};
        assert budgets == StoppedAll(old@Refusing(budgets), active - todo);
      }
    }
  }

  function StoppedAll(budgets: map<BudgetId, Budget>, stopped: set<BudgetId>): map<BudgetId, Budget> {
    map b | b in budgets :: if b in stopped then Stopping(budgets[b]) else budgets[b]
  }

  lemma ClosedAsMap(s: Sched)
    ensures Closed(s) == s.(closed := true, waiting := [],
                            budgets := StoppedAll(RefusedAll(s.budgets, s.waiting), s.active))
  {
    hide Refused, Stopping, ClosedBudget;
    forall b | b in s.budgets
      ensures ClosedBudget(s, b) == if b in s.active then Stopping(Refused(s.budgets[b], b in s.waiting))
                                    else Refused(s.budgets[b], b in s.waiting)
    {
      ClosedAsLoops(s, b);
    }
  }

  /** `budget` once the tasks outside `left` have been asked to stop. */
  function Partly(budget: Budget, left: set<TaskId>): Budget {
    budget.(tasks := map t | t in budget.tasks :: if t in left then budget.tasks[t] else StopTask(budget, t))
  }

  function Refused(budget: Budget, queued: bool): Budget {
    if queued && budget.waiter == Waiting then budget.(waiter := Failed) else budget
  }

  function RefusedAll(budgets: map<BudgetId, Budget>, queued: seq<BudgetId>): (r: map<BudgetId, Budget>)
    ensures r.Keys == budgets.Keys
  {
    map b | b in budgets :: Refused(budgets[b], b in queued)
  }

  lemma RefusedNone(budgets: map<BudgetId, Budget>)
    ensures RefusedAll(budgets, []) == budgets
  {
  }

  lemma PopNext(popped: seq<BudgetId>, queue: seq<BudgetId>)
    requires queue != []
    ensures popped + [queue[0]] + queue[1..] == popped + queue
  {
  }

  /** One more entry popped from the queue. */
  lemma RefusedOn(budgets: map<BudgetId, Budget>, queued: seq<BudgetId>, w: BudgetId)
    ensures var was := RefusedAll(budgets, queued);
            RefusedAll(budgets, queued + [w])
            == if w in budgets && was[w].waiter == Waiting then was[w := was[w].(waiter := Failed)] else was
  {
    assert forall b :: b in queued + [w] <==> b in queued || b == w;
  }

  function StopTask(budget: Budget, t: TaskId): Task
    requires t in budget.tasks
  {
    if t in budget.protected then budget.tasks[t] else budget.tasks[t].(cancelling := true)
  }

  function Stopping(budget: Budget): Budget {
    budget.(tasks := map t | t in budget.tasks :: StopTask(budget, t))
  }

  lemma ClosedAsLoops(s: Sched, b: BudgetId)
    requires b in s.budgets
    ensures var refused := Refused(s.budgets[b], b in s.waiting);
            ClosedBudget(s, b) == if b in s.active then Stopping(refused) else refused
  {
    var refused := Refused(s.budgets[b], b in s.waiting);
    assert b in s.active ==> ClosedBudget(s, b).tasks == Stopping(refused).tasks;
  }

  /** `i` is the place of the first entry of `b`, or the end of the queue. */
  lemma {:induction false} WithoutFirst(q: seq<BudgetId>, i: nat, b: BudgetId)
    requires i <= |q| && (forall j | 0 <= j < i :: q[j] != b) && (i < |q| ==> q[i] == b)
    ensures Without(q, b) == if i < |q| then q[..i] + q[i + 1..] else q
  {
    if q != [] && i > 0 {
      var rest := q[1..];
      WithoutFirst(rest, i - 1, b);
      if i < |q| {
        assert q[..i] == [q[0]] + rest[..i - 1] && q[i + 1..] == rest[i..];
      } else {
        assert q == [q[0]] + rest;
      }
    }
  }

  lemma OpenStep(s: Sched, now: int, later: int)
    ensures Step(s, Open(now, later)) == Opened(s, now, later)
  {
    hide Opened;
  }
}
