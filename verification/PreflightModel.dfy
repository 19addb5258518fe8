/**
 Preflight admission: a bounded scheduler on one event loop.  A budget is created before it waits,
 occupies one of `maxActive` slots while admitted, and owns at most one counted source task.  Each
 event below is the code that runs between two awaits.
 */
module PreflightModel {
  type BudgetId = nat
  type TaskId = nat

  datatype Policy = Policy(total: int, cleanup: int, maxActive: nat, maxWaiting: nat) {
    predicate Valid() {
      0 < cleanup < total && 1 <= maxActive <= 128 && maxWaiting <= 128
    }
  }

  /** The future a budget waits on; Cancelled covers the caller's timeout too. */
  datatype Waiter = NoWaiter | Waiting | Granted(at: int) | Failed | Cancelled

  datatype Task = Task(running: bool, cancelling: bool)

  datatype Budget = Budget(
    openedAt: int,  // when operation() was entered
    workDeadline: int,
    admitted: bool,
    finished: bool,
    waiter: Waiter,
    tasks: map<TaskId, Task>,
    protected: set<TaskId>,  // tasks inside protect_source_cleanup
    discarded: set<TaskId>,  // stopped tasks that run() has dropped before their done callback came
    releases: nat)           // how often this budget returned its slot

  datatype Sched = Sched(
    policy: Policy,
    closed: bool,
    active: set<BudgetId>,
    waiting: seq<BudgetId>,
    budgets: map<BudgetId, Budget>,
    nextBudget: BudgetId,
    nextTask: TaskId)

  datatype Event =
    | Open(now: int, later: int)
    | EndWait(b: BudgetId)
    | Leave(b: BudgetId, now: int)
    | StartTask(b: BudgetId, now: int)
    | Protect(b: BudgetId, t: TaskId)
    | Unprotect(b: BudgetId, t: TaskId)
    | CancelTask(b: BudgetId, t: TaskId)
    | TaskStops(b: BudgetId, t: TaskId)
    | Discard(b: BudgetId, t: TaskId)
    | SourceDone(b: BudgetId, t: TaskId, now: int)
    | Close

  function Start(policy: Policy): Sched {
    Sched(policy, false, {}, [], map[], 0, 0)
  }

  function Put(s: Sched, b: BudgetId, budget: Budget): Sched {
    s.(budgets := s.budgets[b := budget])
  }

  function Activated(s: Sched, b: BudgetId): Sched
    requires b in s.budgets
  {
    Put(s, b, s.budgets[b].(admitted := true)).(active := s.active + {b})
  }

  predicate Live(s: Sched, b: BudgetId) {
    b in s.budgets && s.budgets[b].waiter == Waiting
  }

  /** The loop of _release: hand free slots to live waiters in queue order. */
  function Admit(s: Sched, now: int): Sched
    decreases |s.waiting|
  {
    if s.closed || s.waiting == [] || |s.active| >= s.policy.maxActive then s
    else
      var b := s.waiting[0];
      var rest := s.(waiting := s.waiting[1..]);
      if !Live(s, b) then Admit(rest, now)
      else if now >= s.budgets[b].workDeadline then Admit(Put(rest, b, s.budgets[b].(waiter := Failed)), now)
      else Admit(Activated(Put(rest, b, s.budgets[b].(waiter := Granted(now))), b), now)
  }

  function ReleaseIfFinished(s: Sched, b: BudgetId, now: int): Sched
    requires b in s.budgets
  {
    var budget := s.budgets[b];
    if budget.finished && budget.admitted && budget.tasks == map[] then
      Admit(Put(s, b, budget.(admitted := false, releases := budget.releases + 1)).(active := s.active - {b}), now)
    else s
  }

  function Without(q: seq<BudgetId>, b: BudgetId): seq<BudgetId> {
    if q == [] then []
    else if q[0] == b then q[1..]
    else [q[0]] + Without(q[1..], b)
  }

  /** The finally block of operation(). */
  function Finish(s: Sched, b: BudgetId, now: int): Sched
    requires b in s.budgets
  {
    ReleaseIfFinished(Put(s, b, s.budgets[b].(finished := true)).(waiting := Without(s.waiting, b)), b, now)
  }

  function New(openedAt: int, workDeadline: int): Budget {
    Budget(openedAt, workDeadline, false, false, NoWaiter, map[], {}, {}, 0)
  }

  /** operation() up to its first await; `later` is the clock when the new budget is first checked. */
  function Opened(s: Sched, now: int, later: int): Sched {
    if s.closed then s
    else
      var b := s.nextBudget;
      var workDeadline := now + s.policy.total - s.policy.cleanup;
      var created := New(now, workDeadline);
      var s1 := Put(s, b, created).(nextBudget := b + 1);
      if |s.active| < s.policy.maxActive && s.waiting == [] then
        var s2 := Activated(s1, b);
        if later >= workDeadline then Finish(s2, b, later) else s2
      else if |s.waiting| >= s.policy.maxWaiting then Finish(s1, b, later)
      else
        var s2 := Put(s1, b, created.(waiter := Waiting)).(waiting := s.waiting + [b]);
        if later >= workDeadline then Finish(Put(s2, b, created.(waiter := Cancelled)), b, later) else s2
  }

  function CancelSource(budget: Budget, t: TaskId): Budget {
    if t in budget.tasks && t !in budget.protected && !budget.tasks[t].cancelling
    then budget.(tasks := budget.tasks[t := budget.tasks[t].(cancelling := true)])
    else budget
  }

  /** aclose(): every live waiter fails and every unprotected active task is asked to stop. */
  function ClosedBudget(s: Sched, b: BudgetId): Budget
    requires b in s.budgets
  {
    var budget := s.budgets[b];
    var refused := if b in s.waiting && budget.waiter == Waiting then budget.(waiter := Failed) else budget;
    if b in s.active
    then refused.(tasks := map t | t in budget.tasks :: if t in budget.protected then budget.tasks[t]
                                                        else budget.tasks[t].(cancelling := true))
    else refused
  }

  function Closed(s: Sched): Sched {
    s.(closed := true, waiting := [], budgets := map b | b in s.budgets :: ClosedBudget(s, b))
  }

  predicate HasTask(s: Sched, b: BudgetId, t: TaskId) {
    b in s.budgets && t in s.budgets[b].tasks
  }

  /** run() up to its first await: a counted task, or a refusal without one. */
  predicate MayRun(s: Sched, b: BudgetId, now: int) {
    && b in s.budgets
    && now < s.budgets[b].workDeadline && !s.closed && !s.budgets[b].finished
    && s.budgets[b].admitted && s.budgets[b].tasks == map[]
  }

  /** The done callback of a task comes once, after the task has stopped. */
  predicate CallbackDue(s: Sched, b: BudgetId, t: TaskId) {
    && b in s.budgets
    && (t in s.budgets[b].tasks || t in s.budgets[b].discarded)
    && (t in s.budgets[b].tasks ==> !s.budgets[b].tasks[t].running)
  }

  function Uncounted(budget: Budget, t: TaskId): Budget {
    budget.(tasks := budget.tasks - {t}, protected := budget.protected - {t}, discarded := budget.discarded - {t})
  }

  /** An event that cannot happen in `s` leaves it unchanged. */
  function Step(s: Sched, e: Event): Sched {
    match e
    case Open(now, later) => Opened(s, now, later)
    case EndWait(b) =>
      if Live(s, b) then Put(s, b, s.budgets[b].(waiter := Cancelled)) else s
    case Leave(b, now) =>
      if b in s.budgets && !s.budgets[b].finished && s.budgets[b].waiter != Waiting then Finish(s, b, now) else s
    case StartTask(b, now) =>
      if MayRun(s, b, now)
      then Put(s, b, s.budgets[b].(tasks := map[s.nextTask := Task(true, false)])).(nextTask := s.nextTask + 1)
      else s
    case Protect(b, t) =>
      if HasTask(s, b, t) && s.budgets[b].tasks[t].running
      then Put(s, b, s.budgets[b].(protected := s.budgets[b].protected + {t})) else s
    case Unprotect(b, t) =>
      if b in s.budgets then Put(s, b, s.budgets[b].(protected := s.budgets[b].protected - {t})) else s
    case CancelTask(b, t) =>
      if b in s.budgets then Put(s, b, CancelSource(s.budgets[b], t)) else s
    case TaskStops(b, t) =>
      if HasTask(s, b, t)
      then Put(s, b, s.budgets[b].(tasks := s.budgets[b].tasks[t := s.budgets[b].tasks[t].(running := false)])) else s
    case Discard(b, t) =>
      if HasTask(s, b, t) && !s.budgets[b].tasks[t].running
      then Put(s, b, s.budgets[b].(tasks := s.budgets[b].tasks - {t}, discarded := s.budgets[b].discarded + {t})) else s
    case SourceDone(b, t, now) =>
      if CallbackDue(s, b, t) then ReleaseIfFinished(Put(s, b, Uncounted(s.budgets[b], t)), b, now) else s
    case Close => Closed(s)
  }

  function Run(s: Sched, events: seq<Event>): Sched
    decreases |events|
  {
    if events == [] then s else Run(Step(s, events[0]), events[1..])
  }
}
