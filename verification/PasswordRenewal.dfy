/** Scheduled renewals of device passwords. Times are microseconds since the epoch in UTC. */
module PasswordRenewal {
  import opened Wrappers

  const SECOND := 1_000_000
  const HOUR := 3_600_000_000
  const DAY := 86_400_000_000

  const MAX_ERRORS := 5

  datatype Status = Pending | Canceled | Completed | Error

  datatype Task = Task(device: string, scheduled: int, status: Status, errors: nat, created: int)

  type Tasks = map<string, Task>

  // ----- scheduling -----

  /** 23:59:59 of the request's day, or of the next day for a request in the last hour. */
  function ScheduleTime(now: int): int {
    var endOfDay := now - now % DAY + 23 * HOUR + 59 * 60 * SECOND + 59 * SECOND;
    if now % DAY >= 23 * HOUR then endOfDay + DAY else endOfDay
  }

  /** A renewal is scheduled more than 3599 and at most 89999 seconds ahead. */
  lemma ScheduleBounds(now: int)
    ensures 3599 * SECOND < ScheduleTime(now) - now <= 89999 * SECOND
  {}

  predicate EndOfDay(t: int) {
    t % DAY == DAY - SECOND
  }

  /** It is the first 23:59:59 that lies more than 3599 seconds ahead. */
  lemma ScheduleIsFirst(now: int, t: int)
    ensures EndOfDay(ScheduleTime(now)) && ScheduleTime(now) > now + 3599 * SECOND
    ensures EndOfDay(t) && t > now + 3599 * SECOND ==> ScheduleTime(now) <= t
  {
    var s := ScheduleTime(now);
    assert s / DAY == if now % DAY >= 23 * HOUR then now / DAY + 1 else now / DAY;
    if EndOfDay(t) && t < s {
      assert t / DAY <= s / DAY - 1;
    }
  }

  predicate IsPending(tasks: Tasks, id: string, device: string) {
    id in tasks && tasks[id].device == device && tasks[id].status == Pending
  }

  predicate HasPending(tasks: Tasks, device: string) {
    exists id :: id in tasks && IsPending(tasks, id, device)
  }

  function CancelPending(tasks: Tasks, device: string): Tasks {
    map id | id in tasks :: if IsPending(tasks, id, device) then tasks[id].(status := Canceled) else tasks[id]
  }

  /** A secret request; `id` is the fresh id of the renewal it may add. */
  function Request(tasks: Tasks, device: string, now: int, id: string): Tasks {
    if HasPending(tasks, device) && now % DAY < 23 * HOUR then tasks
    else
      (if HasPending(tasks, device) then CancelPending(tasks, device) else tasks)
      [id := Task(device, ScheduleTime(now), Pending, 0, now)]
  }

  // ----- the processor -----

  predicate Due(t: Task, now: int) {
    t.status == Pending && t.scheduled < now
  }

  /** A renewal attempt succeeds or is counted as an error; the fifth error is final. */
  function Attempt(t: Task, renewed: bool): Task {
    if renewed then t.(status := Completed)
    else if t.errors + 1 >= MAX_ERRORS then t.(errors := t.errors + 1, status := Error)
    else t.(errors := t.errors + 1)
  }

  /** One pass over all renewals that are due; `renewed` says which attempts succeed. */
  function Pass(tasks: Tasks, now: int, renewed: set<string>): Tasks {
    map id | id in tasks :: if Due(tasks[id], now) then Attempt(tasks[id], id in renewed) else tasks[id]
  }

  function Purge(tasks: Tasks, cutoff: int): Tasks {
    map id | id in tasks && !(tasks[id].status == Completed && tasks[id].created < cutoff) :: tasks[id]
  }

  // ----- steps and runs -----

  datatype Step =
    | RequestStep(device: string, now: int, id: string)
    | RenewStep(device: string)
    | PassStep(at: int, renewed: set<string>)
    | PurgeStep(cutoff: int)

  function Next(tasks: Tasks, s: Step): Tasks {
    match s
    case RequestStep(device, now, id) => Request(tasks, device, now, id)
    case RenewStep(device) => CancelPending(tasks, device)
    case PassStep(now, renewed) => Pass(tasks, now, renewed)
    case PurgeStep(cutoff) => Purge(tasks, cutoff)
  }

  /** Task ids are never reused: `used` are all ids handed out so far. */
  datatype State = State(tasks: Tasks, used: set<string>)

  function NextState(s: State, step: Step): State {
    State(Next(s.tasks, step), if step.RequestStep? then s.used + {step.id} else s.used)
  }

  predicate Fresh(s: State, step: Step) {
    step.RequestStep? ==> step.id !in s.used
  }

  /** A run: every step from the state before it, with fresh ids. */
  ghost predicate IsRun(states: seq<State>, steps: seq<Step>) {
    && |states| == |steps| + 1
    && forall i :: 0 <= i < |steps| ==> Fresh(states[i], steps[i]) && states[i + 1] == NextState(states[i], steps[i])
  }

  // ----- what every state keeps -----

  /** At most one pending task per device. */
  predicate OnePending(tasks: Tasks) {
    forall a, b ::
      (a in tasks && b in tasks && tasks[a].status == Pending && tasks[b].status == Pending
       && tasks[a].device == tasks[b].device) ==> a == b
  }

  /** A task is in error exactly when it failed five times, and no task fails more often. */
  predicate ErrorsCounted(tasks: Tasks) {
    forall id :: id in tasks ==>
      tasks[id].errors <= MAX_ERRORS && (tasks[id].status == Error <==> tasks[id].errors == MAX_ERRORS)
  }

  predicate WithinBounds(tasks: Tasks) {
    forall id :: id in tasks ==> 3599 * SECOND < tasks[id].scheduled - tasks[id].created <= 89999 * SECOND
  }

  predicate Ok(s: State) {
    OnePending(s.tasks) && ErrorsCounted(s.tasks) && WithinBounds(s.tasks) && s.tasks.Keys <= s.used
  }

  lemma RequestKeepsOk(s: State, device: string, now: int, id: string)
    requires Ok(s) && id !in s.used
    ensures Ok(NextState(s, RequestStep(device, now, id)))
  {
    ScheduleBounds(now);
  }

  lemma PassKeepsOk(s: State, now: int, renewed: set<string>)
    requires Ok(s)
    ensures Ok(NextState(s, PassStep(now, renewed)))
  {}

  lemma StepKeepsOk(s: State, step: Step)
    requires Ok(s) && Fresh(s, step)
    ensures Ok(NextState(s, step))
  {
    match step
    case RequestStep(device, now, id) => RequestKeepsOk(s, device, now, id);
    case RenewStep(device) =>
    case PassStep(now, renewed) => PassKeepsOk(s, now, renewed);
    case PurgeStep(cutoff) =>
  }

  /** Over every run from an empty table. */
  lemma {:induction false} RunKeepsOk(states: seq<State>, steps: seq<Step>)
    requires IsRun(states, steps) && Ok(states[0])
    ensures Ok(states[|steps|])
    decreases |steps|
  {
    if steps != [] {
      var n := |steps| - 1;
      RunKeepsOk(states[..|states| - 1], steps[..n]);
      StepKeepsOk(states[n], steps[n]);
    }
  }

  // ----- what one step does to a task -----

  /** The step is a pass for which the task is due. */
  predicate Attempts(step: Step, t: Task) {
    step.PassStep? && t.scheduled < step.at
  }

  /** The step cancels the pending tasks of the device: a manual renewal, or a request in the last
      hour of a day. */
  predicate Cancels(step: Step, device: string) {
    (step.RenewStep? && step.device == device) || (step.RequestStep? && step.device == device && step.now % DAY >= 23 * HOUR)
  }

  /** How a pending task can leave pending, and what an attempt costs it: completed exactly by a due
      pass that renews it, in error exactly by its fifth failing one, cancelled exactly by a manual
      renewal or a late request for its device. */
  lemma PendingStep(s: State, step: Step, id: string)
    requires Ok(s) && Fresh(s, step) && id in s.tasks && s.tasks[id].status == Pending
    ensures id in NextState(s, step).tasks
    ensures var t, u := s.tasks[id], NextState(s, step).tasks[id];
            && (u.status == Completed <==> Attempts(step, t) && id in step.renewed)
            && (u.status == Error <==> Attempts(step, t) && id !in step.renewed && t.errors == 4)
            && (u.status == Canceled <==> Cancels(step, t.device))
            && u.errors == t.errors + (if Attempts(step, t) && id !in step.renewed then 1 else 0)
            && u.device == t.device && u.scheduled == t.scheduled && u.created == t.created
  {
    if step.RequestStep? {
      assert step.id != id;
      assert s.tasks[id].device == step.device ==> IsPending(s.tasks, id, step.device);
    }
  }

  /** A task appears exactly by a request for its device that finds none pending, or comes in the last
      hour of a day; it is pending at the scheduled time, without errors. */
  lemma NewTask(s: State, step: Step, id: string)
    requires Ok(s) && Fresh(s, step) && id !in s.tasks
    ensures id in NextState(s, step).tasks <==>
            step.RequestStep? && step.id == id &&
            ((forall x :: x in s.tasks && s.tasks[x].status == Pending ==> s.tasks[x].device != step.device)
             || step.now % DAY >= 23 * HOUR)
    ensures id in NextState(s, step).tasks ==>
              NextState(s, step).tasks[id] == Task(step.device, ScheduleTime(step.now), Pending, 0, step.now)
  {
    if step.RequestStep? && HasPending(s.tasks, step.device) {
      var x :| x in s.tasks && IsPending(s.tasks, x, step.device);
      assert s.tasks[x].status == Pending && s.tasks[x].device == step.device;
    } else if step.RequestStep? {
      forall x | x in s.tasks && s.tasks[x].status == Pending
        ensures s.tasks[x].device != step.device
      {
        assert !IsPending(s.tasks, x, step.device);
      }
    }
  }

  /** After a request its device has exactly one pending task. */
  lemma RequestLeavesOne(s: State, device: string, now: int, id: string)
    requires Ok(s) && id !in s.used
    ensures var after := NextState(s, RequestStep(device, now, id)).tasks;
            exists x :: x in after && IsPending(after, x, device) && forall y :: y in after && IsPending(after, y, device) ==> y == x
  {
    var step := RequestStep(device, now, id);
    var after := NextState(s, step).tasks;
    RequestKeepsOk(s, device, now, id);
    NewTask(s, step, id);
    if id in after {
      assert IsPending(after, id, device);
    } else {
      var x :| x in s.tasks && s.tasks[x].status == Pending && s.tasks[x].device == device;
      PendingStep(s, step, x);
      assert IsPending(after, x, device);
    }
  }

  /** Purging deletes exactly the completed tasks created before the cutoff. */
  lemma PurgeStepOf(s: State, cutoff: int, id: string)
    requires id in s.tasks
    ensures id !in NextState(s, PurgeStep(cutoff)).tasks <==>
            s.tasks[id].status == Completed && s.tasks[id].created < cutoff
  {}

  // ----- absorbing states -----

  /** A task that left pending never changes again; completed ones may be purged. */
  lemma {:induction false} FinalIsAbsorbing(states: seq<State>, steps: seq<Step>, id: string)
    requires IsRun(states, steps) && id in states[0].tasks && states[0].tasks[id].status != Pending
    requires states[0].tasks.Keys <= states[0].used
    ensures id in states[|steps|].used
    ensures var t := states[0].tasks[id];
            if id in states[|steps|].tasks then states[|steps|].tasks[id] == t else t.status == Completed
    decreases |steps|
  {
    if steps != [] {
      var n := |steps| - 1;
      FinalIsAbsorbing(states[..|states| - 1], steps[..n], id);
      assert Fresh(states[n], steps[n]) && states[n + 1] == NextState(states[n], steps[n]);
    }
  }

  // ----- progress -----

  /** The passes of a run for which a task with this schedule is due. */
  function DuePasses(steps: seq<Step>, scheduled: int): nat {
    if steps == [] then 0
    else
      DuePasses(steps[..|steps| - 1], scheduled) + DueIn(steps[|steps| - 1], scheduled)
  }

  function DueIn(step: Step, scheduled: int): nat {
    if step.PassStep? && scheduled < step.at then 1 else 0
  }

  /** If a task is pending, it has this schedule and this many errors. */
  predicate Counts(s: State, id: string, scheduled: int, errors: int) {
    id in s.used &&
    (id in s.tasks && s.tasks[id].status == Pending ==> s.tasks[id].scheduled == scheduled && s.tasks[id].errors == errors)
  }

  lemma StepCounts(s: State, step: Step, id: string, scheduled: int, errors: int)
    requires Counts(s, id, scheduled, errors) && Fresh(s, step)
    ensures Counts(NextState(s, step), id, scheduled, errors + DueIn(step, scheduled))
  {}

  /** As long as a task stays pending, each pass for which it is due has cost it one error. */
  lemma {:induction false} PendingCountsPasses(states: seq<State>, steps: seq<Step>, id: string)
    requires IsRun(states, steps) && Ok(states[0])
    requires id in states[0].tasks && states[0].tasks[id].status == Pending
    ensures var t := states[0].tasks[id];
            Counts(states[|steps|], id, t.scheduled, t.errors + DuePasses(steps, t.scheduled))
    decreases |steps|
  {
    if steps != [] {
      var n, t := |steps| - 1, states[0].tasks[id];
      PendingCountsPasses(states[..|states| - 1], steps[..n], id);
      assert Fresh(states[n], steps[n]) && states[n + 1] == NextState(states[n], steps[n]);
      StepCounts(states[n], steps[n], id, t.scheduled, t.errors + DuePasses(steps[..n], t.scheduled));
    }
  }

  /** Every due task leaves pending within five passes, whatever else happens in between. */
  lemma LeavesPendingWithinFivePasses(states: seq<State>, steps: seq<Step>, id: string)
    requires IsRun(states, steps) && Ok(states[0])
    requires id in states[0].tasks && states[0].tasks[id].status == Pending
    requires DuePasses(steps, states[0].tasks[id].scheduled) >= MAX_ERRORS
    ensures id in states[|steps|].tasks ==> states[|steps|].tasks[id].status != Pending
  {
    PendingCountsPasses(states, steps, id);
    RunKeepsOk(states, steps);
  }

  // ----- the table as it is updated -----

  class TaskTable {
    var tasks: Tasks

    constructor ()
      ensures tasks == map[]
    {
      tasks := map[];
    }

    method PendingCount(device: string) returns (n: nat)
      ensures n > 0 <==> HasPending(tasks, device)
    {
      var pending := set id | id in tasks && IsPending(tasks, id, device);
      n := |pending|;
      if id :| id in tasks && IsPending(tasks, id, device) {
        assert id in pending;
      }
      if pending != {} {
        var id :| id in pending;
        assert IsPending(tasks, id, device);
      }
    }

    method CancelScheduledTasksForDevice(device: string)
      modifies this
      ensures tasks == CancelPending(old(tasks), device)
    {
      tasks := map id | id in tasks ::
        if IsPending(tasks, id, device) then tasks[id].(status := Canceled) else tasks[id];
    }

    method ScheduleTask(device: string, at: int, now: int, id: string)
      modifies this
      ensures tasks == old(tasks)[id := Task(device, at, Pending, 0, now)]
    {
      tasks := tasks[id := Task(device, at, Pending, 0, now)];
    }

    /** `_schedule_smart_ems_device_secret_renew` */
    method ScheduleRenewal(device: string, now: int, id: string)
      modifies this
      ensures tasks == Request(old(tasks), device, now, id)
    {
      var at := now - now % DAY + (23 * HOUR + 59 * 60 * SECOND + 59 * SECOND);
      if now % DAY >= 23 * HOUR {
        at := at + DAY;
      }
      var pendingCount := PendingCount(device);
      if pendingCount > 0 {
        if now % DAY < 23 * HOUR {
          return;
        }
        CancelScheduledTasksForDevice(device);
      }
      ScheduleTask(device, at, now, id);
    }

    method CompleteTask(id: string)
      requires id in tasks
      modifies this
      ensures tasks == old(tasks)[id := old(tasks)[id].(status := Completed)]
    {
      tasks := tasks[id := tasks[id].(status := Completed)];
    }

    method UpdateTaskError(id: string)
      requires id in tasks
      modifies this
      ensures tasks == old(tasks)[id := Attempt(old(tasks)[id], false)]
    {
      var t := tasks[id].(errors := tasks[id].errors + 1);
      if t.errors >= MAX_ERRORS {
        t := t.(status := Error);
      }
      tasks := tasks[id := t];
    }

    /** One processor pass: the due tasks are fetched once and handled one by one. */
    method Process(now: int, renewed: set<string>)
      modifies this
      ensures tasks == Pass(old(tasks), now, renewed)
    {
      var due := set id | id in tasks && Due(tasks[id], now);
      var todo := due;
      while todo != {}
        invariant todo <= due <= tasks.Keys && tasks.Keys == old(tasks).Keys
        invariant forall id :: id in tasks ==>
                    tasks[id] == if id in due && id !in todo then Attempt(old(tasks)[id], id in renewed) else old(tasks)[id]
      {
        var id :| id in todo;
        if id in renewed {
          CompleteTask(id);
        } else {
          UpdateTaskError(id);
        }
        todo := todo - {id};
      }
    }

    method PurgeCompleted(cutoff: int)
      modifies this
      ensures tasks == Purge(old(tasks), cutoff)
    {
      tasks := map id | id in tasks && !(tasks[id].status == Completed && tasks[id].created < cutoff) :: tasks[id];
    }

    /** A manual renewal: None of its steps runs when the remote renewal fails. */
    method Renew(device: string, renewed: bool) returns (ok: bool)
      modifies this
      ensures ok == renewed
      ensures tasks == if renewed then CancelPending(old(tasks), device) else old(tasks)
    {
      if !renewed {
        return false;
      }
      CancelScheduledTasksForDevice(device);
      return true;
    }
  }
}
