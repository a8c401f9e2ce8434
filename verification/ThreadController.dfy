/** Nested Run() and DoWork() calls of ThreadControllerWithMessagePumpImpl
    (base/task/sequence_manager/thread_controller_with_message_pump_impl.cc). */
module ThreadController {
  import opened Wrappers

  /** Microseconds; 0 is the null value. */
  type Ticks = int

  const MAX: Ticks := 0x7FFF_FFFF_FFFF_FFFF

  /** What happens on the thread, as a tree: the body of a task, of a message handler or of the pump's Run().
      Each DoWork() lists the tasks its batch would select. */
  datatype Step =
    | Run(allowTasks: bool, quitAfter: Ticks, body: seq<Step>)
    | DoWork(tasks: seq<Task>, after: Outlook)
    | SetAllowed(allowed: bool)
    | Quit

  datatype Task = Task(body: seq<Step>)

  /** What DoWork() learns after its batch: the pending wake-up, whether work was requested meanwhile, the time. */
  datatype Outlook = Outlook(pending: Option<Ticks>, requested: bool, now: Ticks)

  /** The history of one thread. */
  datatype Mark = Begin(task: nat) | End(task: nat) | Grant

  /** The tasks that are on the stack after `log`. */
  function OnStack(log: seq<Mark>): set<nat> {
    if log == [] then {} else
    Change(OnStack(log[..|log| - 1]), log[|log| - 1])
  }

  function Change(stack: set<nat>, m: Mark): set<nat> {
    match m
    case Begin(t) => stack + {t}
    case End(t) => stack - {t}
    case Grant => stack
  }

  ghost predicate GrantBetween(log: seq<Mark>, i: int, j: int)
    requires 0 <= i <= j <= |log|
  {
    exists k :: i < k < j && log[k] == Grant
  }

  /** A task only begins on top of another one after somebody allowed it since that one began. */
  ghost predicate Separated(log: seq<Mark>) {
    forall i, j {:trigger log[i], OnStack(log[..j])} ::
      0 <= i < j < |log| && log[i].Begin? && log[j].Begin? && log[i].task in OnStack(log[..j]) ==>
        GrantBetween(log, i, j)
  }

  /** Every task on the stack has been followed by a grant. */
  ghost predicate Granted(log: seq<Mark>) {
    forall i :: 0 <= i < |log| && log[i].Begin? && log[i].task in OnStack(log) ==> GrantBetween(log, i, |log|)
  }

  /** Task numbers are used once, in order. */
  ghost predicate Numbered(log: seq<Mark>, next: nat) {
    && (forall i :: 0 <= i < |log| && log[i].Begin? ==> log[i].task < next)
    && (forall t :: t in OnStack(log) ==> t < next)
  }

  lemma OneMore(log: seq<Mark>, m: Mark)
    ensures OnStack(log + [m]) == Change(OnStack(log), m)
  {
    assert (log + [m])[..|log|] == log;
  }

  lemma PrefixOf(log: seq<Mark>, m: Mark, j: nat)
    requires j <= |log|
    ensures (log + [m])[..j] == log[..j]
  {
  }

  lemma BeginKeeps(log: seq<Mark>, t: nat)
    requires Separated(log) && Granted(log)
    ensures Separated(log + [Begin(t)])
  {
    var all := log + [Begin(t)];
    forall i, j | 0 <= i < j < |all| && all[i].Begin? && all[j].Begin? && all[i].task in OnStack(all[..j])
      ensures GrantBetween(all, i, j)
    {
      PrefixOf(log, Begin(t), j);
      if j < |log| {
        assert log[i].Begin? && log[j].Begin?;
        assert GrantBetween(log, i, j);
        var k :| i < k < j && log[k] == Grant;
        assert all[k] == Grant;
      } else {
        assert log[..j] == log && log[i].Begin?;
        var k :| i < k < |log| && log[k] == Grant;
        assert all[k] == Grant;
      }
    }
  }

  lemma BeginNoted(log: seq<Mark>, t: nat)
    requires Separated(log) && Granted(log) && Numbered(log, t)
    ensures Separated(log + [Begin(t)]) && Numbered(log + [Begin(t)], t + 1)
    ensures OnStack(log + [Begin(t)]) == OnStack(log) + {t}
  {
    OneMore(log, Begin(t));
    BeginKeeps(log, t);
  }

  lemma OtherKeeps(log: seq<Mark>, m: Mark)
    requires Separated(log) && !m.Begin?
    ensures Separated(log + [m])
  {
    var all := log + [m];
    forall i, j | 0 <= i < j < |all| && all[i].Begin? && all[j].Begin? && all[i].task in OnStack(all[..j])
      ensures GrantBetween(all, i, j)
    {
      PrefixOf(log, m, j);
      assert log[i].Begin? && log[j].Begin?;
      var k :| i < k < j && log[k] == Grant;
      assert all[k] == Grant;
    }
  }

  lemma GrantGrants(log: seq<Mark>)
    ensures Granted(log + [Grant])
  {
    assert (log + [Grant])[|log|] == Grant;
  }

  /** Whoever was followed by a grant still is: what came on top of it is gone again. */
  lemma StillGranted(log: seq<Mark>, later: seq<Mark>)
    requires Granted(log) && |log| <= |later| && later[..|log|] == log && OnStack(later) <= OnStack(log)
    requires forall i :: |log| <= i < |later| && later[i].Begin? ==> later[i].task !in OnStack(log)
    ensures Granted(later)
  {
    forall i | 0 <= i < |later| && later[i].Begin? && later[i].task in OnStack(later)
      ensures GrantBetween(later, i, |later|)
    {
      assert i < |log| && log[i] == later[i];
      var k :| i < k < |log| && log[k] == Grant;
      assert later[k] == Grant;
    }
  }

  // ----- What a tree of events comes to -----

  /** task_execution_allowed, quit_pending, and how many tasks have begun. */
  datatype Effect = Effect(allowed: bool, quitPending: bool, begun: nat)

  function After(e: Effect, steps: seq<Step>): Effect
    decreases steps, 0
  {
    if steps == [] then e else After(AfterStep(e, steps[0]), steps[1..])
  }

  function AfterStep(e: Effect, s: Step): Effect
    decreases s, 0
  {
    match s
    case Run(allowTasks, _, body) => AfterRun(e, allowTasks, body)
    case DoWork(tasks, _) => if e.allowed then AfterTasks(e, tasks) else e
    case SetAllowed(value) => e.(allowed := value)
    case Quit => e.(quitPending := true)
  }

  function AfterRun(e: Effect, allowTasks: bool, body: seq<Step>): Effect
    decreases body, 1
  {
    var end := After(Effect(e.allowed || allowTasks, false, e.begun), body);
    Effect(if allowTasks && !e.allowed then false else end.allowed, false, end.begun)
  }

  function AfterTask(e: Effect, body: seq<Step>): Effect
    decreases body, 1
  {
    After(Effect(false, e.quitPending, e.begun + 1), body).(allowed := e.allowed)
  }

  function AfterTasks(e: Effect, tasks: seq<Task>): Effect
    decreases tasks, 0
  {
    if tasks == [] then e else
    var f := AfterTask(e, tasks[0].body);
    if f.quitPending then f else AfterTasks(f, tasks[1..])
  }

  // ----- Deadlines -----

  const DAY: Ticks := 86_400_000_000

  function CapAtOneDay(time: Ticks, now: Ticks): Ticks {
    if time < now + DAY then time else now + DAY
  }

  /** The wake-up DoWorkImpl() reports. */
  function WakeUp(allowed: bool, quitPending: bool, quitAfter: Ticks, pending: Option<Ticks>): Option<Ticks> {
    if !allowed then (if quitAfter == MAX then None else Some(quitAfter))
    else if quitPending then None
    else pending
  }

  /** The time DoWork() asks to be called again at: 0 is at once, MAX is never. */
  function Deadline(wake: Option<Ticks>, requested: bool, quitAfter: Ticks, now: Ticks): Ticks {
    if requested || wake == Some(0) then 0
    else if wake.None? then MAX
    else if wake.value > quitAfter && now >= quitAfter then MAX
    else CapAtOneDay(if wake.value > quitAfter then quitAfter else wake.value, now)
  }

  /** `t` is the least of some times. */
  ghost predicate Earliest(t: Ticks, times: set<Ticks>) {
    t in times && forall u :: u in times ==> t <= u
  }

  class Controller {
    var allowed: bool
    var quitAfter: Ticks
    var quitPending: bool
    ghost var log: seq<Mark>
    ghost var next: nat
    ghost var runs: seq<Ticks>     // when each Run() on the stack ends

    constructor ()
      ensures allowed && !quitPending && log == [] && next == 0 && runs == [] && Valid()
    {
      allowed, quitAfter, quitPending, log, next, runs := true, MAX, false, [], 0, [];
    }

    ghost function Now(): Effect
      reads this
    {
      Effect(allowed, quitPending, next)
    }

    ghost predicate Valid()
      reads this
    {
      && Separated(log) && Numbered(log, next) && (allowed ==> Granted(log))
      && quitAfter == if runs == [] then MAX else runs[|runs| - 1]
    }

    /** The log grew, and the tasks that began meanwhile have ended. */
    ghost predicate Unwound(before: seq<Mark>, was: nat)
      reads this
    {
      && was <= next
      && |before| <= |log| && log[..|before|] == before && OnStack(log) == OnStack(before)
      && forall i :: |before| <= i < |log| && log[i].Begin? ==> was <= log[i].task
    }

    ghost method Note(m: Mark)
      requires !m.Begin? && Separated(log) && Numbered(log, next)
      modifies this`log
      ensures log == old(log) + [m] && OnStack(log) == Change(OnStack(old(log)), m)
      ensures Separated(log) && Numbered(log, next) && (m == Grant ==> Granted(log))
    {
      OneMore(log, m);
      OtherKeeps(log, m);
      if m == Grant { GrantGrants(log); }
      log := log + [m];
    }

    ghost method NoteBegin()
      requires Separated(log) && Granted(log) && Numbered(log, next)
      modifies this`log, this`next
      ensures log == old(log) + [Begin(old(next))] && next == old(next) + 1
      ensures Separated(log) && Numbered(log, next) && OnStack(log) == OnStack(old(log)) + {old(next)}
    {
      BeginNoted(log, next);
      log, next := log + [Begin(next)], next + 1;
    }

    /** What happens on the thread, in order. */
    method Execute(steps: seq<Step>)
      requires Valid()
      modifies this
      ensures Valid() && Unwound(old(log), old(next)) && runs == old(runs)
      ensures Now() == After(old(Now()), steps)
      decreases steps, 0
    {
      for i := 0 to |steps|
        invariant Valid() && Unwound(old(log), old(next)) && runs == old(runs)
        invariant After(Now(), steps[i..]) == After(old(Now()), steps)
      {
        assert steps[i..][1..] == steps[i + 1..];
        Perform(steps[i]);
      }
    }

    method Perform(s: Step)
      requires Valid()
      modifies this
      ensures Valid() && Unwound(old(log), old(next)) && runs == old(runs)
      ensures Now() == AfterStep(old(Now()), s)
      decreases s, 0
    {
      match s
      case Run(allowTasks, after, body) =>
        RunLoop(allowTasks, after, body);
      case DoWork(tasks, after) =>
        var info := Work(tasks, after);
      case SetAllowed(value) =>
        allowed := value;
        if value { Note(Grant); }
      case Quit =>
        quitPending := true;
    }

    /** The branch of Run() that has to grant the permission. */
    method ExecuteGranted(body: seq<Step>)
      requires Valid() && !allowed
      modifies this
      ensures Valid() && Unwound(old(log), old(next)) && runs == old(runs)
      ensures Now() == After(old(Now()).(allowed := true), body).(allowed := false)
      decreases body, 1
    {
      allowed := true;
      Note(Grant);
      Execute(body);
      allowed := false;
    }

    /** Run(). */
    method RunLoop(allowTasks: bool, after: Ticks, body: seq<Step>)
      requires Valid()
      modifies this
      ensures Valid() && Unwound(old(log), old(next)) && runs == old(runs)
      ensures Now() == AfterRun(old(Now()), allowTasks, body)
      decreases body, 2
    {
      var saved := quitAfter;
      quitAfter, runs := after, runs + [after];
      quitPending := false;
      if allowTasks && !allowed {
        ExecuteGranted(body);
      } else {
        Execute(body);
      }
      quitPending := false;
      quitAfter, runs := saved, runs[..|runs| - 1];
    }

    /** DoWorkImpl()'s loop.  The batch ends after a task that leaves a quit pending. */
    method Batch(tasks: seq<Task>)
      requires Valid() && allowed
      modifies this
      ensures Valid() && Unwound(old(log), old(next)) && runs == old(runs)
      ensures Now() == AfterTasks(old(Now()), tasks)
      decreases tasks, 0
    {
      for i := 0 to |tasks|
        invariant Valid() && Unwound(old(log), old(next)) && runs == old(runs) && allowed
        invariant AfterTasks(Now(), tasks[i..]) == AfterTasks(old(Now()), tasks)
      {
        assert tasks[i..][1..] == tasks[i + 1..];
        RunTask(tasks[i].body);
        if quitPending {
          break;
        }
      }
    }

    /** DoWork(): what the pump is told. */
    method Work(tasks: seq<Task>, after: Outlook) returns (info: Ticks)
      requires Valid()
      modifies this
      ensures Valid() && Unwound(old(log), old(next)) && runs == old(runs)
      ensures Now() == if old(allowed) then AfterTasks(old(Now()), tasks) else old(Now())
      ensures allowed == old(allowed)
      ensures info == Deadline(WakeUp(allowed, quitPending, quitAfter, after.pending), after.requested, quitAfter,
                               after.now)
      ensures after.requested ==> info == 0
      ensures !after.requested && !allowed ==>
                if quitAfter == MAX then info == MAX
                else if quitAfter == 0 then info == 0
                else Earliest(info, {quitAfter, after.now + 86_400_000_000})
      ensures !after.requested && allowed && quitPending ==> info == MAX
      ensures !after.requested && allowed && !quitPending ==>
                if after.pending.None? || (quitAfter < after.pending.value && quitAfter <= after.now) then
                  info == if after.pending == Some(0) then 0 else MAX
                else if after.pending == Some(0) then info == 0
                else Earliest(info, {after.pending.value, quitAfter, after.now + 86_400_000_000})
      decreases tasks, 1
    {
      var wake;
      TasksKeepPermission(Now(), tasks);
      if !allowed {
        wake := if quitAfter == MAX then None else Some(quitAfter);
      } else {
        Batch(tasks);
        wake := if quitPending then None else after.pending;
      }
      if after.requested || wake == Some(0) {
        return 0;
      }
      if wake.None? {
        return MAX;
      }
      var time := wake.value;
      if time > quitAfter {
        time := quitAfter;
        if after.now >= quitAfter {
          return MAX;
        }
      }
      info := CapAtOneDay(time, after.now);
    }

    /** A task runs with task execution disallowed, which is undone whatever the task did. */
    method RunTask(body: seq<Step>)
      requires Valid() && allowed
      modifies this
      ensures Valid() && Unwound(old(log), old(next)) && runs == old(runs) && allowed
      ensures Now() == AfterTask(old(Now()), body)
      ensures |log| > |old(log)| && log[|old(log)|] == Begin(old(next))
      decreases body, 1
    {
      ghost var task := next;
      var saved := allowed;
      allowed := false;
      NoteBegin();
      Execute(body);
      Note(End(task));
      StillGranted(old(log), log);
      allowed := saved;
    }
  }

  // ----- The permission and the quit flag -----

  /** A batch leaves the permission as it found it, whatever its tasks do. */
  lemma {:induction false} TasksKeepPermission(e: Effect, tasks: seq<Task>)
    ensures AfterTasks(e, tasks).allowed == e.allowed
    decreases |tasks|
  {
    if tasks == [] {
    } else {
      TasksKeepPermission(AfterTask(e, tasks[0].body), tasks[1..]);
    }
  }

  /** What the last SetTaskExecutionAllowed() in `steps` sets, apart from those in tasks and in a Run() that has to
      grant the permission. */
  function LastChange(allowed: bool, steps: seq<Step>): Option<bool>
    decreases steps
  {
    if steps == [] then None else
    var before := LastChange(allowed, steps[..|steps| - 1]);
    match steps[|steps| - 1]
    case SetAllowed(value) => Some(value)
    case Run(allowTasks, _, body) =>
      var was := Latest(allowed, before);
      if allowTasks && !was then before
      else if LastChange(was, body).Some? then LastChange(was, body)
      else before
    case _ => before
  }

  function Latest(allowed: bool, change: Option<bool>): bool {
    if change.Some? then change.value else allowed
  }

  lemma {:induction false} AfterLast(e: Effect, steps: seq<Step>, s: Step)
    ensures After(e, steps + [s]) == AfterStep(After(e, steps), s)
    decreases |steps|
  {
    if steps == [] {
      assert steps + [s] == [s] && [s][1..] == [];
    } else {
      AfterLast(AfterStep(e, steps[0]), steps[1..], s);
      assert (steps + [s])[1..] == steps[1..] + [s];
    }
  }

  /** Only that change is left of everything that happens. */
  lemma {:induction false} LastChangeDecides(e: Effect, steps: seq<Step>)
    ensures After(e, steps).allowed == Latest(e.allowed, LastChange(e.allowed, steps))
    decreases steps, 0
  {
    if steps == [] {
    } else {
      var front, last := steps[..|steps| - 1], steps[|steps| - 1];
      assert steps == front + [last];
      AfterLast(e, front, last);
      LastChangeDecides(e, front);
      match last
      case Run(allowTasks, _, body) =>
        var was := After(e, front);
        LastChangeDecides(Effect(was.allowed || allowTasks, false, was.begun), body);
      case DoWork(tasks, _) => TasksKeepPermission(After(e, front), tasks);
      case SetAllowed(_) =>
      case Quit =>
    }
  }

  /** After Run() the permission is what was set last, or withdrawn again if Run() had to grant it. */
  lemma LastChangeStays(e: Effect, allowTasks: bool, body: seq<Step>)
    ensures AfterRun(e, allowTasks, body).allowed ==
            if allowTasks && !e.allowed then false else Latest(e.allowed, LastChange(e.allowed, body))
  {
    LastChangeDecides(Effect(e.allowed || allowTasks, false, e.begun), body);
  }

  /** Run() leaves the permission as it found it exactly if it had to grant it, or nothing set it to something else
      last. */
  lemma RunRestores(e: Effect, allowTasks: bool, body: seq<Step>)
    ensures AfterRun(e, allowTasks, body).allowed == e.allowed
            <==> || (allowTasks && !e.allowed)
                 || LastChange(e.allowed, body) == None
                 || LastChange(e.allowed, body) == Some(e.allowed)
  {
    LastChangeStays(e, allowTasks, body);
  }

  /** No SetTaskExecutionAllowed() outside the tasks. */
  predicate Steady(steps: seq<Step>)
    decreases steps
  {
    forall i :: 0 <= i < |steps| ==> !steps[i].SetAllowed? && (steps[i].Run? ==> Steady(steps[i].body))
  }

  /** Then whatever runs leaves the permission as it found it. */
  lemma {:induction false} SteadyKeeps(e: Effect, steps: seq<Step>)
    requires Steady(steps)
    ensures LastChange(e.allowed, steps) == None && After(e, steps).allowed == e.allowed
    decreases steps
  {
    LastChangeDecides(e, steps);
    if steps == [] {
    } else {
      SteadyKeeps(e, steps[..|steps| - 1]);
      var last := steps[|steps| - 1];
      if last.Run? { SteadyKeeps(e, last.body); }
    }
  }

  // ----- When a quit is pending -----

  /** The permission when `steps[i]` happens. */
  function AllowedAt(allowed: bool, steps: seq<Step>, i: nat): bool
    requires i <= |steps|
  {
    Latest(allowed, LastChange(allowed, steps[..i]))
  }

  /** A quit is pending after the step whatever was before: Quit(), or a DoWork() one of whose tasks leaves one. */
  ghost predicate Raises(allowed: bool, s: Step)
    decreases s
  {
    match s
    case Quit => true
    case DoWork(tasks, _) => allowed && exists k :: 0 <= k < |tasks| && LeavesQuit(false, tasks[k].body)
    case _ => false
  }

  /** A pending quit is forgotten: by a Run(), or by a DoWork() whose first task forgets it if none leaves another. */
  ghost predicate Clears(allowed: bool, s: Step)
    decreases s
  {
    match s
    case Run(_, _, _) => true
    case DoWork(tasks, _) =>
      && allowed && tasks != [] && !Spares(false, tasks[0].body, 0)
      && forall k :: 0 <= k < |tasks| ==> !LeavesQuit(false, tasks[k].body)
    case _ => false
  }

  /** No step from the one numbered `from` on forgets a pending quit. */
  ghost predicate Spares(allowed: bool, steps: seq<Step>, from: nat)
    decreases steps, 0
  {
    forall j :: from <= j < |steps| ==> !Clears(AllowedAt(allowed, steps, j), steps[j])
  }

  /** Some step raises a quit that no later one forgets. */
  ghost predicate LeavesQuit(allowed: bool, steps: seq<Step>)
    decreases steps, 1
  {
    exists i :: 0 <= i < |steps| && Raises(AllowedAt(allowed, steps, i), steps[i]) && Spares(allowed, steps, i + 1)
  }

  /** One step more does not change what happens before it. */
  lemma SameBefore(allowed: bool, front: seq<Step>, s: Step)
    ensures forall i :: 0 <= i <= |front| ==> AllowedAt(allowed, front + [s], i) == AllowedAt(allowed, front, i)
    ensures AllowedAt(allowed, front, |front|) == Latest(allowed, LastChange(allowed, front))
  {
    assert forall i :: 0 <= i <= |front| ==> (front + [s])[..i] == front[..i];
    assert front[..|front|] == front;
  }

  lemma SparesMore(allowed: bool, front: seq<Step>, s: Step, from: nat)
    requires from <= |front|
    ensures Spares(allowed, front + [s], from)
            <==> Spares(allowed, front, from) && !Clears(AllowedAt(allowed, front, |front|), s)
  {
    var steps, n := front + [s], |front|;
    SameBefore(allowed, front, s);
    assert steps[n] == s;
    if Spares(allowed, steps, from) {
      assert !Clears(AllowedAt(allowed, steps, n), steps[n]);
      forall j | from <= j < n ensures !Clears(AllowedAt(allowed, front, j), front[j]) {
        assert !Clears(AllowedAt(allowed, steps, j), steps[j]);
      }
    }
  }

  lemma LeavesQuitMore(allowed: bool, front: seq<Step>, s: Step)
    ensures var at := AllowedAt(allowed, front, |front|);
            LeavesQuit(allowed, front + [s]) <==> Raises(at, s) || (LeavesQuit(allowed, front) && !Clears(at, s))
  {
    var steps, n := front + [s], |front|;
    SameBefore(allowed, front, s);
    assert steps[n] == s;
    if LeavesQuit(allowed, front) && !Clears(AllowedAt(allowed, front, n), s) {
      var i :| 0 <= i < n && Raises(AllowedAt(allowed, front, i), front[i]) && Spares(allowed, front, i + 1);
      SparesMore(allowed, front, s, i + 1);
      assert Raises(AllowedAt(allowed, steps, i), steps[i]);
    }
    if Raises(AllowedAt(allowed, front, n), s) {
      assert Raises(AllowedAt(allowed, steps, n), steps[n]) && Spares(allowed, steps, n + 1);
    }
    if LeavesQuit(allowed, steps) {
      var i :| 0 <= i <= n && Raises(AllowedAt(allowed, steps, i), steps[i]) && Spares(allowed, steps, i + 1);
      if i < n {
        SparesMore(allowed, front, s, i + 1);
        assert Raises(AllowedAt(allowed, front, i), front[i]);
      }
    }
  }

  /** A quit is pending in the end exactly if some step raised it, or it was pending before, and nothing that came later
      made it forgotten. */
  lemma {:induction false} QuitPendingExactly(e: Effect, steps: seq<Step>)
    ensures After(e, steps).quitPending
            <==> LeavesQuit(e.allowed, steps) || (e.quitPending && Spares(e.allowed, steps, 0))
    decreases steps, 1
  {
    if steps == [] {
    } else {
      var front, last := steps[..|steps| - 1], steps[|steps| - 1];
      assert steps == front + [last];
      AfterLast(e, front, last);
      LastChangeDecides(e, front);
      SameBefore(e.allowed, front, last);
      SparesMore(e.allowed, front, last, 0);
      LeavesQuitMore(e.allowed, front, last);
      QuitPendingExactly(e, front);
      if last.DoWork? { BatchQuitsExactly(After(e, front), last.tasks); }
    }
  }

  /** A batch leaves a quit pending exactly if one of its tasks does, or the first one spares one that was pending. */
  lemma {:induction false} BatchQuitsExactly(e: Effect, tasks: seq<Task>)
    ensures AfterTasks(e, tasks).quitPending
            <==> (exists k :: 0 <= k < |tasks| && LeavesQuit(false, tasks[k].body))
                 || (e.quitPending && (tasks != [] ==> Spares(false, tasks[0].body, 0)))
    decreases tasks, 0
  {
    if tasks == [] {
    } else {
      QuitPendingExactly(Effect(false, e.quitPending, e.begun + 1), tasks[0].body);
      var f, rest := AfterTask(e, tasks[0].body), tasks[1..];
      if !f.quitPending {
        BatchQuitsExactly(f, rest);
        if exists k :: 0 <= k < |rest| && LeavesQuit(false, rest[k].body) {
          var k :| 0 <= k < |rest| && LeavesQuit(false, rest[k].body);
          assert LeavesQuit(false, tasks[k + 1].body);
        }
        if exists k :: 0 <= k < |tasks| && LeavesQuit(false, tasks[k].body) {
          var k :| 0 <= k < |tasks| && LeavesQuit(false, tasks[k].body);
          assert k > 0 && LeavesQuit(false, rest[k - 1].body);
        }
      }
    }
  }

  /** A batch ends with a task exactly if the task leaves a quit of its own, or spares one that was pending. */
  lemma QuitEndsBatch(e: Effect, task: Task, rest: seq<Task>)
    ensures var f := AfterTask(e, task.body);
            AfterTasks(e, [task] + rest) ==
              if LeavesQuit(false, task.body) || (e.quitPending && Spares(false, task.body, 0)) then f
              else AfterTasks(f, rest)
  {
    QuitPendingExactly(Effect(false, e.quitPending, e.begun + 1), task.body);
    assert ([task] + rest)[1..] == rest;
  }

  /** For a task that calls no DoWork() itself: it leaves its quit exactly if no Run() follows the Quit(). */
  lemma QuitThenRun(allowed: bool, body: seq<Step>)
    requires forall i :: 0 <= i < |body| ==> !body[i].DoWork?
    ensures LeavesQuit(allowed, body)
            <==> exists i :: 0 <= i < |body| && body[i].Quit? && forall j :: i < j < |body| ==> !body[j].Run?
  {
    if LeavesQuit(allowed, body) {
      var i :| 0 <= i < |body| && Raises(AllowedAt(allowed, body, i), body[i]) && Spares(allowed, body, i + 1);
      assert body[i].Quit?;
      forall j | i < j < |body| ensures !body[j].Run? {
        assert !Clears(AllowedAt(allowed, body, j), body[j]);
      }
    }
    if i :| 0 <= i < |body| && body[i].Quit? && forall j :: i < j < |body| ==> !body[j].Run? {
      assert Raises(AllowedAt(allowed, body, i), body[i]) && Spares(allowed, body, i + 1);
    }
  }

  /** A deadline is the earliest of the wake-up, the end of the run and a day from now; it is never only when
      nothing is pending or the run is over. */
  lemma DeadlineBounds(wake: Option<Ticks>, requested: bool, quitAfter: Ticks, now: Ticks)
    requires 0 < now && now + DAY < MAX && 0 < quitAfter <= MAX && (wake.Some? ==> 0 <= wake.value < MAX)
    ensures var d := Deadline(wake, requested, quitAfter, now);
            && (d == 0 <==> requested || wake == Some(0))
            && (d == MAX <==> !requested && (wake.None? || (wake.value > quitAfter && now >= quitAfter)))
            && (d != 0 && d != MAX ==>
                  && d <= now + DAY && d <= quitAfter && d <= wake.value
                  && (d == now + DAY || d == quitAfter || d == wake.value))
  {
  }
}
