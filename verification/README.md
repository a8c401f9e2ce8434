# Verification of the browser's hand-written state machines

A set of Dafny modules that model, and prove properties of, those parts of this Chromium-based browser whose meaning can
be stated without the operating system: the Windows message pump and the thread controller above it, the native window
occlusion calculator, the command-line parser, the commit state of a renderer frame, the DevTools window, and the
experiment metrics codec.  `dafny verify dfyconfig.toml` checks everything.

What the operating system, scripts, other threads and code outside a module do is a parameter: an action of a transition
system, an event of a history, an answer in a sequence, or a function.  Every statement is for all of them.

## Modules

- `PumpProtocol`, `PumpInvariants`, `PumpTheorems`, `PumpSteps`, `PumpNativeFlag`, `PumpDeadline`, `PumpQuit`,
  `PumpTurns`: `MessagePumpForUI` (`message_pump_win.cc`) as a transition system.  Other threads are inside `ScheduleWork()`; the UI thread has a stack
  of run loops, message handlers, replacement peeks and code outside the pump, so native modal loops and `Run()` may
  nest in any order; posts and timers may fail; a peek
  returns any queued message and may run a sent one.  `NextCaller` and `NextSchedule` are `ScheduleWork()` (234-262),
  `NextTimer` is `ScheduleNativeTimer()` (574-641), `PeekReplacement` to `NextReplace` are
  `ProcessPumpReplacementMessage()` (752-831), `BeginHandleWork` to `NextHandler` the two handlers (512-572),
  `PeekMessage` to `NextLoop` one iteration of `DoRunLoop()` with the wait (404-510), `EnterHostStep`, `EnterRun` and
  `LeaveConnect` the entries and `ConnectMsgLoop()` (128-225, 80-89, 339-341), `ReturnToPump` and `ReturnFromWork` the
  returns into the pump.
- `Sleep`: `GetSleepTimeoutMs()` and `WaitForWork()`, tied to the deadlines of `ThreadController`.
- `RunLoop`: the stock branch of `DoRunLoop()`, the branch added for a WebRT delegate, and
  `OnProcessNextWindowsMessage()`.
- `ThreadController`: nested `Run()` and `DoWork()` of `ThreadControllerWithMessagePumpImpl`.
- `Occlusion`, `EventHooks`: `WindowOcclusionCalculator`; a region is the set of its pixels, the hooks are a ledger.
- `CommandLine`, `CommandLineForms`: `TokenizeCommandLineToArray()` and `GetSwitchValueFromCommandLine()`, with the
  quoting they undo and every form an argument may take.
- `NavigationCommit`, `FramePosition`: `AssertNavigationCommits`, `MHTMLBodyLoaderClient` and every step that touches
  them, and `GetFramePosition()`, of `RenderFrameImpl`.
- `DevToolsLifecycle`, `BeforeUnload`: `DevToolsWindow`.
- `MetricsCodec`, `BitFields`, `Base64`: `EncodeMetrics()` and `DecodeMetrics()`.

## What does not hold

Where the code does not do what it is meant to, the code is modelled as it is; the failure is a lemma or method with a
concrete history, and the statement beside it says exactly when the promise is kept.

- A nested `Run()` started from a sent message during the replacement peek can sleep through a `ScheduleWork()`
  (`NestedRunSleepsThroughRequest`, `NoLostWakeup`).
- A `Run()` nested in a native loop leaves that loop without its deadline (`NestedRunStrandsDeadline`,
  `LostExactly`), and the DCHECK that `ScheduleNativeTimer()` runs in a native loop can fail
  (`NativeTimerOutsideNativeLoop`, `NativeTimerCheck`).
- `Quit()` in a sent message that the peek of `WaitForWork()` runs does not end the wait (`QuitDuringWait`,
  `WaitsWhileWanted`).
- In host mode `Run()` may have returned, and reset `run_state_`, before the host hands over a message: nothing looks
  before the dereference at 145 (`HostStepAfterRun`, `HostStepIsSafe`).
- In the WebRT branch `more_work_is_plausible` is a member, which a nested `Run()` overwrites (`NestedRunSkipsIdle`,
  `TurnsDifferExactly`); a host step does not lower `in_native_loop_` first (`HostDispatchesInNativeLoop`,
  `HostFollowsLoop`).
- A task that quits and then runs a nested loop does not end its batch (`QuitEndsBatch`, `QuitPendingExactly`); `Run()`
  does not restore `task_execution_allowed` if the pump changed it outside a task (`RunRestores`).
- `RegisterEventHooks()` leaks hooks if it starts from a non-empty map, and a sequence of calls gets there
  (`RegisterAll`, `MinimizeThenRestore`, `Serve`).  A root window whose `GetWindowRect()` fails counts as occluded.
- A navigation whose history item cannot be prepared fails the CHECK of its own scope (`NothingCommittedExactly`).  An
  archive load accepted on the initial empty document leaves Blink on that document but not the commit state, and the
  first about:blank then fails the CHECK of its synchronous commit (`ArchiveThenBlank`, `MisledExactly`).
- `OnPageCloseCanceled()` does not return when DevTools windows inspect each other in a circle (`CircleNeverEnds`,
  `EndsUnlessLoops`).

## Model

| member | source | states |
|---|---|---|
| `PumpTheorems.TokenIsUnique` | ChromiumSRC/src/base/message_loop/message_pump_win.cc:752-784 | In every interleaving of any number of `ScheduleWork()` callers with the UI thread, `work_scheduled_` is set exactly when one promise to clear it exists (a caller that won the compare-and-swap, a queued `kMsgHaveWork`, or one dequeued and not yet cleared), there are never two, the replacement peeked is never `kMsgHaveWork`, and the flag is set when it is cleared: the DCHECKs at 779 and 783 |
| `PumpTheorems.NoLostWakeup` | ChromiumSRC/src/base/message_loop/message_pump_win.cc:404-510 | For every reachable state in which the UI thread sleeps with a request outstanding that nothing voided: some other thread is about to post the message that ends the sleep, or its post has failed and its next step voids the promise, if and only if no replacement peek is suspended below by a sent message; with a suspended peek no thread is in `ScheduleWork()` at all, without one some thread is |
| `PumpTheorems.TheCallerAnswers` | ChromiumSRC/src/base/message_loop/message_pump_win.cc:234-262 | Asleep with a request outstanding, every thread inside `ScheduleWork()` either ends the sleep by its post or voids the promise by its undo |
| `PumpTheorems.PostWakes` | ChromiumSRC/src/base/message_loop/message_pump_win.cc:458-505 | That post wakes the sleeper, also when `wait_flags` was cleared and messages it has seen are ignored |
| `PumpTheorems.VoidedOnlyBy` | ChromiumSRC/src/base/message_loop/message_pump_win.cc:234-262 | A promise is voided only by a failed post, by a `kMsgHaveWork` handled outside `Run()`, or by a loop that quits |
| `PumpTheorems.NestedRunSleepsThroughRequest` | ChromiumSRC/src/base/message_loop/message_pump_win.cc:764-784 | A reachable run in which the exception happens: a nested `Run()` started by a sent message's handler during the replacement peek sleeps through a request |
| `PumpTheorems.SuspendedCarrier` | ChromiumSRC/src/base/message_loop/message_pump_win.cc:764-776 | On a well-formed stack below the running code, a promise is carried exactly if a replacement peek is suspended there |
| `PumpTheorems.NoStrandedDeadline` | ChromiumSRC/src/base/message_loop/message_pump_win.cc:512-572 | When `HandleWorkMessage()` or an acting `HandleTimerMessage()` is done, and as long as a native loop has control and `in_native_loop_` says so: immediate work implies `work_scheduled_`, and a finite deadline implies it or a timer armed for exactly that deadline, unless an OS call failed |
| `PumpTheorems.NestedRunStrandsDeadline` | ChromiumSRC/src/base/message_loop/message_pump_win.cc:404-450 | Why the flag matters: a reachable run in which a nested `Run()` clears it, kills the timer and quits, and the native loop goes on with its deadline lost |
| `PumpDeadline.LostExactly` | ChromiumSRC/src/base/message_loop/message_pump_win.cc:234-830 | In every reachable state, between two answers about what is wanted next: a deadline or immediate work that is provided for stops being so if and only if the step kills the timer armed for it while `work_scheduled_` is down (a loop after `DoWork()`, or `HandleTimerMessage()` outside `Run()`), or clears `work_scheduled_` while no timer is armed for it (a replacement peek, a failed post, a `kMsgHaveWork` outside `Run()`) |
| `PumpDeadline.SomeStepStrands` | ChromiumSRC/src/base/message_loop/message_pump_win.cc:234-830 | Over runs of any length: what was provided for and no longer is, with nothing asked anew, was stranded by such a step |
| `PumpSteps.ViewStep` | ChromiumSRC/src/base/message_loop/message_pump_win.cc:80-830 | What every action of the whole system does to `in_native_loop_`, `work_scheduled_`, the armed timer, what the last `DoWork()` asked for and `should_quit` of the runs on the stack |
| `PumpTheorems.NativeTimerOutsideNativeLoop` | ChromiumSRC/src/base/message_loop/message_pump_win.cc:574-577 | A reachable run in which the DCHECK of `ScheduleNativeTimer()` fails: `HandleTimerMessage()` runs in a nested `Run()` that cleared `in_native_loop_` |
| `PumpNativeFlag.FlagTellsHistory` | ChromiumSRC/src/base/message_loop/message_pump_win.cc:404-450 | After every run of the pump `in_native_loop_` is up if and only if `HandleWorkMessage()` began in that run and no assignment that lowers the flag was reached since: the start of a loop, the return of `ProcessNextWindowsMessage()` or `DoWork()` to one, or another iteration; a sent message that returns into a peek leaves it up |
| `PumpNativeFlag.NativeTimerCheck` | ChromiumSRC/src/base/message_loop/message_pump_win.cc:574-577 | The DCHECK of `ScheduleNativeTimer()`, reached from one of the two handlers or from `ScheduleDelayedWork()`, holds if and only if that is so, and always when `ScheduleDelayedWork()` is the caller |
| `PumpNativeFlag.FlagStep` | ChromiumSRC/src/base/message_loop/message_pump_win.cc:404-520 | Of all actions of the pump and of code outside it only the beginning of `HandleWorkMessage()` raises the flag, and exactly those that reach such an assignment lower it |
| `PumpTheorems.StaleTimerIgnored` | ChromiumSRC/src/base/message_loop/message_pump_win.cc:542-553 | `HandleTimerMessage()` for a `WM_TIMER` whose timer is not armed does no work and changes nothing but the stack |
| `PumpTheorems.RunStateAndTimer` | ChromiumSRC/src/base/message_loop/message_pump_win.cc:414-441 | In every reachable state `run_state_` is not null in the frames of the loop, the replacement peek and the handlers, the OS timer is armed exactly when `installed_native_timer_` has a value, and idle work starts with the flag down and no timer; the entry of a host step is the subject of `HostStepIsSafe` |
| `PumpTheorems.HostStepIsSafe` | ChromiumSRC/src/base/message_loop/message_pump_win.cc:145 | `OnProcessNextWindowsMessage()` dereferences `run_state_` without looking: it finds one if and only if some `Run()` is on the stack, be it inside `ConnectMsgLoop()` |
| `PumpTheorems.HostStepAfterRun` | ChromiumSRC/src/base/message_loop/message_pump_win.cc:339-341 | A reachable run in which it finds none: `ConnectMsgLoop()` returned in host mode, so `Run()` did too, before the host handed over its first message |
| `PumpTheorems.ReachableKeeps` | ChromiumSRC/src/base/message_loop/message_pump_win.cc:234-830 | Every reachable state satisfies the invariant |
| `PumpInvariants.NextKeeps` | ChromiumSRC/src/base/message_loop/message_pump_win.cc:234-830 | Every action keeps the invariant: one token, well-formed stack with as many run states as `Run()`s, no waiting for seen messages while others are queued, timer recorded as armed, requests and deadlines kept, no wait begun for a run that is to quit; and drops a promise only if it is one of those that may |
| `PumpInvariants.RunKeeps` | ChromiumSRC/src/base/message_loop/message_pump_win.cc:234-830 | Every run, of any length, keeps the invariant |
| `PumpInvariants.CallerKeeps` | ChromiumSRC/src/base/message_loop/message_pump_win.cc:234-262 | Any step of `ScheduleWork()` on another thread (claim, post, undo) keeps the invariant, and only an undo drops a promise |
| `PumpInvariants.SchedulingKeeps` | ChromiumSRC/src/base/message_loop/message_pump_win.cc:234-262 | Any step of `ScheduleWork()` on the UI thread keeps it, and only an undo drops a promise |
| `PumpInvariants.TimingKeeps` | ChromiumSRC/src/base/message_loop/message_pump_win.cc:574-641 | Every branch of `ScheduleNativeTimer()` (already set, never, passed, set, failed) keeps it and drops no promise |
| `PumpInvariants.ReplacementKeeps` | ChromiumSRC/src/base/message_loop/message_pump_win.cc:752-830 | Every step of `ProcessPumpReplacementMessage()` keeps it and drops no promise |
| `PumpInvariants.HandlingKeeps` | ChromiumSRC/src/base/message_loop/message_pump_win.cc:512-572 | Every step of `HandleWorkMessage()` and `HandleTimerMessage()`, inside and outside `Run()`, keeps it; a promise is dropped only by a `kMsgHaveWork` outside `Run()` |
| `PumpInvariants.ReturnFromWorkKeeps` | ChromiumSRC/src/base/message_loop/message_pump_win.cc:531-539 | What the loop and both handlers do with the answer of `DoWork()` keeps it and drops no promise |
| `PumpInvariants.EnterRunKeeps` | ChromiumSRC/src/base/message_loop/message_pump_win.cc:80-89 | Starting a `Run()` from any code outside the pump, one that loops or one that is inside `ConnectMsgLoop()`, keeps it and drops no promise |
| `PumpInvariants.LeaveConnectKeeps` | ChromiumSRC/src/base/message_loop/message_pump_win.cc:339-343 | The return of `ConnectMsgLoop()`, to the loop or in host mode to the end of `Run()`, keeps it and drops no promise |
| `PumpInvariants.ScheduleDelayedKeeps` | ChromiumSRC/src/base/message_loop/message_pump_win.cc:264-287 | `ScheduleDelayedWork()` keeps it and drops no promise, whether or not it sets a native timer |
| `PumpInvariants.HostStepKeeps` | ChromiumSRC/src/base/message_loop/message_pump_win.cc:128-182 | A host that hands over a dequeued message while a run state exists, `kMsgHaveWork` included, keeps it and drops no promise; without one the step has no next state (`HostStepIsSafe`) |
| `PumpInvariants.SpinningKeeps` | ChromiumSRC/src/base/message_loop/message_pump_win.cc:404-510 | Every step of an iteration of the loop, with the wait and its flags, keeps it; a promise is dropped only by a loop that quits |
| `PumpInvariants.SentKeeps` | ChromiumSRC/src/base/message_loop/message_pump_win.cc:494 | A sent message run by any of the three peeks of the pump, that of `WaitForWork()` included, keeps it and drops no promise |
| `PumpQuit.QuitTellsHistory` | ChromiumSRC/src/base/message_loop/message_pump_win.cc:92-96 | After every run of the pump, for every `Run()` on the stack: its `should_quit` is set if and only if `Quit()` was called, or its idle part quit, while it was the innermost one, and it has been on the stack since |
| `PumpQuit.QuitEndsLoop` | ChromiumSRC/src/base/message_loop/message_pump_win.cc:354-450 | Where a loop would call `DoWork()`, act on its answer or go on after idle work, one whose run was asked to end pops its frame instead, and with the frame of `DoRunLoop()` exactly that `Run()` |
| `PumpQuit.NothingMoreBegins` | ChromiumSRC/src/base/message_loop/message_pump_win.cc:354-510 | From the moment its run is asked to end no step of a loop begins another `DoWork()`, idle work or wait; a step either ends it or leaves it in the part it was in |
| `PumpQuit.RunEndsExactly` | ChromiumSRC/src/base/message_loop/message_pump_win.cc:80-96 | A step ends a `Run()` if and only if it is such a step of a loop whose run was asked to end, by a call or by its own idle part, or the return of `ConnectMsgLoop()` in host mode; it ends one, the innermost |
| `PumpQuit.EnclosingKeep` | ChromiumSRC/src/base/message_loop/message_pump_win.cc:80-96 | Whether an enclosing `Run()` was asked to end changes with nothing that happens in the runs above it, their `Quit()` and their end included |
| `PumpQuit.WaitsWhileWanted` | ChromiumSRC/src/base/message_loop/message_pump_win.cc:454-510 | A wait is entered or goes on although the run was asked to end only with `MWMO_INPUTAVAILABLE` dropped, that is, after its own peek found nothing |
| `PumpQuit.QuitDuringWait` | ChromiumSRC/src/base/message_loop/message_pump_win.cc:454-510 | A reachable run in which that happens: the handler of a sent message that the peek of `WaitForWork()` runs calls `Quit()`, and the pump sleeps on without a deadline |
| `PumpTurns.DispatchGoesRound` | ChromiumSRC/src/base/message_loop/message_pump_win.cc:404-450 | After a dispatched message another turn comes, whatever `DoWork()` answers |
| `PumpTurns.ReplacementDecides` | ChromiumSRC/src/base/message_loop/message_pump_win.cc:752-830 | After a `kMsgHaveWork` another turn comes exactly if its replacement was handled, a sent message ran beside it, or `DoWork()` wants one; otherwise the loop begins idle work |
| `PumpTurns.EmptyPeekDecides` | ChromiumSRC/src/base/message_loop/message_pump_win.cc:651-709 | After a peek that finds nothing another turn comes exactly if a sent message ran or `DoWork()` wants one; otherwise the loop begins idle work |
| `Sleep.WaitForWork` | ChromiumSRC/src/base/message_loop/message_pump_win.cc:454-510 | The wait returns only when the deadline passed or a message is there, after the first wait for which that is so; `MWMO_INPUTAVAILABLE` is dropped exactly after a wake-up that found the queue empty; each wait is for the deadline seen from the last reading of the clock |
| `Sleep.TimeoutExpires` | ChromiumSRC/src/base/message_loop/message_pump_win.cc:50-66 | The timeout is zero exactly when a finite deadline has passed |
| `Sleep.SleepBound` | ChromiumSRC/src/base/message_loop/message_pump_win.cc:50-66 | Across files: for every answer of `DoWork()` the timeout is infinite exactly for no deadline, never saturates, is at most a day and exceeds the deadline by less than a millisecond, also that of the run |
| `Sleep.WorkThenSleep` | ChromiumSRC/src/base/message_loop/message_pump_win.cc:50-66 | Across files, case by case: the pump's timeout after a `DoWork()` is zero for work at once, infinite if nothing is pending or the run is over, and otherwise ends, to the millisecond, with the earliest of the wake-up, the end of the run and a day; without permission to run tasks, with the end of the run or a day |
| `RunLoop.HostFollowsLoop` | ChromiumSRC/src/base/message_loop/message_pump_win.cc:128-225 | From any state with the native-loop flag down, a host calling `OnProcessNextWindowsMessage()` reaches, for any number of turns, the state and world of as many turns of the WebRT branch, with 1000 for a break, provided its peek always delivers, no sent message is pending on one side of it only, `DoWork()` runs no nested loop and the idle work and the wait leave the flag down |
| `RunLoop.SideBySide` | ChromiumSRC/src/base/message_loop/message_pump_win.cc:128-225 | The same about the two programs: run on two pumps in equal states they end in equal states, and the host is told to leave exactly if the branch left its loop |
| `RunLoop.RtTurnsKeepFlagDown` | ChromiumSRC/src/base/message_loop/message_pump_win.cc:354-401 | Over any number of turns the flag that is down at the start is down when a turn begins |
| `RunLoop.HostDiffers` | ChromiumSRC/src/base/message_loop/message_pump_win.cc:128-225 | Three worlds in which one of the other conditions fails and the two do not do the same idle work: a silent peek, a sent message pending only before the peek, and a nested `Run()` in `DoWork()` |
| `RunLoop.HostDispatchesInNativeLoop` | ChromiumSRC/src/base/message_loop/message_pump_win.cc:128-180 | A world in which only the wait raises the flag: the host's next message is dispatched with `in_native_loop_` up, which the loop would have lowered |
| `RunLoop.TurnsDifferExactly` | ChromiumSRC/src/base/message_loop/message_pump_win.cc:342-450 | For every state: a turn of the WebRT branch is a turn of the stock branch unless a `Run()` nested in `DoWork()` overwrote `more_work_is_plausible` with what the stock local is not; then one of the two turns ends with work plausible, at the state `DoWork()` left, and the other goes on from there to the idle work and the wait |
| `RunLoop.RtIsStock` | ChromiumSRC/src/base/message_loop/message_pump_win.cc:404-450 | Where no nested `Run()` overwrites the member, the two branches agree for any number of turns, for applications that do not lack a window they need and a WebRT delegate without idle work |
| `RunLoop.NestedRunSkipsIdle` | ChromiumSRC/src/base/message_loop/message_pump_win.cc:354-376 | A world in which a nested `Run()` leaves the member set: the WebRT branch skips the idle work that the stock branch does |
| `RunLoop.StockCalls` | ChromiumSRC/src/base/message_loop/message_pump_win.cc:404-450 | For all answers of the world, the calls a turn of the stock branch makes, in order: a sent message reported by the queue status, a handled message or immediate work means neither idle work nor wait; idle work is done with the flag down and no timer, and the wait comes exactly if that did nothing |
| `RunLoop.RtCalls` | ChromiumSRC/src/base/message_loop/message_pump_win.cc:342-401 | The same for a turn of the WebRT branch, with its exit without a window, its own idle work, and a nested `Run()` that decides for the messages |
| `RunLoop.HostCalls` | ChromiumSRC/src/base/message_loop/message_pump_win.cc:128-225 | The same for a host step that is handed a message; its dispatch finds the flag as the host left it |
| `RunLoop.Pump.StockLoop` | ChromiumSRC/src/base/message_loop/message_pump_win.cc:404-450 | The stock loop performs turns until one breaks, and nothing after it |
| `RunLoop.Pump.RtLoop` | ChromiumSRC/src/base/message_loop/message_pump_win.cc:342-401 | So does the WebRT branch |
| `RunLoop.Pump.HostStep` | ChromiumSRC/src/base/message_loop/message_pump_win.cc:128-225 | `OnProcessNextWindowsMessage()` ends as a turn of the WebRT branch does whose flag is its own |
| `ThreadController.Controller.Execute` | ChromiumSRC/src/base/task/sequence_manager/thread_controller_with_message_pump_impl.cc:373-499 | Over every finite tree of `Run()`, `DoWork()`, `SetTaskExecutionAllowed()` and `Quit()`: any two tasks on the stack are separated by an explicit grant, tasks nest, `quit_runloop_after` is restored, and the permission, the pending quit and the number of tasks begun are what the summary says |
| `ThreadController.Controller.Perform` | ChromiumSRC/src/base/task/sequence_manager/thread_controller_with_message_pump_impl.cc:579-675 | One event of such a tree has the effect the summary says, with the same guarantees |
| `ThreadController.Controller.RunLoop` | ChromiumSRC/src/base/task/sequence_manager/thread_controller_with_message_pump_impl.cc:579-629 | `Run()`, granting or not: the effect of the summary, no quit left pending, `quit_runloop_after` always the end of the innermost `Run()` on the stack, history still separated |
| `ThreadController.Controller.RunTask` | ChromiumSRC/src/base/task/sequence_manager/thread_controller_with_message_pump_impl.cc:433-458 | A task runs with the permission withdrawn and leaves it as it was, whatever it did |
| `ThreadController.Controller.Batch` | ChromiumSRC/src/base/task/sequence_manager/thread_controller_with_message_pump_impl.cc:401-484 | `DoWorkImpl()`'s loop begins tasks until one leaves a quit pending, with the effect of the summary |
| `ThreadController.Controller.Work` | ChromiumSRC/src/base/task/sequence_manager/thread_controller_with_message_pump_impl.cc:294-371 | `DoWork()` leaves the permission as found, runs nothing without it, and answers, case by case: at once if work is requested; without permission the end of the run or a day from now, whichever is earlier, and never only for a run without an end; never if a quit is pending or the run is over; otherwise the earliest of the wake-up, the end of the run and a day from now |
| `ThreadController.TasksKeepPermission` | ChromiumSRC/src/base/task/sequence_manager/thread_controller_with_message_pump_impl.cc:433-435 | A batch leaves `task_execution_allowed` as it found it, whatever its tasks do |
| `ThreadController.RunRestores` | ChromiumSRC/src/base/task/sequence_manager/thread_controller_with_message_pump_impl.cc:579-629 | For every body: `Run()` leaves the permission as it found it if and only if it had to grant it, or the last change outside tasks and outside granting `Run()`s, if there is one, sets the value it had before |
| `ThreadController.LastChangeDecides` | ChromiumSRC/src/base/task/sequence_manager/thread_controller_with_message_pump_impl.cc:433-616 | Of everything that happens in any sequence of events, at any nesting, only that last change is left in the permission |
| `ThreadController.SteadyKeeps` | ChromiumSRC/src/base/task/sequence_manager/thread_controller_with_message_pump_impl.cc:579-629 | Any sequence of events without such a change leaves the permission as it found it |
| `ThreadController.LastChangeStays` | ChromiumSRC/src/base/task/sequence_manager/thread_controller_with_message_pump_impl.cc:602-616 | After any `Run()` the permission is what that change sets, or withdrawn again if `Run()` had to grant it |
| `ThreadController.QuitEndsBatch` | ChromiumSRC/src/base/task/sequence_manager/thread_controller_with_message_pump_impl.cc:477-484 | A batch ends with a task if and only if the task leaves a quit pending of its own, or spares one that was pending before it |
| `ThreadController.QuitPendingExactly` | ChromiumSRC/src/base/task/sequence_manager/thread_controller_with_message_pump_impl.cc:401-629 | After any sequence of events a quit is pending if and only if some `Quit()`, or some `DoWork()` allowed to run a task that leaves one, is followed by nothing that forgets it, or one was pending before and nothing forgets it; a `Run()` forgets it, and so does a `DoWork()` whose first task does and none of whose tasks leaves one |
| `ThreadController.BatchQuitsExactly` | ChromiumSRC/src/base/task/sequence_manager/thread_controller_with_message_pump_impl.cc:401-484 | The same for a batch, over all its tasks |
| `ThreadController.QuitThenRun` | ChromiumSRC/src/base/task/sequence_manager/thread_controller_with_message_pump_impl.cc:579-629 | For events without a `DoWork()`: a quit is left if and only if some `Quit()` is followed by no `Run()` |
| `ThreadController.BeginKeeps` | ChromiumSRC/src/base/task/sequence_manager/thread_controller_with_message_pump_impl.cc:433-435 | A task that begins when all tasks on the stack were followed by a grant keeps the history separated |
| `ThreadController.StillGranted` | ChromiumSRC/src/base/task/sequence_manager/thread_controller_with_message_pump_impl.cc:433-435 | After a task ended, the tasks below it are still followed by a grant, so the permission may be restored |
| `ThreadController.DeadlineBounds` | ChromiumSRC/src/base/task/sequence_manager/thread_controller_with_message_pump_impl.cc:333-370 | The deadline is at once exactly for immediate work, never exactly for no work or a finished run, and otherwise the earliest of the wake-up, the end of the run and a day from now |
| `Occlusion.VerdictSpelledOut` | ChromiumSRC/src/ui/aura/native_window_occlusion_tracker_win.cc:741-821 | For every z-order: an enumerated, undecided, non-moving root window is OCCLUDED exactly when it has no rectangle or every on-screen pixel of it is covered by an occluding, non-moving window ahead; otherwise VISIBLE, and with region calculation on its region is exactly the pixels off screen or covered ahead, relative to its corner |
| `Occlusion.JudgedAtFirst` | ChromiumSRC/src/ui/aura/native_window_occlusion_tracker_win.cc:769-780 | The pass decides a window at its first appearance from the windows ahead of it alone |
| `Occlusion.AnswersRight` | ChromiumSRC/src/ui/aura/native_window_occlusion_tracker_win.cc:579-821 | What the pass decides of a root window, without its definition: HIDDEN if minimized, else OCCLUDED if known to be on another desktop, both with an empty region whatever the z-order; else undecided exactly if it is moving or not enumerated; else the verdict of its first appearance |
| `Occlusion.Calculator.Compute` | ChromiumSRC/src/ui/aura/native_window_occlusion_tracker_win.cc:565-650 | `ComputeNativeWindowOcclusionStatus()`: the same windows stay tracked, each with that answer; the counter is the number still undecided; hooks are dropped only if all are minimized, and otherwise the hooked processes are exactly the owners of occluding windows |
| `Occlusion.Calculator.Enumerate` | ChromiumSRC/src/ui/aura/native_window_occlusion_tracker_win.cc:610-617 | After the enumeration every root has the verdict of the whole z-order, the counter counts the undecided, and the processes of occluding windows are collected and, with an exact ledger, hooked |
| `Occlusion.Calculator.Callback` | ChromiumSRC/src/ui/aura/native_window_occlusion_tracker_win.cc:741-821 | One callback extends that from the windows seen to one more |
| `Occlusion.Calculator.Visit` | ChromiumSRC/src/ui/aura/native_window_occlusion_tracker_win.cc:760-821 | One window more keeps verdicts, counter and uncovered region in step with their definitions; the early exit at zero never changes a verdict |
| `Occlusion.Calculator.Judge` | ChromiumSRC/src/ui/aura/native_window_occlusion_tracker_win.cc:782-820 | The verdict from comparing two regions is the one from intersecting; neither early return after a VISIBLE verdict can be taken |
| `Occlusion.Calculator.Reset` | ChromiumSRC/src/ui/aura/native_window_occlusion_tracker_win.cc:574-606 | Each root starts HIDDEN if minimized, OCCLUDED if known to be on another desktop, UNKNOWN otherwise; the counter counts the UNKNOWN; hooks go exactly if all are minimized |
| `Occlusion.Calculator.HookProcessOf` | ChromiumSRC/src/ui/aura/native_window_occlusion_tracker_win.cc:747-758 | An occluding window's process is hooked unless it is already, and the ledger stays exact |
| `Occlusion.Calculator.MaybeRegister` | ChromiumSRC/src/ui/aura/native_window_occlusion_tracker_win.cc:517-522 | `MaybeRegisterEventHooks()` keeps the ledger exactly when it does nothing or finds nothing recorded that it would overwrite or forget |
| `Occlusion.Calculator.Enable` | ChromiumSRC/src/ui/aura/native_window_occlusion_tracker_win.cc:463-473 | Tracking a window more registers the hooks if there are none, and keeps the ledger exact if the process map is empty then |
| `Occlusion.Calculator.Disable` | ChromiumSRC/src/ui/aura/native_window_occlusion_tracker_win.cc:475-486 | Tracking a window less keeps the ledger exact; with the last one no hook stays installed, and a moving window is forgotten |
| `Occlusion.Serve` | ChromiumSRC/src/ui/aura/native_window_occlusion_tracker_win.cc:459-650 | For every sequence of enabling, disabling, calculating and registering from the constructor: unless some registration comes while a calculation has hooked processes without the global hooks, every installed hook is accounted for at the end; if one does, and no hook failed to install, hooks have leaked or are bound to |
| `Occlusion.OverwrittenExactly` | ChromiumSRC/src/ui/aura/native_window_occlusion_tracker_win.cc:459-650 | A sequence of calls comes to that if and only if one of its calls registers in that phase |
| `Occlusion.ServeOne` | ChromiumSRC/src/ui/aura/native_window_occlusion_tracker_win.cc:459-650 | Each call keeps the tracked windows and the hooks in the phase that the calls so far amount to |
| `Occlusion.Calculator.MinimizeThenRestore` | ChromiumSRC/src/ui/aura/native_window_occlusion_tracker_win.cc:607-643 | A shortest sequence of that kind leaks exactly when a hook was installed |
| `EventHooks.Hooks.RegisterForProcess` | ChromiumSRC/src/ui/aura/native_window_occlusion_tracker_win.cc:672-679 | An overwritten hook leaks, and nothing else does |
| `EventHooks.Hooks.RegisterAll` | ChromiumSRC/src/ui/aura/native_window_occlusion_tracker_win.cc:681-724 | `RegisterEventHooks()` keeps the ledger exact if and only if every recorded process is still visible and its hook is null |
| `EventHooks.Hooks.UnregisterAll` | ChromiumSRC/src/ui/aura/native_window_occlusion_tracker_win.cc:726-739 | Every recorded hook is unhooked once; with an exact ledger none stays installed |
| `EventHooks.Hooks.Prune` | ChromiumSRC/src/ui/aura/native_window_occlusion_tracker_win.cc:618-642 | The end of a calculation unhooks the processes without an occluding window and no others |
| `EventHooks.Hooks.RegisterProcesses` | ChromiumSRC/src/ui/aura/native_window_occlusion_tracker_win.cc:721-723 | What hooking a set of processes forgets is what the map held for them |
| `CommandLine.RoundTrip` | ChromiumSRC/src/chrome/install_static/install_util.cc:745-848 | For every argument list without NULs whose program name is quotable: splitting its quoted and spaced form returns the list, whichever arguments are quoted and however they are spaced |
| `CommandLine.Expressible` | ChromiumSRC/src/chrome/install_static/install_util.cc:775-790 | Program names are the only restriction: a NUL-free list is what some NUL-free line splits into if and only if its first entry has no quote, or no blank and no leading quote |
| `CommandLineForms.LineSplits` | ChromiumSRC/src/chrome/install_static/install_util.cc:745-848 | Every NUL-free line is a program name, blanks and arguments of bare characters, quoted runs and quoted runs ended by a doubled quote, and splits into what these mean: this decides the tokens of all lines |
| `CommandLineForms.LineIsRead` | ChromiumSRC/src/chrome/install_static/install_util.cc:745-848 | Conversely, whatever is written in that way splits into what it means |
| `CommandLineForms.SplitArgument` | ChromiumSRC/src/chrome/install_static/install_util.cc:802-845 | Every argument of every line is written in that way; one whose quote is never closed ends with the line |
| `CommandLineForms.SegmentsAreRead` | ChromiumSRC/src/chrome/install_static/install_util.cc:802-845 | An argument written in that way reads as what it means, wherever its quotes open and close: a doubled quote inside a quoted run is one quote and the text behind it is not quoted |
| `CommandLine.Tokenize` | ChromiumSRC/src/chrome/install_static/install_util.cc:745-848 | The pointer-walking parser returns, for every string, the tokens that `LineSplits` decides, advances strictly and never reads past the terminating NUL |
| `CommandLine.ScanArgument` | ChromiumSRC/src/chrome/install_static/install_util.cc:802-845 | One argument: runs of backslashes counted and halved, protected quotes, the doubled quote, and the position after it |
| `CommandLine.SlashesCounted` | ChromiumSRC/src/chrome/install_static/install_util.cc:806-814 | Counting a run of backslashes is reading them one by one |
| `CommandLine.EscapeIsRead` | ChromiumSRC/src/chrome/install_static/install_util.cc:805-845 | The inside of a quoted argument reads back as the argument, for any characters but NUL |
| `CommandLine.BareIsRead` | ChromiumSRC/src/chrome/install_static/install_util.cc:831-842 | An argument without blanks and quotes, written as it is, reads back as itself, backslashes included |
| `CommandLine.WordsAreRead` | ChromiumSRC/src/chrome/install_static/install_util.cc:794-848 | A sequence of such arguments, separated by any blanks, reads back as the sequence |
| `CommandLine.GetSwitchValue` | ChromiumSRC/src/chrome/install_static/install_util.cc:851-867 | The value of the first argument that assigns to the switch and has no terminator before it, the program name included; nothing otherwise |
| `CommandLine.SwitchRoundTrip` | ChromiumSRC/src/chrome/install_static/install_util.cc:851-867 | A quoted assignment with no terminator and no other assignment before it yields any value whatsoever |
| `NavigationCommit.Life` | ChromiumSRC/src/content/renderer/render_frame_impl.cc:1191-1264 | For every history of a frame, from its constructor, with events nested in attempts: a pending MHTML loader is destroyed only while committing, detached or replaced by another commit, and `DidCommitNavigation()` is only called within an attempt, so those CHECKs never fail; each other CHECK fails if and only if one of the events makes it fail as `FailsAt` tells from the events alone; and a living frame holds a loader exactly if one is pending by the events |
| `NavigationCommit.HistoryExactly` | ChromiumSRC/src/content/renderer/render_frame_impl.cc:1191-1264 | A history from the constructor ends in a failed CHECK if and only if some event of it, reached with the frame alive, makes it fail; told from the events alone, that is an attempt that cannot prepare its history item (an archive's body, only if an accepted archive load is followed by nothing that takes its loader away), a synchronous about:blank after an archive load lied, or a commit whose scripts commit again or go to about:blank where that is synchronous |
| `NavigationCommit.LivesExactly` | ChromiumSRC/src/content/renderer/render_frame_impl.cc:1191-1264 | The frame is alive after a history if and only if no event of it detaches the frame or fails a CHECK, told from the events alone |
| `NavigationCommit.StepExactly` | ChromiumSRC/src/content/renderer/render_frame_impl.cc:2575-2892 | One event makes a CHECK fail if and only if it is such an event |
| `NavigationCommit.MisledExactly` | ChromiumSRC/src/content/renderer/render_frame_impl.cc:5229-5297 | Outside attempts the CHECK of the synchronous about:blank fails if and only if the frame was on the initial empty document from the start, nothing committed, navigated or opened it since, and an archive load was accepted meanwhile |
| `NavigationCommit.BlankExactly` | ChromiumSRC/src/content/renderer/render_frame_impl.cc:5229-5262 | Over every history that leaves the frame alive: an archive loader is pending if and only if an archive load was accepted and no commit, same-document commit, abort or begun navigation came since, nor the end of its body; the guard of the synchronous commit is met if and only if nothing committed, navigated or opened the initial empty document, and then the commit state is still `kInitialEmptyDocument` unless an archive load lied about its commit |
| `NavigationCommit.ArchiveThenBlank` | ChromiumSRC/src/content/renderer/render_frame_impl.cc:2751-2771 | The shortest such history: an archive load on the initial empty document, then about:blank |
| `NavigationCommit.InsideEnds` | ChromiumSRC/src/content/renderer/render_frame_impl.cc:1209-1219 | Scripts that run during an attempt run to their end, or the first event that detaches the frame, asks for another commit or goes to about:blank synchronously decides: the second fails the overlap CHECK, the third the CHECK at 5294 |
| `NavigationCommit.NothingCommittedExactly` | ChromiumSRC/src/content/renderer/render_frame_impl.cc:1200-1207 | A commit scope ends without a commit exactly when its attempt cannot prepare the history item |
| `NavigationCommit.PreparedAttemptsCommit` | ChromiumSRC/src/content/renderer/render_frame_impl.cc:1200-1207 | While history items can be prepared, no scope ends without a commit |
| `NavigationCommit.Frame.PerformAll` | ChromiumSRC/src/content/renderer/render_frame_impl.cc:1200-1219 | For every history of events the frame's methods end in the fate of the summary, with the CHECK that failed if one did, and otherwise settled between commits or gone |
| `NavigationCommit.Frame.Perform` | ChromiumSRC/src/content/renderer/render_frame_impl.cc:5052-5276 | One event at rest leads where the summary says, and so does one within an attempt: nothing, detachment, or a failing CHECK; a synchronous about:blank needs the first navigation on the initial empty document |
| `NavigationCommit.Frame.CommitWithParams` | ChromiumSRC/src/content/renderer/render_frame_impl.cc:2778-2892 | `CommitNavigationWithParams()` drops the pending loader, may fail to prepare the history item, commits, and its caller's scope ends as the summary says |
| `NavigationCommit.Frame.BlinkCommit` | ChromiumSRC/src/content/renderer/render_frame_impl.cc:3688-3694 | Scripts run while unloading and after the commit; in between `DidCommitNavigation()` finds an attempt under way; the outcome is the summary's |
| `NavigationCommit.Frame.EnterScope` | ChromiumSRC/src/content/renderer/render_frame_impl.cc:1209-1219 | The constructor of `AssertNavigationCommits` fails exactly outside the states it allows, and announces the attempt otherwise |
| `NavigationCommit.Frame.LeaveScope` | ChromiumSRC/src/content/renderer/render_frame_impl.cc:1200-1207 | Its destructor fails exactly if the frame lives and nothing was committed, and leaves the frame idle |
| `NavigationCommit.Frame.DropClient` | ChromiumSRC/src/content/renderer/render_frame_impl.cc:1246-1264 | The destructor of the pending loader fails exactly if it is neither committing nor detached and no commit is under way |
| `NavigationCommit.Frame.DetachClient` | ChromiumSRC/src/content/renderer/render_frame_impl.cc:4137-4143 | A loader that is detached first goes without a failing CHECK, in every state |
| `FramePosition.GetFramePosition` | ChromiumSRC/src/content/renderer/render_frame_impl.cc:1416-1437 | Terminates on every frame tree and returns the positions from the frame up, preceded by the child count with the other begin point |
| `FramePosition.PositionInParent` | ChromiumSRC/src/content/renderer/render_frame_impl.cc:1425-1430 | Walking the siblings up to a child, or past the last, counts its position |
| `FramePosition.PathLeadsBack` | ChromiumSRC/src/content/renderer/render_frame_impl.cc:1416-1437 | The list, read from its end, leads from the root to the frame |
| `FramePosition.PositionsDiffer` | ChromiumSRC/src/content/renderer/render_frame_impl.cc:1416-1437 | Two frames of a tree have the same list exactly if they are the same |
| `DevToolsLifecycle.Window.Handle` | ChromiumSRC/src/chrome/browser/devtools/devtools_window.cc:894-975 | Every event has its effect on the stage, the docking, the load and the decision, and keeps: `kLoadCompleted` exactly when the dock decision and the load have both happened, `kClosing` absorbing, one owner of the contents, docked implies self-owned |
| `DevToolsLifecycle.Window.constructor` | ChromiumSRC/src/chrome/browser/devtools/devtools_window.cc:1048-1070 | The window starts docked, owning its contents, and with the dock decision made exactly if it cannot dock |
| `DevToolsLifecycle.Window.Schedule` | ChromiumSRC/src/chrome/browser/devtools/devtools_window.cc:894-908 | `ScheduleShow()` shows at once exactly after the load or for a window that cannot dock, and otherwise remembers the action |
| `DevToolsLifecycle.Window.Show` | ChromiumSRC/src/chrome/browser/devtools/devtools_window.cc:910-975 | `Show()` creates a browser exactly for an open undocked window; its DCHECK fails exactly for a window that cannot dock and still counts as docked |
| `DevToolsLifecycle.Window.CreateDevToolsBrowser` | ChromiumSRC/src/chrome/browser/devtools/devtools_window.cc:1683-1711 | The contents move to the browser, or stay owned if none can be created |
| `DevToolsLifecycle.Window.Dock` | ChromiumSRC/src/chrome/browser/devtools/devtools_window.cc:1487-1531 | `SetIsDocked()` makes the dock decision, keeps single ownership in both directions, and does nothing when closing |
| `DevToolsLifecycle.Window.Loaded` | ChromiumSRC/src/chrome/browser/devtools/devtools_window.cc:1642-1666 | `OnLoadCompleted()` records the load, also for a front end that reloads, and runs a postponed action once |
| `DevToolsLifecycle.Window.LoadCompletedNow` | ChromiumSRC/src/chrome/browser/devtools/devtools_window.cc:1774-1780 | The postponed action is shown and forgotten |
| `DevToolsLifecycle.Window.Close` | ChromiumSRC/src/chrome/browser/devtools/devtools_window.cc:1361-1370 | The first `CloseContents()` of a docked window passes both CHECKs; a second one, or one of an undocked window, does not |
| `DevToolsLifecycle.Open` | ChromiumSRC/src/chrome/browser/devtools/devtools_window.cc:568-574 | For every history of a window as its creators leave it, asked to show itself before anything else happens: the guarantees of `Handle` hold at the end and the DCHECK of `Show()` never failed, whether or not the window can dock |
| `DevToolsLifecycle.Handshake` | ChromiumSRC/src/chrome/browser/devtools/devtools_window.cc:894-975 | For every history of a window that can dock, told from its events: the load counts as seen exactly if a `FrontendLoaded` came while it was open, the dock decision as made exactly if a `SetIsDocked` did; it is closing exactly if an event closed it; until then it is docked as the last `SetIsDocked` says, and the load is complete exactly if both came |
| `DevToolsLifecycle.StruckExactly` | ChromiumSRC/src/chrome/browser/devtools/devtools_window.cc:894-917 | Why the creators' order matters: over arbitrary histories of a window that cannot dock the DCHECK fails if and only if the front end loads first and a request to show the window comes next; no creator in the file produces such a history |
| `DevToolsLifecycle.StrayIsStruck` | ChromiumSRC/src/chrome/browser/devtools/devtools_window.cc:894-898 | After such a load, the DCHECK fails exactly if a request to show comes before docking or closing |
| `DevToolsLifecycle.Live` | ChromiumSRC/src/chrome/browser/devtools/devtools_window.cc:1048-1070 | For arbitrary histories from the constructor: the guarantees of `Handle` hold at the end, and the DCHECK failed if and only if the window cannot dock and the history is one of those |
| `BeforeUnload.DevTools.Intercept` | ChromiumSRC/src/chrome/browser/devtools/devtools_window.cc:991-1011 | `InterceptPageBeforeUnload()` ends on every inspection graph, passes the event up the longest stack of distinct ready windows and dispatches it once, to the front end of the last |
| `BeforeUnload.DevTools.CancelClose` | ChromiumSRC/src/chrome/browser/devtools/devtools_window.cc:1038-1046 | `OnPageCloseCanceled()` clears the flag of every window above |
| `BeforeUnload.DevTools.CloseThenCancel` | ChromiumSRC/src/chrome/browser/devtools/devtools_window.cc:1038-1046 | A page that is asked to close and stays leaves no window intercepting |
| `BeforeUnload.DevTools.BeforeUnloadFired` | ChromiumSRC/src/chrome/browser/devtools/devtools_window.cc:1378-1399 | A window that does not intercept is closed directly if its front end agrees; one that does passes an agreement on to what it inspects, and its refusal reaches the delegate of the page itself if all windows below intercept, docked or not, and otherwise ends at the highest one below that does not |
| `BeforeUnload.DevTools.Delegate` | ChromiumSRC/src/chrome/browser/ui/browser.cc:1766-1775 | The delegate of a front end, the window itself or an undocked window's browser: both hand an intercepting window's answer to its `BeforeUnloadFired()`; only for another window does the browser's own unload controller answer |
| `BeforeUnload.DevTools.HandleBeforeUnload` | ChromiumSRC/src/chrome/browser/devtools/devtools_window.cc:977-988 | Handles the answer exactly for an intercepting window, with the same effects as the window's own `BeforeUnloadFired()`, and otherwise changes nothing |
| `BeforeUnload.DevTools.Answer` | ChromiumSRC/src/chrome/browser/devtools/devtools_window.cc:977-988 | The front ends of a stack are asked from the top down, each once; the page is asked exactly if all agree, and last; otherwise the page's own delegate, and nobody else, learns of the refusal, for every set of docked windows |
| `BeforeUnload.EndsUnlessLoops` | ChromiumSRC/src/chrome/browser/devtools/devtools_window.cc:1038-1046 | `OnPageCloseCanceled()` returns if and only if the windows above do not inspect each other in a circle |
| `BeforeUnload.CircleNeverEnds` | ChromiumSRC/src/chrome/browser/devtools/devtools_window.cc:1038-1046 | Two windows that inspect each other's front end are such a circle |
| `MetricsCodec.EncodeThenDecode` | ChromiumSRC/src/chrome/installer/util/experiment_storage.cc:308-399 | Decoding undoes encoding if and only if every field is in range, for all nine widths |
| `MetricsCodec.DecodeThenEncode` | ChromiumSRC/src/chrome/installer/util/experiment_storage.cc:308-399 | Encoding undoes decoding for every accepted string, and what it decodes to is in range |
| `MetricsCodec.Accepted` | ChromiumSRC/src/chrome/installer/util/experiment_storage.cc:308-359 | Exactly eight Base64 symbols whose bits end with the last field are accepted |
| `MetricsCodec.LowFieldsPlaced` | ChromiumSRC/src/chrome/installer/util/experiment_storage.cc:361-389 | The first three of the nine fields are placed at offset 0, the first width, and the first two widths |
| `MetricsCodec.MiddleFieldsPlaced` | ChromiumSRC/src/chrome/installer/util/experiment_storage.cc:361-389 | The next three follow them, each at the sum of the widths before it |
| `MetricsCodec.HighFieldsPlaced` | ChromiumSRC/src/chrome/installer/util/experiment_storage.cc:361-389 | So do the last three |
| `MetricsCodec.EncodingSpelledOut` | ChromiumSRC/src/chrome/installer/util/experiment_storage.cc:391-398 | The encoded string: the six bytes of that number, the lowest first, as two groups |
| `MetricsCodec.EncodeMetrics` | ChromiumSRC/src/chrome/installer/util/experiment_storage.cc:361-399 | The nine sets, the byte loop and Base64 compute the specified encoding, for every metrics and widths |
| `MetricsCodec.DecodeMetrics` | ChromiumSRC/src/chrome/installer/util/experiment_storage.cc:308-359 | Base64, the byte loop, the nine reads and the check of the rest compute the specified decoding, for every string |
| `MetricsCodec.PackFields` | ChromiumSRC/src/chrome/installer/util/experiment_storage.cc:364-389 | Nine fields set in turn are one number in mixed radix, each reduced to its width |
| `MetricsCodec.ReadFields` | ChromiumSRC/src/chrome/installer/util/experiment_storage.cc:322-349 | Nine reads of a number are its digits, as ints |
| `MetricsCodec.ReadOctets` | ChromiumSRC/src/chrome/installer/util/experiment_storage.cc:391-395 | The loop of reads yields the six bytes of the number |
| `MetricsCodec.ReadData` | ChromiumSRC/src/chrome/installer/util/experiment_storage.cc:318-320 | Setting six signed chars in turn puts the number together again; sign extension does no harm |
| `MetricsCodec.OctetSet` | ChromiumSRC/src/chrome/installer/util/experiment_storage.cc:318-320 | One signed char adds one byte to the number |
| `MetricsCodec.LeftOver` | ChromiumSRC/src/chrome/installer/util/experiment_storage.cc:351-355 | The last read is zero exactly when no bit above the last field is set |
| `BitFields.SetAppends` | ChromiumSRC/src/chrome/installer/util/experiment_storage.cc:297-306 | `SetUint64Bits()` on the next free bits adds a digit: fields never overlap |
| `BitFields.ReadDigit` | ChromiumSRC/src/chrome/installer/util/experiment_storage.cc:288-295 | `ReadUint64Bits()` reads the digit that starts at its lowest bit |
| `BitFields.FieldRoundTrip` | ChromiumSRC/src/chrome/installer/util/experiment_storage.cc:288-306 | An int comes back from a field exactly when the field is wide enough for it |
| `BitFields.OrDisjoint` | ChromiumSRC/src/chrome/installer/util/experiment_storage.cc:305 | A disjunction with bits above all those set is a sum |
| `Base64.DecodeEncode` | ChromiumSRC/src/chrome/installer/util/experiment_storage.cc:396-398 | Base64 (section 4 of RFC 4648) is inverted by its decoder, for data of any length |
| `Base64.EncodeDecode` | ChromiumSRC/src/chrome/installer/util/experiment_storage.cc:312-316 | A string that decodes to whole groups has no padding and is the only spelling of its bytes |
| `Base64.SymbolsDecode` | ChromiumSRC/src/chrome/installer/util/experiment_storage.cc:312-316 | Whole groups of symbols always decode, three bytes each |
| `Base64.GroupIsNumber` | ChromiumSRC/src/chrome/installer/util/experiment_storage.cc:396-398 | Three bytes are one number of 24 bits, the first byte highest, written from the highest six bits down |
| `Base64.CapitalsFirst` | ChromiumSRC/src/chrome/installer/util/experiment_storage.cc:396-398 | Symbols 0 to 25 |
| `Base64.SmallLettersNext` | ChromiumSRC/src/chrome/installer/util/experiment_storage.cc:396-398 | Symbols 26 to 51 |
| `Base64.DigitsLast` | ChromiumSRC/src/chrome/installer/util/experiment_storage.cc:396-398 | Symbols 52 to 63 |

## Left out

- RunLoop.HostFollowsLoop: one direction; what the loops call is a parameter, and the two may agree by chance where a condition fails. `HostDispatchesInNativeLoop` and `HostDiffers` show that each condition is needed.
- RunLoop.RtIsStock: one direction, for the same reason; `TurnsDifferExactly` says for one turn what both branches do when the condition fails.
- PumpTheorems.NoStrandedDeadline: of a native loop beneath which `in_native_loop_` was cleared it says nothing between handlers; `LostExactly` says which steps lose its deadline.
- PumpQuit.WaitsWhileWanted: one direction; whether a wait whose flag is dropped belongs to a run that was asked to end is what `QuitTellsHistory` decides.
- RunLoop.StockCalls: each call answers as listed, once, and what is called leaves the native-loop flag up; worlds whose answers depend on their state are the subject of `TurnsDifferExactly` and `HostFollowsLoop`.
- Sleep.WorkThenSleep: times are positive and at least a day below the largest; a run that ends at the null time is the subject of `ThreadController.Controller.Work`.
- PumpInvariants.HostStepKeeps: a host step without a run state has no next state; what the null dereference does is not modelled.
- NavigationCommit.Frame.Perform: scripts of the beforeunload event, which `BeginNavigation()` dispatches between noting the navigation and its guard, and navigations during it, are not among the nested events.
- MessagePumpForIO: the same flag protocol on a completion port, without nesting; it would add easier copies of the UI pump's lemmas.
- Integer widths of positions and counts: `int num_backslashes`, `size_t` lengths and rectangle coordinates do not overflow in the model; the codec's 64-bit and 32-bit arithmetic and the DWORD of a timeout are modelled.
- The clamp of a native timer's delay to `USER_TIMER_MINIMUM` and `USER_TIMER_MAXIMUM`: the timer is armed for its deadline.
- Tracing, histograms, crash keys, hang watching, observers of messages and `BeforeWait()`: no effect on the state proved about.
- The idle counters `bIdle` and `lIdleCount`: set as in the code, read nowhere in it.
- Wake-up alignment, work batches limited by time and the work deduplicator: the wake-up, the tasks a batch selects and whether work was requested meanwhile are parameters.
- Timer slack, high-resolution timers and idle work of the thread controller: they depend on types that are not part of this model.
- Which windows can occlude others, and the conversion of regions to DIPs: an input of the callback, and floating-point rounding in a library.
- The external browser of an undocked DevTools window: its closing destroys the window, which ends the model.
- The UI side of occlusion (`UpdateOcclusionState`): its final state update is commented out in this repository.
- `ProcessEventHookCallback`: only its effect on the window that is moving is modelled, as a field.
- `CHECK(in_frame_tree_)`: whether a frame is provisional is not part of the commit state.
- A navigation to a reload that the repository swallows leaves the frame as it is; what the browser process makes of the missing commit is not part of this model.
- Non-ASCII input to `DecodeMetrics`: `WideToASCII` asserts that there is none.
- The order in which a set of processes or a map of root windows is enumerated: the loops pick any element.
- The unload controller of a browser: its answer for a window that does not intercept is a parameter, and what it does with a refusal is not part of this model.
- Occlusion.Serve: whether a hook that fails to install spares a later registration the leak is left open.
