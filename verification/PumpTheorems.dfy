/** What the invariant means for every run of the pump, and the runs in which the pump's own promises fail. */
module PumpTheorems {
  import opened Wrappers
  import opened PumpProtocol
  import opened PumpInvariants

  lemma ReachableKeeps(s: State)
    requires Reachable(s)
    ensures Inv(s)
  {
    var actions :| RunFrom(InitState(), actions) == Some(s);
    RunKeeps(InitState(), actions, s);
  }

  lemma {:induction false} RunExtends(s: State, actions: seq<Action>, t: State, a: Action, u: State)
    requires RunFrom(s, actions) == Some(t) && Next(t, a) == Some(u)
    ensures RunFrom(s, actions + [a]) == Some(u)
    decreases |actions|
  {
    if actions == [] {
      assert RunFrom(u, [a][1..]) == Some(u);
    } else {
      assert (actions + [a])[1..] == actions[1..] + [a];
      RunExtends(Next(s, actions[0]).value, actions[1..], t, a, u);
    }
  }

  lemma Then(s: State, a: Action) returns (t: State)
    requires Reachable(s) && Next(s, a).Some?
    ensures Next(s, a) == Some(t) && Reachable(t)
  {
    t := Next(s, a).value;
    var actions :| RunFrom(InitState(), actions) == Some(s);
    RunExtends(InitState(), actions, s, a, t);
  }

  // ----- One token -----

  /** In every interleaving work_scheduled_ counts the promises to serve it, at most one kMsgHaveWork is ever
      queued, and both DCHECKs of ProcessPumpReplacementMessage() hold. */
  lemma TokenIsUnique(s: State)
    requires Reachable(s)
    ensures Tokens(s) == if s.scheduled then 1 else 0
    ensures |HaveWorks(s.queue)| <= 1 && |s.callers| <= 1
    ensures s.stack.On? && Top(s) == Replace(Peeking) ==> HaveWorks(s.queue) == {}
    ensures s.stack.On? && Top(s).Replace? && Top(s).rpc.Have? ==> s.scheduled && Top(s).rpc.msg != Some(HaveWork)
  {
    ReachableKeeps(s);
    if s.stack.On? && Carries(Top(s)) { CarryingTop(s); }
  }

  /** run_state_ is not null in any frame that dereferences it, the timer is armed exactly when it is recorded, and
      idle work starts outside native loops with no timer. */
  lemma RunStateAndTimer(s: State)
    requires Reachable(s)
    ensures s.stack.On? && NeedsRun(Top(s)) ==> Running(s)
    ensures s.armed == s.installed
    ensures s.stack.On? && Top(s).Loop? && Top(s).pc.InIdle? ==> !s.inNative && s.armed.None?
  {
    ReachableKeeps(s);
  }

  /** OnProcessNextWindowsMessage() finds a run state exactly while some Run() is on the stack: in a host's loop that
      ConnectMsgLoop() runs, or above another run. */
  lemma HostStepIsSafe(s: State, sent: bool)
    requires Reachable(s) && Holding(s)
    ensures Next(s, Code(HostStep(sent))).Some? <==> Runs(s.stack) > 0
  {
    ReachableKeeps(s);
  }

  /** A host whose ConnectMsgLoop() returned before its own loop started has no run state left: in host mode Run() has
      returned, and the first message it hands over dereferences null. */
  lemma HostStepAfterRun() returns (s: State)
    ensures Reachable(s) && Holding(s) && s.quits == [] && Next(s, Code(HostStep(false))) == None
  {
    s := InitState();
    assert RunFrom(s, []) == Some(s);
    s := Then(s, Code(CallRun(true)));
    s := Then(s, Code(Disconnect(true)));
    s := Then(s, Os(Deliver(Other)));
    s := Then(s, Code(Take(0)));
  }

  // ----- No request is slept through -----

  /** The UI thread sleeps in WaitForWork(), or in GetMessage() of a native loop, and no message would wake it. */
  predicate Asleep(s: State) {
    s.stack.On? &&
    match Top(s)
    case Loop(_, Blocked(_, available)) =>
      if available then s.queue == map[] else forall id :: id in s.queue ==> id in s.seen
    case Outside(None) => s.queue == map[]
    case _ => false
  }

  /** Somewhere below, the peek for a replacement message is running the handler of a sent message. */
  predicate PeekSuspended(stack: Stack) {
    match stack
    case Bottom => false
    case On(f, rest) => f == Replace(Peeking) || PeekSuspended(rest)
  }

  /** Only a suspended peek carries the token while other code runs above it. */
  lemma {:induction false} SuspendedCarrier(stack: Stack, g: Frame)
    requires Shape(On(g, stack))
    ensures InFrames(stack) > 0 <==> PeekSuspended(stack)
  {
    if stack.Bottom? || stack.rest.Bottom? {
    } else {
      SuspendedCarrier(stack.rest, stack.top);
    }
  }

  /** The post of a thread that won the compare-and-swap wakes a sleeper, even when the wait ignores the messages it has
      seen. */
  lemma PostWakes(s: State, t: Tid, u: State)
    requires Reachable(s) && Asleep(s) && Next(s, Caller(Post(t, true))) == Some(u)
    ensures !Asleep(u)
  {
    ReachableKeeps(s);
    assert s.next in u.queue;
  }

  /** The thread is about to post the message that wakes the pump, or its post has failed and the undo it is about to do
      voids the promise. */
  predicate Answers(s: State, t: Tid) {
    && t in s.callers
    && (s.callers[t] == Won ==> !Asleep(NextCaller(s, Post(t, true)).value))
    && (s.callers[t] == PostFailed ==> NextCaller(s, Undo(t)).value.dropped)
  }

  lemma TheCallerAnswers(s: State, t: Tid)
    requires Reachable(s) && Asleep(s) && s.pending && t in s.callers
    ensures Answers(s, t)
  {
    if s.callers[t] == Won { PostWakes(s, t, NextCaller(s, Post(t, true)).value); }
  }

  lemma SomeCaller(callers: map<Tid, CallerPc>)
    ensures callers == map[] || exists t :: t in callers
  {
    if forall t :: t !in callers { assert callers == map[]; }
  }

  /** Asleep with a request outstanding that nothing voided: exactly when no peek is suspended, another thread is on its
      way to wake the pump or to void the promise; with a suspended peek, no thread is. */
  lemma NoLostWakeup(s: State)
    requires Reachable(s) && Asleep(s) && s.pending && !s.dropped
    ensures !PeekSuspended(s.stack) <==> exists t :: Answers(s, t)
    ensures PeekSuspended(s.stack) <==> s.callers == map[]
  {
    ReachableKeeps(s);
    assert forall id :: id !in s.queue;
    assert HaveWorks(s.queue) == {};
    if s.stack.rest.On? { SuspendedCarrier(s.stack.rest, Top(s)); }
    if !PeekSuspended(s.stack) {
      SomeCaller(s.callers);
      var t :| t in s.callers;
      TheCallerAnswers(s, t);
    }
  }

  /** A promise is voided only when a post fails, when kMsgHaveWork arrives outside Run(), or when a loop that owed
      a DoWork() quits. */
  lemma VoidedOnlyBy(s: State, a: Action, t: State)
    requires Reachable(s) && Next(s, a) == Some(t) && t.dropped && !s.dropped
    ensures MayVoid(s, a)
  {
    ReachableKeeps(s);
    NextKeeps(s, a, t);
  }

  /** A queue and a set of callers that came back to empty. */
  function Quiet(stack: Stack, quits: seq<bool>, next: MsgId): State {
    State(false, map[], next, {}, map[], stack, quits, None, None, false, false, false, None, false)
  }

  const DISPATCHING: Stack := On(Outside(None), On(Loop(false, Dispatching), On(Outside(None), Bottom)))

  lemma FirstRun() returns (s: State)
    ensures Reachable(s) && s == Quiet(On(Loop(false, Peek), On(Outside(None), Bottom)), [false], 0)
  {
    s := InitState();
    assert RunFrom(s, []) == Some(s);
    s := Then(s, Code(CallRun(false)));
  }

  /** A request arrived and ProcessPumpReplacementMessage() is peeking. */
  lemma PeekingForReplacement() returns (s: State)
    ensures Reachable(s)
    ensures s == Quiet(On(Replace(Peeking), On(Loop(false, LoopPc.Replacing(false)), On(Outside(None), Bottom))),
                       [false], 1)
                   .(scheduled := true, pending := true)
  {
    s := FirstRun();
    s := Then(s, Caller(Claim(0)));
    s := Then(s, Caller(Post(0, true)));
    assert s.callers == map[] && s.queue == map[0 := HaveWork];
    s := Then(s, Spinning(LoopPeek(Some(0), false)));
    assert s.queue == map[];
    s := Then(s, Spinning(LoopHelper));
  }

  lemma NestedRunLooks(s: State) returns (t: State)
    requires Reachable(s) && Free(s) && s.queue == map[]
    ensures Reachable(t)
    ensures Running(s) ==> t.duty == s.duty
    ensures t == s.(stack := On(Loop(false, Handled(false)), s.stack), quits := s.quits + [false], seen := {},
                    inNative := false, duty := t.duty)
  {
    t := Then(s, Code(CallRun(false)));
    t := Then(t, Spinning(LoopPeek(None, false)));
  }

  /** Code outside the pump starts a Run() that does what DoWork() has to do and goes idle. */
  lemma NestedRunWorks(s: State, info: NextWork) returns (t: State)
    requires Reachable(s) && Free(s) && s.queue == map[] && !info.Immediate?
    ensures Reachable(t)
    ensures t == s.(stack := On(Loop(false, Worked(info, false)), s.stack), quits := s.quits + [false], seen := {},
                    inNative := false, pending := false, dropped := false, duty := Some(info), failed := false)
  {
    t := NestedRunLooks(s);
    t := Then(t, Spinning(LoopWork));
    t := Then(t, Code(WorkDone(info)));
  }

  lemma NestedRunWaits() returns (s: State)
    ensures Reachable(s) && s.stack.On? && Top(s) == Loop(false, Wait(Never, true)) && Running(s)
    ensures s.queue == map[] && s.callers == map[] && s.scheduled && !s.pending && !s.dropped
  {
    s := PeekingForReplacement();
    s := Then(s, SentMessage);
    s := NestedRunWorks(s, Never);
    s := Then(s, Spinning(LoopAfterWork));
    s := Then(s, Spinning(IdleDone(false, false)));
  }

  /** The exception is real: a nested Run() started by a sent message's handler during the replacement peek sleeps
      through a request, although no post failed, nothing quit and no thread is about to post. */
  lemma NestedRunSleepsThroughRequest() returns (s: State)
    ensures Reachable(s) && Asleep(s) && s.pending && !s.dropped && s.callers == map[]
  {
    s := NestedRunWaits();
    s := Then(s, Spinning(StartWait(false)));
    s := Then(s, Caller(Claim(1)));
  }

  // ----- No deadline is stranded -----

  /** The last DoWork() asked for something that is provided for: work at once by work_scheduled_, a deadline by it or
      by a timer armed for exactly that time. */
  predicate ProvidedFor(s: State) {
    && (s.duty == Some(Immediate) ==> s.scheduled)
    && (s.duty.Some? && s.duty.value.At? ==> s.scheduled || s.armed == Some(s.duty.value.time))
  }

  /** When HandleWorkMessage() or an acting HandleTimerMessage() is done, and as long as a native loop has control and
      in_native_loop_ says so, what DoWork() asked for is provided for, unless an OS call failed. */
  lemma NoStrandedDeadline(s: State)
    requires Reachable(s) && s.stack.On? && !s.failed
    ensures Top(s) == HandleWork(End) || Top(s) == HandleTimer(End) ==> ProvidedFor(s)
    ensures Top(s) == Outside(None) && s.inNative && Running(s) ==> ProvidedFor(s)
  {
    ReachableKeeps(s);
  }

  /** HandleTimerMessage() for a WM_TIMER whose timer is not armed just returns: nothing but the stack changes. */
  lemma StaleTimerIgnored(s: State, t: State)
    requires Reachable(s) && s.armed.None? && BeginHandleTimer(s) == Some(t)
    ensures t == ReturnHandler(s)
  {
    RunStateAndTimer(s);
  }

  /** A native loop, such as a dialog's, entered from a dispatched message. */
  lemma InNativeLoop() returns (s: State)
    ensures Reachable(s) && s == Quiet(DISPATCHING, [false], 1)
  {
    s := FirstRun();
    s := Then(s, Os(Deliver(Other)));
    s := Then(s, Spinning(LoopPeek(Some(0), false)));
    assert s.queue == map[];
    s := Then(s, Spinning(LoopHelper));
  }

  lemma NativeLoopWoken() returns (s: State)
    ensures Reachable(s)
    ensures s == Quiet(DISPATCHING, [false], 2).(queue := map[1 := HaveWork], scheduled := true, pending := true)
  {
    s := InNativeLoop();
    s := Then(s, Caller(Claim(0)));
    s := Then(s, Caller(Post(0, true)));
    assert s.callers == map[] && s.queue == map[1 := HaveWork];
  }

  /** It takes a kMsgHaveWork and HandleWorkMessage() peeks for a replacement. */
  lemma NativeLoopTookWork() returns (s: State)
    ensures Reachable(s)
    ensures s == Quiet(On(Replace(Peeking), On(HandleWork(HReplacing), DISPATCHING)), [false], 2)
                   .(scheduled := true, pending := true, inNative := true)
  {
    s := NativeLoopWoken();
    s := Then(s, Code(Take(1)));
    assert s.queue == map[];
    s := Then(s, Code(DispatchTaken));
    s := Then(s, Handling(EnterWork));
  }

  lemma ReplacementMissing() returns (s: State)
    ensures Reachable(s)
    ensures s == Quiet(On(Replace(Cleared(None)), On(HandleWork(HReplacing), DISPATCHING)), [false], 2)
                   .(pending := true, inNative := true)
  {
    s := NativeLoopTookWork();
    s := Then(s, Replacement(PeekOne(None)));
    s := Then(s, Replacement(Clear));
  }

  /** HandleWorkMessage() is about to call DoWork(). */
  lemma NativeLoopWorks() returns (s: State)
    ensures Reachable(s)
    ensures s == Quiet(On(HandleWork(HReplaced), DISPATCHING), [false], 2).(pending := true, inNative := true)
  {
    s := ReplacementMissing();
    s := Then(s, Replacement(Branch));
    s := Then(s, Replacement(Leave));
  }

  lemma NativeLoopAnswered() returns (s: State)
    ensures Reachable(s)
    ensures s == Quiet(On(NativeTimer(At(5)), On(HandleWork(End), DISPATCHING)), [false], 2)
                   .(duty := Some(At(5)), inNative := true)
  {
    s := NativeLoopWorks();
    s := Then(s, Handling(Work));
    s := Then(s, Code(WorkDone(At(5))));
  }

  /** It left a timer for time 5 behind. */
  lemma NativeLoopWithTimer() returns (s: State)
    ensures Reachable(s)
    ensures s == Quiet(DISPATCHING, [false], 2)
                   .(installed := Some(5), armed := Some(5), duty := Some(At(5)), inNative := true)
  {
    s := NativeLoopAnswered();
    s := Then(s, Timing(Install(true)));
    s := Then(s, Handling(Finish));
  }

  /** in_native_loop_ matters: a Run() started by native code inside a native loop clears it and kills the timer,
      and when that Run() quits the native loop goes on with the deadline stranded. */
  lemma NestedRunStrandsDeadline() returns (s: State)
    ensures Reachable(s) && Running(s) && s.stack.On? && Top(s) == Outside(None) && !s.failed
    ensures s.duty == Some(At(5)) && !ProvidedFor(s)
  {
    s := NativeLoopWithTimer();
    s := NestedRunWorks(s, At(5));
    s := Then(s, Spinning(LoopAfterWork));
    s := Then(s, Spinning(IdleDone(false, true)));
  }

  lemma NestedRunFindsTimer() returns (s: State)
    ensures Reachable(s)
    ensures s == Quiet(On(Loop(false, Got(OwnTimer, false)), DISPATCHING), [false, false], 3)
                   .(installed := Some(5), armed := Some(5), duty := Some(At(5)))
  {
    s := NativeLoopWithTimer();
    s := Then(s, Os(TimerFires));
    s := Then(s, Code(CallRun(false)));
    s := Then(s, Spinning(LoopPeek(Some(2), false)));
    assert s.queue == map[] && s.quits == [false, false];
  }

  /** A nested Run() in the native loop peeks the WM_TIMER of its timer. */
  lemma NestedRunTakesTimer() returns (s: State)
    ensures Reachable(s) && Nested(s) && Top(s) == HandleTimer(Begin) && Below(s) == Outside(None)
    ensures Running(s) && !s.inNative && s.installed == Some(5)
  {
    s := NestedRunFindsTimer();
    s := Then(s, Spinning(LoopHelper));
    s := Then(s, Code(DispatchTaken));
  }

  /** ScheduleNativeTimer() asserts in_native_loop_.  HandleTimerMessage() reaches it with the flag cleared. */
  lemma NativeTimerOutsideNativeLoop() returns (s: State)
    ensures Reachable(s) && s.stack.On? && Top(s) == NativeTimer(At(7)) && !s.inNative
  {
    s := NestedRunTakesTimer();
    s := Then(s, Handling(EnterTimer));
    s := Then(s, Code(WorkDone(At(7))));
  }
}
