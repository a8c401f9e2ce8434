/** How a deadline that is provided for is lost. */
module PumpDeadline {
  import opened Wrappers
  import opened PumpProtocol
  import opened PumpInvariants
  import opened PumpSteps
  import opened PumpTheorems

  /** DoWork() or ScheduleDelayedWork() says anew what is wanted. */
  predicate Asks(a: Action) {
    a.Code? && (a.code.WorkDone? || a.code.CallScheduleDelayed?)
  }

  /** A loop that DoWork() answered kills the timer, or HandleTimerMessage() does outside Run(). */
  predicate KillsTimer(s: State, a: Action) {
    || (a == Spinning(LoopAfterWork) && !ShouldQuit(s))
    || (a == Handling(EnterTimer) && !Running(s))
  }

  /** work_scheduled_ is cleared: for a replacement, by a failed post, or by a kMsgHaveWork outside Run(). */
  predicate ClearsToken(s: State, a: Action) {
    || a == Replacement(Clear)
    || (a.Caller? && a.caller.Undo?)
    || a == Scheduling(UndoPost)
    || (a == Handling(EnterWork) && !Running(s))
  }

  /** Nothing else provides for what was asked for. */
  predicate Strands(s: State, a: Action) {
    match s.duty
    case Some(At(time)) =>
      || (KillsTimer(s, a) && s.armed == Some(time) && !s.scheduled)
      || (ClearsToken(s, a) && s.scheduled && s.armed != Some(time))
    case Some(Immediate) => ClearsToken(s, a) && s.scheduled
    case _ => false
  }

  /** ScheduleNativeTimer() runs for what the last DoWork() asked for. */
  lemma InstallsWhatIsAsked(s: State)
    requires Reachable(s) && s.stack.On? && Top(s).NativeTimer?
    ensures s.duty == Some(Top(s).info)
  {
    ReachableKeeps(s);
  }

  lemma SpinningLoses(s: State, c: LoopAction, t: State)
    requires View(t) == ViewAfter(s, Spinning(c)) && ProvidedFor(s) && Looping(s)
    ensures !ProvidedFor(t) <==> Strands(s, Spinning(c))
  {
  }

  lemma HandlingLoses(s: State, c: HandlerAction, t: State)
    requires View(t) == ViewAfter(s, Handling(c)) && ProvidedFor(s) && s.installed == s.armed
    ensures !ProvidedFor(t) <==> Strands(s, Handling(c))
  {
  }

  lemma CodeLoses(s: State, c: OutsideAction, t: State)
    requires View(t) == ViewAfter(s, Code(c)) && ProvidedFor(s) && !Asks(Code(c))
    ensures !ProvidedFor(t) <==> Strands(s, Code(c))
  {
  }

  lemma ReplacingLoses(s: State, c: ReplaceAction, t: State)
    requires View(t) == ViewAfter(s, Replacement(c)) && ProvidedFor(s)
    ensures !ProvidedFor(t) <==> Strands(s, Replacement(c))
  {
  }

  lemma SchedulingLoses(s: State, c: ScheduleAction, t: State)
    requires View(t) == ViewAfter(s, Scheduling(c)) && ProvidedFor(s)
    ensures !ProvidedFor(t) <==> Strands(s, Scheduling(c))
  {
  }

  lemma CallerLoses(s: State, c: CallerAction, t: State)
    requires View(t) == ViewAfter(s, Caller(c)) && ProvidedFor(s)
    ensures !ProvidedFor(t) <==> Strands(s, Caller(c))
  {
  }

  lemma TimingLoses(s: State, c: TimerAction, t: State)
    requires View(t) == ViewAfter(s, Timing(c)) && ProvidedFor(s)
    requires s.stack.On? && Top(s).NativeTimer? && s.duty == Some(Top(s).info)
    ensures !ProvidedFor(t) <==> Strands(s, Timing(c))
  {
  }

  /** What is provided for stops being so exactly if the timer that was armed for it is killed while work_scheduled_ is
      down, or work_scheduled_ is cleared while no timer is armed for it, and no new DoWork() begins. */
  lemma LostExactly(s: State, a: Action, t: State)
    requires Reachable(s) && Next(s, a) == Some(t) && ProvidedFor(s) && !Asks(a)
    ensures !ProvidedFor(t) <==> Strands(s, a)
  {
    ViewStep(s, a, t);
    RunStateAndTimer(s);
    match a
    case Caller(c) => CallerLoses(s, c, t);
    case Os(_) =>
    case Code(c) => CodeLoses(s, c, t);
    case SentMessage =>
    case Scheduling(c) => SchedulingLoses(s, c, t);
    case Timing(c) =>
      InstallsWhatIsAsked(s);
      TimingLoses(s, c, t);
    case Replacement(c) => ReplacingLoses(s, c, t);
    case Handling(c) => HandlingLoses(s, c, t);
    case Spinning(c) => SpinningLoses(s, c, t);
  }

  /** Over a run in which nothing is asked anew, what was provided for and no longer is was stranded by some step. */
  lemma {:induction false} SomeStepStrands(s: State, actions: seq<Action>, t: State) returns (i: nat, u: State)
    requires Reachable(s) && ProvidedFor(s) && RunFrom(s, actions) == Some(t) && !ProvidedFor(t)
    requires forall k :: 0 <= k < |actions| ==> !Asks(actions[k])
    ensures i < |actions| && RunFrom(s, actions[..i]) == Some(u) && Strands(u, actions[i])
    decreases |actions|
  {
    if actions == [] {
      assert false;
    } else {
      var first := actions[0];
      var v := Then(s, first);
      if ProvidedFor(v) {
        i, u := SomeStepStrands(v, actions[1..], t);
        assert actions[..i + 1][1..] == actions[1..][..i];
        i := i + 1;
      } else {
        LostExactly(s, first, v);
        i, u := 0, s;
      }
    }
  }
}
