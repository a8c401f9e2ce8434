/** What Quit() does, told from the actions of a run: which runs are to end, and that exactly those end. */
module PumpQuit {
  import opened Wrappers
  import opened PumpProtocol
  import opened PumpInvariants
  import opened PumpSteps
  import opened PumpNativeFlag
  import opened PumpTheorems

  /** The action asks the innermost Run() to end: Quit(), or its idle part. */
  predicate AsksToEnd(a: Action) {
    a == Code(CallQuit) || (a.Spinning? && a.loop.IdleDone? && a.loop.quit)
  }

  /** How many Run() are on the stack after a run, which may have stopped earlier. */
  function DepthAfter(actions: seq<Action>): nat {
    var s := RunFrom(InitState(), actions);
    if s.Some? then Runs(s.value.stack) else 0
  }

  /** How many are on the stack before each action, and after the last one. */
  function Depths(actions: seq<Action>): (r: seq<nat>)
    ensures |r| == |actions| + 1
  {
    seq(|actions| + 1, i requires 0 <= i <= |actions| => DepthAfter(actions[..i]))
  }

  /** Action `i` asks the Run() that is number `d` from the bottom to end. */
  predicate AskedAt(actions: seq<Action>, depths: seq<nat>, i: nat, d: nat)
    requires i < |actions| < |depths|
  {
    AsksToEnd(actions[i]) && depths[i] == d
  }

  /** That Run() is on the stack since action `i`. */
  predicate OnSince(depths: seq<nat>, i: nat, d: nat) {
    forall j :: i < j < |depths| ==> depths[j] >= d
  }

  predicate AskedIn(actions: seq<Action>, depths: seq<nat>, d: nat)
    requires |actions| < |depths|
  {
    exists i :: 0 <= i < |actions| && AskedAt(actions, depths, i, d) && OnSince(depths, i, d)
  }

  /** Run() number `d` from the bottom was asked to end and is still on the stack. */
  predicate ToEnd(actions: seq<Action>, d: nat) {
    AskedIn(actions, Depths(actions), d)
  }

  lemma StaysAsked(before: seq<Action>, a: Action, depths: seq<nat>, n: nat, d: nat)
    requires |depths| == |before| + 1 && d <= n
    requires AskedIn(before, depths, d) || (AsksToEnd(a) && depths[|before|] == d)
    ensures AskedIn(before + [a], depths + [n], d)
  {
    if AskedIn(before, depths, d) {
      var i :| 0 <= i < |before| && AskedAt(before, depths, i, d) && OnSince(depths, i, d);
      assert AskedAt(before + [a], depths + [n], i, d) && OnSince(depths + [n], i, d);
    } else {
      assert AskedAt(before + [a], depths + [n], |before|, d) && OnSince(depths + [n], |before|, d);
    }
  }

  lemma WasAsked(before: seq<Action>, a: Action, depths: seq<nat>, n: nat, d: nat)
    requires |depths| == |before| + 1 && AskedIn(before + [a], depths + [n], d)
    ensures d <= n && (AskedIn(before, depths, d) || (AsksToEnd(a) && depths[|before|] == d))
  {
    var actions, more := before + [a], depths + [n];
    var i :| 0 <= i <= |before| && AskedAt(actions, more, i, d) && OnSince(more, i, d);
    assert more[|before| + 1] == n;
    if i < |before| {
      assert forall j :: 0 <= j < |depths| ==> depths[j] == more[j];
      assert AskedAt(before, depths, i, d) && OnSince(depths, i, d);
    }
  }

  lemma DepthsMore(before: seq<Action>, a: Action)
    ensures Depths(before + [a]) == Depths(before) + [DepthAfter(before + [a])]
    ensures Depths(before)[|before|] == DepthAfter(before)
  {
    var actions := before + [a];
    assert actions[..|actions|] == actions && before[..|before|] == before;
    assert forall j :: 0 <= j <= |before| ==> actions[..j] == before[..j];
  }

  lemma ToEndMore(before: seq<Action>, a: Action, s: State, t: State, d: nat)
    requires RunFrom(InitState(), before) == Some(s) && RunFrom(InitState(), before + [a]) == Some(t)
    ensures ToEnd(before + [a], d)
            <==> d <= Runs(t.stack) && (ToEnd(before, d) || (AsksToEnd(a) && Runs(s.stack) == d))
  {
    DepthsMore(before, a);
    if ToEnd(before + [a], d) {
      WasAsked(before, a, Depths(before), Runs(t.stack), d);
    } else if d <= Runs(t.stack) && (ToEnd(before, d) || (AsksToEnd(a) && Runs(s.stack) == d)) {
      StaysAsked(before, a, Depths(before), Runs(t.stack), d);
    }
  }

  /** An action carries the answer of run `d` on: it only sets the innermost one's, and only when asked to. */
  predicate Carries(was: seq<bool>, a: Action, now: seq<bool>, d: nat)
    requires 0 < d <= |now|
  {
    now[d - 1] == (d <= |was| && (was[d - 1] || (AsksToEnd(a) && d == |was|)))
  }

  lemma CodeCarries(s: State, c: OutsideAction, t: State, d: nat)
    requires View(t) == ViewAfter(s, Code(c)) && 0 < d <= |t.quits|
    ensures Carries(s.quits, Code(c), t.quits, d)
  {
    assert t.quits == ViewAfter(s, Code(c)).quits;
    match c
    case CallRun(_) =>
    case Disconnect(_) =>
    case CallQuit =>
    case _ =>
  }

  lemma SpinningCarries(s: State, c: LoopAction, t: State, d: nat)
    requires View(t) == ViewAfter(s, Spinning(c)) && 0 < d <= |t.quits| && Looping(s)
    ensures Carries(s.quits, Spinning(c), t.quits, d)
  {
    assert t.quits == ViewAfter(s, Spinning(c)).quits;
  }

  lemma StepCarries(s: State, a: Action, t: State, d: nat)
    requires Next(s, a) == Some(t) && 0 < d <= |t.quits|
    ensures Carries(s.quits, a, t.quits, d)
  {
    ViewStep(s, a, t);
    match a
    case Code(c) => CodeCarries(s, c, t, d);
    case Spinning(c) => SpinningCarries(s, c, t, d);
    case _ => assert View(t).quits == s.quits;
  }

  lemma OneAnswerEach(actions: seq<Action>, s: State)
    requires RunFrom(InitState(), actions) == Some(s)
    ensures |s.quits| == Runs(s.stack)
  {
    ReachableKeeps(s);
  }

  /** The depths of a run, taken as it goes. */
  predicate Records(actions: seq<Action>, depths: seq<nat>) {
    && |depths| == |actions| + 1 && depths[|actions|] == DepthAfter(actions)
    && (actions != [] ==> Records(actions[..|actions| - 1], depths[..|actions|]))
  }

  lemma {:induction false} DepthsRecorded(actions: seq<Action>)
    ensures Records(actions, Depths(actions))
  {
    if actions == [] {
    } else {
      var before, a := actions[..|actions| - 1], actions[|actions| - 1];
      assert actions == before + [a];
      DepthsRecorded(before);
      DepthsMore(before, a);
    }
  }

  lemma NotYetBegun(actions: seq<Action>, depths: seq<nat>, d: nat)
    requires |depths| == |actions| + 1 && depths[|actions|] < d
    ensures !AskedIn(actions, depths, d)
  {
  }

  /** One action more, for a run whose answers `was` turn into `now`. */
  lemma TellsMore(before: seq<Action>, a: Action, depths: seq<nat>, d: nat, was: seq<bool>, now: seq<bool>)
    requires |depths| == |before| + 1 && depths[|before|] == |was| && 0 < d <= |now|
    requires d <= |was| ==> (was[d - 1] <==> AskedIn(before, depths, d))
    requires Carries(was, a, now, d)
    ensures now[d - 1] <==> AskedIn(before + [a], depths + [|now|], d)
  {
    if d > |was| { NotYetBegun(before, depths, d); }
    if now[d - 1] {
      StaysAsked(before, a, depths, |now|, d);
    } else if AskedIn(before + [a], depths + [|now|], d) {
      WasAsked(before, a, depths, |now|, d);
    }
  }

  /** The state before the last action, and what the action makes of the answers. */
  lemma LastAnswers(before: seq<Action>, a: Action, s: State, depths: seq<nat>, d: nat) returns (r: State)
    requires RunFrom(InitState(), before + [a]) == Some(s) && Records(before + [a], depths) && 0 < d <= |s.quits|
    ensures RunFrom(InitState(), before) == Some(r)
    ensures depths[|before|] == |r.quits| && depths[|before| + 1] == |s.quits|
    ensures Carries(r.quits, a, s.quits, d)
  {
    r := LastStep(InitState(), before, a, s);
    OneAnswerEach(before + [a], s);
    OneAnswerEach(before, r);
    StepCarries(r, a, s, d);
    assert (before + [a])[..|before|] == before;
  }

  lemma {:induction false} TellsAll(actions: seq<Action>, s: State, depths: seq<nat>, d: nat)
    requires RunFrom(InitState(), actions) == Some(s) && Records(actions, depths) && 0 < d <= |s.quits|
    ensures s.quits[d - 1] <==> AskedIn(actions, depths, d)
    decreases |actions|
  {
    if actions == [] {
    } else {
      var before, a := actions[..|actions| - 1], actions[|actions| - 1];
      assert actions == before + [a];
      var r := LastAnswers(before, a, s, depths, d);
      assert depths == depths[..|actions|] + [|s.quits|];
      if d <= |r.quits| { TellsAll(before, r, depths[..|actions|], d); }
      TellsMore(before, a, depths[..|actions|], d, r.quits, s.quits);
    }
  }

  /** should_quit of every Run() on the stack says exactly whether that run was asked to end since it began. */
  lemma QuitTellsHistory(actions: seq<Action>, s: State, d: nat)
    requires RunFrom(InitState(), actions) == Some(s) && 0 < d <= Runs(s.stack)
    ensures |s.quits| == Runs(s.stack)
    ensures s.quits[d - 1] <==> ToEnd(actions, d)
  {
    OneAnswerEach(actions, s);
    DepthsRecorded(actions);
    TellsAll(actions, s, Depths(actions), d);
  }

  /** The innermost Run() was asked to end. */
  lemma InnermostToEnd(actions: seq<Action>, s: State)
    requires RunFrom(InitState(), actions) == Some(s) && Runs(s.stack) > 0
    ensures ShouldQuit(s) <==> ToEnd(actions, Runs(s.stack))
  {
    QuitTellsHistory(actions, s, Runs(s.stack));
  }

  lemma StackFollows(actions: seq<Action>, s: State, a: Action, t: State)
    requires RunFrom(InitState(), actions) == Some(s) && Next(s, a) == Some(t)
    ensures |s.quits| == Runs(s.stack) && |t.quits| == Runs(t.stack)
  {
    OneAnswerEach(actions, s);
    RunExtends(InitState(), actions, s, a, t);
    OneAnswerEach(actions + [a], t);
  }

  // ----- A run that was asked to end does nothing more, and ends -----

  predicate Decides(c: LoopAction) {
    c.LoopWork? || c.LoopAfterWork? || c.IdleDone?
  }

  lemma WorkStops(s: State, t: State)
    requires ShouldQuit(s) && StartWork(s) == Some(t)
    ensures t.stack == s.stack.rest
  {
    if Top(s).host {} else {}
  }

  lemma AnswerStops(s: State, t: State)
    requires ShouldQuit(s) && AfterWork(s) == Some(t)
    ensures t.stack == s.stack.rest
  {
    if Top(s).host {} else {}
  }

  lemma IdleStops(s: State, more: bool, quit: bool, t: State)
    requires (quit || ShouldQuit(s)) && AfterIdle(s, more, quit) == Some(t)
    ensures t.stack == s.stack.rest
  {
    if Top(s).host {} else {}
  }

  lemma StepStops(s: State, c: LoopAction, t: State)
    requires Next(s, Spinning(c)) == Some(t) && Decides(c) && (ShouldQuit(s) || (c.IdleDone? && c.quit))
    ensures s.stack.On? && Top(s).Loop? && t.stack == s.stack.rest
  {
    match c
    case LoopWork => WorkStops(s, t);
    case LoopAfterWork => AnswerStops(s, t);
    case IdleDone(more, quit) => IdleStops(s, more, quit, t);
  }

  /** Where a loop would call DoWork(), go on to idle work or wait, one whose run was asked to end leaves instead: its
      frame is gone, and with DoRunLoop()'s the run. */
  lemma QuitEndsLoop(actions: seq<Action>, s: State, c: LoopAction, t: State)
    requires RunFrom(InitState(), actions) == Some(s) && Next(s, Spinning(c)) == Some(t) && Decides(c)
    requires ToEnd(actions, Runs(s.stack)) || (c.IdleDone? && c.quit)
    ensures s.stack.On? && Top(s).Loop? && t.stack == s.stack.rest
    ensures Runs(t.stack) == Runs(s.stack) - if Top(s).host then 0 else 1
  {
    StackFollows(actions, s, Spinning(c), t);
    InnermostToEnd(actions, s);
    StepStops(s, c, t);
  }

  /** The loop's frame after a step that did not end it: on top, or just below what the step called. */
  predicate Resumes(stack: Stack, f: Frame, rest: Stack) {
    stack.On? && (stack == On(f, rest) || stack.rest == On(f, rest))
  }

  /** The step began neither DoWork() nor idle work nor a wait. */
  predicate NothingBegun(pc: LoopPc, f: Frame) {
    && f.Loop? && !f.pc.InWork?
    && (f.pc.InIdle? ==> pc.InIdle?)
    && (f.pc.Wait? || f.pc.Blocked? ==> pc.Wait? || pc.Blocked? || pc.Woken?)
  }

  lemma PeekBeginsNothing(s: State, choice: Option<MsgId>, sent: bool, t: State) returns (f: Frame)
    requires PeekMessage(s, choice, sent) == Some(t)
    ensures Resumes(t.stack, f, s.stack.rest) && NothingBegun(Top(s).pc, f)
  {
    f := Loop(Top(s).host, if choice.None? then Handled(sent) else Got(s.queue[choice.value], sent));
  }

  lemma PumpMessageBeginsNothing(s: State, t: State) returns (f: Frame)
    requires HandleMessage(s) == Some(t) && (Top(s).pc.kind == QuitMsg || Top(s).pc.kind == HaveWork)
    ensures Resumes(t.stack, f, s.stack.rest) && NothingBegun(Top(s).pc, f)
  {
    f := Loop(Top(s).host, if Top(s).pc.kind == QuitMsg then Handled(true) else LoopPc.Replacing(Top(s).pc.sent));
  }

  lemma NativeMessageBeginsNothing(s: State, t: State) returns (f: Frame)
    requires HandleMessage(s) == Some(t) && (Top(s).pc.kind == OwnTimer || Top(s).pc.kind == Other)
    ensures Resumes(t.stack, f, s.stack.rest) && NothingBegun(Top(s).pc, f)
  {
    f := Loop(Top(s).host, Dispatching);
    if Top(s).pc.kind == OwnTimer {} else {}
  }

  lemma WaitBeginsNothing(s: State, expired: bool, t: State) returns (f: Frame)
    requires BeginWait(s, expired) == Some(t)
    ensures t.stack == s.stack.rest || (Resumes(t.stack, f, s.stack.rest) && NothingBegun(Top(s).pc, f))
  {
    if expired {
      f := AgainBeginsNothing(s, t);
    } else {
      f := Loop(Top(s).host, Blocked(Top(s).pc.info, Top(s).pc.available));
    }
  }

  lemma AgainBeginsNothing(s: State, t: State) returns (f: Frame)
    requires Looping(s) && t == Again(s, Top(s).host)
    ensures t.stack == s.stack.rest || (Resumes(t.stack, f, s.stack.rest) && NothingBegun(Top(s).pc, f))
  {
    f := Loop(false, Peek);
    if Top(s).host {} else {}
  }

  lemma WakingBeginsNothing(s: State, timeout: bool, t: State) returns (f: Frame)
    requires EndWait(s, timeout) == Some(t)
    ensures Resumes(t.stack, f, s.stack.rest) && NothingBegun(Top(s).pc, f)
  {
    f := if timeout then Loop(Top(s).host, Wait(Top(s).pc.info, Top(s).pc.available))
         else Loop(Top(s).host, Woken(Top(s).pc.info));
  }

  lemma LookBeginsNothing(s: State, sent: bool, t: State) returns (f: Frame)
    requires LookForMessage(s, sent) == Some(t)
    ensures t.stack == s.stack.rest || (Resumes(t.stack, f, s.stack.rest) && NothingBegun(Top(s).pc, f))
  {
    if sent || s.queue != map[] {
      f := AgainBeginsNothing(s.(seen := s.queue.Keys), t);
    } else {
      f := Loop(Top(s).host, Wait(Top(s).pc.info, false));
    }
  }

  lemma OthersBeginNothing(s: State, c: LoopAction, t: State) returns (f: Frame)
    requires NextLoop(s, c) == Some(t) && !Decides(c)
    ensures Looping(s)
    ensures t.stack == s.stack.rest || (Resumes(t.stack, f, s.stack.rest) && NothingBegun(Top(s).pc, f))
  {
    match c
    case LoopPeek(choice, sent) => f := PeekBeginsNothing(s, choice, sent, t);
    case LoopHelper =>
      if Top(s).pc.kind == QuitMsg || Top(s).pc.kind == HaveWork {
        f := PumpMessageBeginsNothing(s, t);
      } else {
        f := NativeMessageBeginsNothing(s, t);
      }
    case IdleSchedule => f := Top(s);
    case StartWait(expired) => f := WaitBeginsNothing(s, expired, t);
    case Woke(timeout) => f := WakingBeginsNothing(s, timeout, t);
    case AfterWake(sent) => f := LookBeginsNothing(s, sent, t);
  }

  /** From the moment its run is asked to end, a loop never begins another DoWork(), idle work or wait. */
  lemma NothingMoreBegins(actions: seq<Action>, s: State, c: LoopAction, t: State)
    requires RunFrom(InitState(), actions) == Some(s) && Next(s, Spinning(c)) == Some(t)
    requires ToEnd(actions, Runs(s.stack))
    ensures Looping(s)
    ensures t.stack == s.stack.rest || exists f :: Resumes(t.stack, f, s.stack.rest) && NothingBegun(Top(s).pc, f)
  {
    if Decides(c) {
      QuitEndsLoop(actions, s, c, t);
    } else {
      var f := OthersBeginNothing(s, c, t);
    }
  }

  lemma SpinningEnds(s: State, c: LoopAction, t: State)
    requires View(t) == ViewAfter(s, Spinning(c)) && Looping(s)
    ensures |t.quits| == |s.quits| - if Decides(c) && !Top(s).host && (ShouldQuit(s) || (c.IdleDone? && c.quit))
                                     then 1 else 0
  {
    assert t.quits == ViewAfter(s, Spinning(c)).quits;
    match c
    case LoopWork =>
    case LoopAfterWork =>
    case IdleDone(_, _) =>
    case _ =>
  }

  lemma CodeEnds(s: State, c: OutsideAction, t: State)
    requires View(t) == ViewAfter(s, Code(c)) && (c == Disconnect(true) ==> Running(s))
    ensures |t.quits| < |s.quits| <==> c == Disconnect(true)
    ensures |t.quits| < |s.quits| ==> |t.quits| == |s.quits| - 1
  {
    assert t.quits == ViewAfter(s, Code(c)).quits;
    match c
    case Disconnect(_) =>
    case CallRun(_) =>
    case CallQuit =>
    case _ =>
  }

  lemma RunEnds(s: State, a: Action, t: State)
    requires View(t) == ViewAfter(s, a) && (a.Spinning? ==> Looping(s)) && (a == Code(Disconnect(true)) ==> Running(s))
    ensures |t.quits| < |s.quits|
            <==> || a == Code(Disconnect(true))
                 || (a.Spinning? && Decides(a.loop) && !Top(s).host
                     && (ShouldQuit(s) || (a.loop.IdleDone? && a.loop.quit)))
    ensures |t.quits| < |s.quits| ==> |t.quits| == |s.quits| - 1
  {
    match a
    case Code(c) => CodeEnds(s, c, t);
    case Spinning(c) => SpinningEnds(s, c, t);
    case _ => assert t.quits == ViewAfter(s, a).quits == s.quits;
  }

  /** Conversely, a Run() ends only so: asked to end, by its own idle part, or when ConnectMsgLoop() returns in host
      mode; and it is the innermost one. */
  lemma RunEndsExactly(actions: seq<Action>, s: State, a: Action, t: State)
    requires RunFrom(InitState(), actions) == Some(s) && Next(s, a) == Some(t)
    ensures Runs(t.stack) < Runs(s.stack)
            <==> || a == Code(Disconnect(true))
                 || (a.Spinning? && Decides(a.loop) && !Top(s).host
                     && (ToEnd(actions, Runs(s.stack)) || (a.loop.IdleDone? && a.loop.quit)))
    ensures Runs(t.stack) < Runs(s.stack) ==> Runs(t.stack) == Runs(s.stack) - 1
  {
    StackFollows(actions, s, a, t);
    ViewStep(s, a, t);
    RunEnds(s, a, t);
    if a.Spinning? { InnermostToEnd(actions, s); }
  }

  /** The runs below keep their own answers: whether they were asked to end changes with nothing that happens above. */
  lemma EnclosingKeep(before: seq<Action>, a: Action, s: State, t: State, d: nat)
    requires RunFrom(InitState(), before) == Some(s) && RunFrom(InitState(), before + [a]) == Some(t)
    requires 0 < d < Runs(s.stack)
    ensures d <= Runs(t.stack) && (ToEnd(before + [a], d) <==> ToEnd(before, d))
  {
    ToEndMore(before, a, s, t, d);
    var r := LastStep(InitState(), before, a, t);
    RunEndsExactly(before, s, a, t);
  }

  // ----- The one thing a request to end does not end -----

  /** A wait goes on after such a request only if its own peek found nothing: MWMO_INPUTAVAILABLE has been dropped. */
  lemma WaitsWhileWanted(actions: seq<Action>, s: State)
    requires RunFrom(InitState(), actions) == Some(s) && s.stack.On? && Top(s).Loop?
    requires (Top(s).pc.Wait? || Top(s).pc.Blocked?) && Top(s).pc.available
    ensures !ToEnd(actions, Runs(s.stack))
  {
    ReachableKeeps(s);
    InnermostToEnd(actions, s);
  }

  /** Quit() in a sent message that the peek of WaitForWork() runs does not end the wait: the pump sleeps on. */
  lemma QuitDuringWait() returns (s: State)
    ensures Reachable(s) && s.stack.On? && Top(s) == Loop(false, Blocked(Never, false)) && s.quits == [true]
    ensures s.queue == map[]
  {
    s := FirstRun();
    s := Then(s, Spinning(LoopPeek(None, false)));
    s := Then(s, Spinning(LoopWork));
    s := Then(s, Code(WorkDone(Never)));
    s := FallsAsleep(s);
    s := QuitInPeek(s);
    s := SleepsOn(s);
  }

  lemma FallsAsleep(r: State) returns (s: State)
    requires Reachable(r) && r.stack.On? && Top(r) == Loop(false, Worked(Never, false))
    requires r.quits == [false] && r.queue == map[]
    ensures Reachable(s) && s.stack.On? && Top(s) == Loop(false, Blocked(Never, true)) && s.quits == [false]
    ensures s.queue == map[]
  {
    s := Then(r, Spinning(LoopAfterWork));
    s := Then(s, Spinning(IdleDone(false, false)));
    s := Then(s, Spinning(StartWait(false)));
  }

  lemma QuitInPeek(r: State) returns (s: State)
    requires Reachable(r) && r.stack.On? && Top(r) == Loop(false, Blocked(Never, true)) && r.quits == [false]
    requires r.queue == map[]
    ensures Reachable(s) && s.stack.On? && s.stack.rest.On? && Top(s) == Outside(None)
    ensures s.stack.rest.top == Loop(false, Woken(Never))
    ensures s.quits == [true] && s.queue == map[]
  {
    s := Then(r, Spinning(Woke(false)));
    s := Then(s, SentMessage);
    s := Then(s, Code(CallQuit));
  }

  lemma SleepsOn(r: State) returns (s: State)
    requires Reachable(r) && r.stack.On? && r.stack.rest.On? && Top(r) == Outside(None)
    requires r.stack.rest.top == Loop(false, Woken(Never)) && r.quits == [true] && r.queue == map[]
    ensures Reachable(s) && s.stack.On? && Top(s) == Loop(false, Blocked(Never, false)) && s.quits == [true]
    ensures s.queue == map[]
  {
    s := Then(r, Code(Return));
    s := Then(s, Spinning(AfterWake(false)));
    s := Then(s, Spinning(StartWait(false)));
  }
}
