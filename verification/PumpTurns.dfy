/** Which turns of DoRunLoop() come to idle work: those that handle nothing and whose DoWork() asks for no other. */
module PumpTurns {
  import opened Wrappers
  import opened PumpProtocol

  /** The turn's DoWork() answers `info` and the loop goes on from there. */
  function WorkSteps(info: NextWork): seq<Action> {
    [Spinning(LoopWork), Code(WorkDone(info)), Spinning(LoopAfterWork)]
  }

  /** The loop comes to another turn; a host step returns to the host. */
  predicate GoesRound(s: State, actions: seq<Action>, host: bool, rest: Stack) {
    var t := RunFrom(s, actions);
    t.Some? && t.value.stack == if host then rest else On(Loop(false, Peek), rest)
  }

  predicate GoesIdle(s: State, actions: seq<Action>, host: bool, info: NextWork, rest: Stack) {
    var t := RunFrom(s, actions);
    t.Some? && t.value.stack == On(Loop(host, InIdle(info)), rest)
  }

  lemma FirstOf(s: State, actions: seq<Action>, t: State)
    requires actions != [] && Next(s, actions[0]) == Some(t)
    ensures RunFrom(s, actions) == RunFrom(t, actions[1..])
  {
  }

  lemma WorkBegins(s: State) returns (t: State)
    requires Looping(s) && Top(s).pc.Handled? && !ShouldQuit(s)
    ensures Next(s, Spinning(LoopWork)) == Some(t) && !ShouldQuit(t) && Running(t)
    ensures t.stack == On(Outside(None), On(Loop(Top(s).host, InWork(Top(s).pc.more)), s.stack.rest))
  {
    t := BeginWork(s, Loop(Top(s).host, InWork(Top(s).pc.more)));
  }

  lemma WorkAnswers(s: State, host: bool, more: bool, rest: Stack, info: NextWork) returns (t: State)
    requires s.stack == On(Outside(None), On(Loop(host, InWork(more)), rest)) && !ShouldQuit(s) && Running(s)
    ensures Next(s, Code(WorkDone(info))) == Some(t) && !ShouldQuit(t) && Running(t)
    ensures t.stack == On(Loop(host, Worked(info, more || info.Immediate?)), rest)
  {
    t := Next(s, Code(WorkDone(info))).value;
    if info.Immediate? {} else {}
  }

  lemma TurnEnds(s: State, host: bool, more: bool, rest: Stack, info: NextWork) returns (t: State)
    requires s.stack == On(Loop(host, Worked(info, more)), rest) && !ShouldQuit(s) && Running(s)
    ensures Next(s, Spinning(LoopAfterWork)) == Some(t)
    ensures t.stack == if !more then On(Loop(host, InIdle(info)), rest)
                       else if host then rest else On(Loop(false, Peek), rest)
  {
    t := Next(s, Spinning(LoopAfterWork)).value;
    if more {
      if host {} else {}
    } else {}
  }

  /** From handled messages on: another turn comes at once if there was one, or if DoWork() wants it. */
  lemma FromHandled(s: State, info: NextWork)
    requires Looping(s) && Top(s).pc.Handled? && !ShouldQuit(s)
    ensures if Top(s).pc.more || info.Immediate? then GoesRound(s, WorkSteps(info), Top(s).host, s.stack.rest)
            else GoesIdle(s, WorkSteps(info), Top(s).host, info, s.stack.rest)
  {
    var host, more, rest := Top(s).host, Top(s).pc.more, s.stack.rest;
    var t := WorkBegins(s);
    FirstOf(s, WorkSteps(info), t);
    var u := WorkAnswers(t, host, more, rest, info);
    FirstOf(t, WorkSteps(info)[1..], u);
    var v := TurnEnds(u, host, more || info.Immediate?, rest, info);
    FirstOf(u, WorkSteps(info)[1..][1..], v);
  }

  lemma OneBefore(s: State, a: Action, t: State, info: NextWork)
    requires Next(s, a) == Some(t)
    ensures RunFrom(s, [a] + WorkSteps(info)) == RunFrom(t, WorkSteps(info))
  {
    FirstOf(s, [a] + WorkSteps(info), t);
    assert ([a] + WorkSteps(info))[1..] == WorkSteps(info);
  }

  /** After a dispatched message another turn comes, whatever DoWork() answers. */
  lemma DispatchGoesRound(s: State, host: bool, rest: Stack, info: NextWork)
    requires s.stack == On(Outside(None), On(Loop(host, Dispatching), rest)) && Running(s) && !ShouldQuit(s)
    ensures GoesRound(s, [Code(Return)] + WorkSteps(info), host, rest)
  {
    var t := PopTo(s, Loop(host, Handled(true))).(inNative := false);
    assert Next(s, Code(Return)) == Some(t);
    OneBefore(s, Code(Return), t, info);
    FromHandled(t, info);
  }

  /** So it does after a kMsgHaveWork whose replacement was handled, or beside which a sent message ran; otherwise the
      turn goes idle unless DoWork() wants another. */
  lemma ReplacementDecides(s: State, host: bool, sent: bool, result: bool, rest: Stack, info: NextWork)
    requires s.stack == On(Replace(Done(result)), On(Loop(host, LoopPc.Replacing(sent)), rest))
    requires Running(s) && !ShouldQuit(s)
    ensures var actions := [Replacement(Leave)] + WorkSteps(info);
            if sent || result || info.Immediate? then GoesRound(s, actions, host, rest)
            else GoesIdle(s, actions, host, info, rest)
  {
    var t := PopTo(s, Loop(host, Handled(sent || result))).(inNative := false);
    assert Next(s, Replacement(Leave)) == Some(t);
    OneBefore(s, Replacement(Leave), t, info);
    FromHandled(t, info);
  }

  /** A peek that finds nothing goes idle, unless a sent message ran or DoWork() wants another turn. */
  lemma EmptyPeekDecides(s: State, sent: bool, info: NextWork)
    requires Looping(s) && Top(s) == Loop(false, Peek) && !ShouldQuit(s) && s.queue == map[]
    ensures var actions := [Spinning(LoopPeek(None, sent))] + WorkSteps(info);
            if sent || info.Immediate? then GoesRound(s, actions, false, s.stack.rest)
            else GoesIdle(s, actions, false, info, s.stack.rest)
  {
    var t := SetTop(s, Loop(false, Handled(sent))).(seen := {}, inNative := false);
    assert Next(s, Spinning(LoopPeek(None, sent))) == Some(t);
    OneBefore(s, Spinning(LoopPeek(None, sent)), t, info);
    FromHandled(t, info);
  }
}
