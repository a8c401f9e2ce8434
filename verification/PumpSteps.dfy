/** What every action of the pump does to the fields that its promises are about: in_native_loop_, work_scheduled_, the
    armed timer, what the last DoWork() asked for, and should_quit of the runs on the stack. */
module PumpSteps {
  import opened Wrappers
  import opened PumpProtocol

  datatype Fields = Fields(
    inNative: bool,
    scheduled: bool,
    armed: Option<Time>,
    duty: Option<NextWork>,
    quits: seq<bool>)

  function View(s: State): Fields {
    Fields(s.inNative, s.scheduled, s.armed, s.duty, s.quits)
  }

  /** The action reaches an assignment that lowers in_native_loop_: the start of a loop, the return of
      ProcessNextWindowsMessage() or of DoWork() to it, or the top of another iteration.  A sent message's handler that
      returns into a peek is not one of them. */
  predicate Lowers(s: State, a: Action) {
    match a
    case Code(c) => CodeLowers(s, c)
    case Replacement(c) => c.Leave? && Nested(s) && Below(s).Loop?
    case Spinning(c) => Looping(s) && LoopLowers(s, c)
    case _ => false
  }

  predicate CodeLowers(s: State, c: OutsideAction) {
    match c
    case CallRun(connecting) => !connecting
    case Disconnect(hosted) => !hosted
    case Return => Nested(s) && Below(s).Loop? && Below(s).pc.Dispatching?
    case WorkDone(_) => Nested(s) && Below(s).Loop?
    case _ => false
  }

  predicate LoopLowers(s: State, c: LoopAction)
    requires Looping(s)
  {
    match c
    case LoopPeek(choice, _) => choice.None?
    case LoopHelper => Top(s).pc.Got? && Top(s).pc.kind.QuitMsg?
    case LoopAfterWork => !Top(s).host && Top(s).pc.Worked? && Top(s).pc.more && !ShouldQuit(s)
    case IdleDone(more, quit) => !Top(s).host && more && !quit && !ShouldQuit(s)
    case StartWait(expired) => !Top(s).host && expired
    case AfterWake(sent) => !Top(s).host && (sent || s.queue != map[])
    case _ => false
  }

  /** A loop ends: Run() returns, while a host step leaves its run as it is. */
  function Exited(v: Fields, host: bool): Fields {
    if host || v.quits == [] then v else v.(quits := v.quits[..|v.quits| - 1])
  }

  function AskedToQuit(v: Fields): Fields {
    if v.quits == [] then v else v.(quits := v.quits[|v.quits| - 1 := true])
  }

  function ViewAfter(s: State, a: Action): Fields {
    var v := View(s).(inNative := a == Handling(EnterWork) || (s.inNative && !Lowers(s, a)));
    match a
    case Caller(c) => if c.Claim? then v.(scheduled := true) else if c.Undo? then v.(scheduled := false) else v
    case Scheduling(c) => if c.TryCas? then v.(scheduled := true) else if c.UndoPost? then v.(scheduled := false) else v
    case Timing(c) =>
      if c == Install(true) && s.stack.On? && Top(s).NativeTimer? && Top(s).info.At? then
        v.(armed := Some(Top(s).info.time))
      else v
    case Replacement(c) => if c.Clear? then v.(scheduled := false) else v
    case Handling(c) =>
      (match c
       case EnterWork => if Running(s) then v else v.(scheduled := false)
       case EnterTimer =>
         if s.installed.None? then v
         else if Running(s) then v.(armed := None, duty := None)
         else v.(armed := None)
       case Work => v.(duty := None)
       case Finish => v)
    case Spinning(c) =>
      if !Looping(s) then v else
      (match c
       case LoopWork => if ShouldQuit(s) then Exited(v, Top(s).host) else v.(duty := None)
       case LoopAfterWork => if ShouldQuit(s) then Exited(v, Top(s).host) else v.(armed := None)
       case IdleDone(_, quit) =>
         if quit then Exited(AskedToQuit(v), Top(s).host)
         else if ShouldQuit(s) then Exited(v, Top(s).host)
         else v
       case _ => v)
    case Code(c) =>
      (match c
       case WorkDone(info) => v.(duty := Some(info))
       case CallScheduleDelayed(info) => v.(duty := Some(info))
       case CallRun(_) => v.(quits := v.quits + [false], duty := if Running(s) then v.duty else None)
       case Disconnect(hosted) => if hosted then Exited(v, false) else v
       case CallQuit => AskedToQuit(v)
       case _ => v)
    case _ => v
  }

  lemma RunViews(s: State, connecting: bool, t: State)
    requires EnterRun(s, connecting) == Some(t)
    ensures View(t) == ViewAfter(s, Code(CallRun(connecting)))
  {
    if connecting {} else {}
  }

  lemma DisconnectViews(s: State, hosted: bool, t: State)
    requires LeaveConnect(s, hosted) == Some(t)
    ensures View(t) == ViewAfter(s, Code(Disconnect(hosted)))
  {
    if hosted {
      assert t == EndRun(Pop(Pop(s)));
    } else {}
  }

  lemma HandlerReturnViews(s: State, t: State)
    requires ReturnToPump(s) == Some(t) && Below(s).Loop? && Below(s).pc.Dispatching?
    ensures View(t) == View(s).(inNative := false)
  {
    assert !Peeks(Below(s));
  }

  lemma PeekReturnViews(s: State, t: State)
    requires ReturnToPump(s) == Some(t) && !(Below(s).Loop? && Below(s).pc.Dispatching?)
    ensures View(t) == View(s)
  {
    if Peeks(Below(s)) {
      assert t == Pop(s);
    } else {}
  }

  lemma ReturnViews(s: State, t: State)
    requires ReturnToPump(s) == Some(t)
    ensures View(t) == ViewAfter(s, Code(Return))
  {
    if Below(s).Loop? && Below(s).pc.Dispatching? {
      HandlerReturnViews(s, t);
    } else {
      PeekReturnViews(s, t);
    }
  }

  lemma LoopAnswerViews(s: State, info: NextWork, t: State)
    requires ReturnFromWork(s, info) == Some(t) && Below(s).Loop?
    ensures View(t) == View(s).(duty := Some(info), inNative := false)
  {
  }

  lemma WorkAnswerViews(s: State, info: NextWork, t: State)
    requires ReturnFromWork(s, info) == Some(t) && Below(s) == HandleWork(HInWork)
    ensures View(t) == View(s).(duty := Some(info))
  {
    assert t == Push(PopTo(s.(duty := Some(info)), HandleWork(End)), FollowUp(info));
  }

  lemma TimerAnswerViews(s: State, info: NextWork, t: State)
    requires ReturnFromWork(s, info) == Some(t) && Below(s) == HandleTimer(HInWork)
    ensures View(t) == View(s).(duty := Some(info))
  {
    assert t == Push(PopTo(s.(duty := Some(info)), HandleTimer(End)), FollowUp(info));
  }

  lemma AfterAnswer(s: State, info: NextWork)
    requires Nested(s)
    ensures ViewAfter(s, Code(WorkDone(info)))
            == View(s).(duty := Some(info), inNative := s.inNative && !Below(s).Loop?)
  {
  }

  lemma AnswerViews(s: State, info: NextWork, t: State)
    requires ReturnFromWork(s, info) == Some(t)
    ensures View(t) == ViewAfter(s, Code(WorkDone(info)))
  {
    AfterAnswer(s, info);
    if Below(s).Loop? {
      LoopAnswerViews(s, info, t);
    } else if Below(s) == HandleWork(HInWork) {
      WorkAnswerViews(s, info, t);
    } else {
      TimerAnswerViews(s, info, t);
    }
  }

  lemma TakingViews(s: State, id: MsgId, t: State)
    requires TakeMessage(s, id) == Some(t)
    ensures View(t) == View(s)
  {
  }

  lemma DispatchToHandlerViews(s: State, t: State)
    requires DispatchMessage(s) == Some(t) && Top(s).holding.value in {HaveWork, OwnTimer}
    ensures View(t) == View(s)
  {
    if Top(s).holding.value == HaveWork {} else {}
  }

  lemma DispatchViews(s: State, t: State)
    requires DispatchMessage(s) == Some(t)
    ensures View(t) == View(s)
  {
    match Top(s).holding.value
    case HaveWork => DispatchToHandlerViews(s, t);
    case OwnTimer => DispatchToHandlerViews(s, t);
    case QuitMsg => assert t == SetTop(s, Outside(None));
    case Other => assert t == SetTop(s, Outside(None));
  }

  lemma CallsView(s: State, c: OutsideAction, t: State)
    requires c.HostStep? || c.CallSchedule? || c.CallScheduleDelayed? || c.CallQuit? || c.Look?
    requires NextOutside(s, c) == Some(t)
    ensures View(t) == ViewAfter(s, Code(c))
  {
    match c
    case HostStep(sent) => assert EnterHostStep(s, sent) == Some(t);
    case CallSchedule => assert t == Push(s, Schedule(Cas));
    case CallScheduleDelayed(info) => assert ScheduleDelayed(s, info) == Some(t);
    case CallQuit =>
    case Look =>
  }

  lemma CodeViews(s: State, c: OutsideAction, t: State)
    requires NextOutside(s, c) == Some(t)
    ensures View(t) == ViewAfter(s, Code(c))
  {
    match c
    case CallRun(connecting) => RunViews(s, connecting, t);
    case Disconnect(hosted) => DisconnectViews(s, hosted, t);
    case Return => ReturnViews(s, t);
    case WorkDone(info) => AnswerViews(s, info, t);
    case Take(id) => TakingViews(s, id, t);
    case DispatchTaken => DispatchViews(s, t);
    case HostStep(_) => CallsView(s, c, t);
    case CallSchedule => CallsView(s, c, t);
    case CallScheduleDelayed(_) => CallsView(s, c, t);
    case CallQuit => CallsView(s, c, t);
    case Look => CallsView(s, c, t);
  }

  lemma PeekViews(s: State, choice: Option<MsgId>, sent: bool, t: State)
    requires PeekMessage(s, choice, sent) == Some(t)
    ensures View(t) == ViewAfter(s, Spinning(LoopPeek(choice, sent)))
  {
  }

  lemma PumpMessageViews(s: State, t: State)
    requires HandleMessage(s) == Some(t) && (Top(s).pc.kind == QuitMsg || Top(s).pc.kind == HaveWork)
    ensures View(t) == if Top(s).pc.kind == QuitMsg then View(s).(inNative := false) else View(s)
  {
    if Top(s).pc.kind == QuitMsg {} else {}
  }

  lemma NativeMessageViews(s: State, t: State)
    requires HandleMessage(s) == Some(t) && (Top(s).pc.kind == OwnTimer || Top(s).pc.kind == Other)
    ensures View(t) == View(s)
  {
    if Top(s).pc.kind == OwnTimer {} else {}
  }

  lemma HelperViews(s: State, t: State)
    requires HandleMessage(s) == Some(t)
    ensures View(t) == if Top(s).pc.kind == QuitMsg then View(s).(inNative := false) else View(s)
  {
    if Top(s).pc.kind == QuitMsg || Top(s).pc.kind == HaveWork {
      PumpMessageViews(s, t);
    } else {
      NativeMessageViews(s, t);
    }
  }

  lemma ExitViews(s: State, host: bool)
    requires s.stack.On? && Running(s)
    ensures View(ExitLoop(s, host)) == Exited(View(s), host)
  {
    if host {} else {}
  }

  lemma StartViews(s: State, t: State)
    requires StartWork(s) == Some(t)
    ensures View(t) == ViewAfter(s, Spinning(LoopWork))
  {
    if ShouldQuit(s) {
      ExitViews(s, Top(s).host);
    } else {
      assert t == BeginWork(s, Loop(Top(s).host, InWork(Top(s).pc.more)));
    }
  }

  lemma AgainViews(s: State, host: bool)
    requires s.stack.On?
    ensures View(Again(s, host)) == if host then View(s) else View(s).(inNative := false)
  {
    if host {} else {}
  }

  lemma TurnEndsViews(s: State, t: State)
    requires AfterWork(s) == Some(t) && !ShouldQuit(s) && Top(s).pc.more
    ensures View(t) == ViewAfter(s, Spinning(LoopAfterWork))
  {
    AgainViews(s.(installed := None, armed := None), Top(s).host);
  }

  lemma IdleBeginsViews(s: State, t: State)
    requires AfterWork(s) == Some(t) && !ShouldQuit(s) && !Top(s).pc.more
    ensures View(t) == ViewAfter(s, Spinning(LoopAfterWork))
  {
    assert t == SetTop(s.(installed := None, armed := None), Loop(Top(s).host, InIdle(Top(s).pc.info)));
  }

  lemma AfterWorkViews(s: State, t: State)
    requires AfterWork(s) == Some(t)
    ensures View(t) == ViewAfter(s, Spinning(LoopAfterWork))
  {
    if ShouldQuit(s) {
      ExitViews(s, Top(s).host);
    } else if Top(s).pc.more {
      TurnEndsViews(s, t);
    } else {
      IdleBeginsViews(s, t);
    }
  }

  lemma IdleQuitViews(s: State, more: bool, quit: bool, t: State)
    requires AfterIdle(s, more, quit) == Some(t) && (quit || ShouldQuit(s))
    ensures View(t) == ViewAfter(s, Spinning(IdleDone(more, quit)))
  {
    var u := if quit then s.(quits := s.quits[|s.quits| - 1 := true]) else s;
    ExitViews(u, Top(s).host);
    assert ShouldQuit(u);
  }

  lemma IdleViews(s: State, more: bool, quit: bool, t: State)
    requires AfterIdle(s, more, quit) == Some(t)
    ensures View(t) == ViewAfter(s, Spinning(IdleDone(more, quit)))
  {
    AgainViews(s, Top(s).host);
    if quit || ShouldQuit(s) {
      IdleQuitViews(s, more, quit, t);
    } else if more {
    } else {
    }
  }

  lemma WaitViews(s: State, expired: bool, t: State)
    requires BeginWait(s, expired) == Some(t)
    ensures View(t) == ViewAfter(s, Spinning(StartWait(expired)))
  {
    AgainViews(s, Top(s).host);
    if expired {} else {}
  }

  lemma WakingViews(s: State, timeout: bool, t: State)
    requires EndWait(s, timeout) == Some(t)
    ensures View(t) == View(s)
  {
  }

  lemma LookViews(s: State, sent: bool, t: State)
    requires LookForMessage(s, sent) == Some(t)
    ensures View(t) == ViewAfter(s, Spinning(AfterWake(sent)))
  {
    AgainViews(s.(seen := s.queue.Keys), Top(s).host);
    if sent || s.queue != map[] {} else {}
  }

  lemma LoopViews(s: State, c: LoopAction, t: State)
    requires NextLoop(s, c) == Some(t)
    ensures View(t) == ViewAfter(s, Spinning(c))
  {
    match c
    case LoopPeek(choice, sent) => PeekViews(s, choice, sent, t);
    case LoopHelper => HelperViews(s, t);
    case LoopWork => StartViews(s, t);
    case LoopAfterWork => AfterWorkViews(s, t);
    case IdleSchedule => assert t == Push(s, Schedule(Cas));
    case IdleDone(more, quit) => IdleViews(s, more, quit, t);
    case StartWait(expired) => WaitViews(s, expired, t);
    case Woke(timeout) => WakingViews(s, timeout, t);
    case AfterWake(sent) => LookViews(s, sent, t);
  }

  lemma ReturnHandlerViews(s: State)
    requires Nested(s)
    ensures View(ReturnHandler(s)) == View(s)
  {
    if Below(s) == Replace(Timer) {} else {}
  }

  lemma TimerHandlerViews(s: State, t: State)
    requires BeginHandleTimer(s) == Some(t)
    ensures View(t) == ViewAfter(s, Handling(EnterTimer))
  {
    var u := s.(installed := None, armed := None);
    ReturnHandlerViews(s);
    ReturnHandlerViews(u);
    if s.installed.None? {
    } else if Running(s) {
      assert t == BeginWork(u, HandleTimer(HInWork));
    } else {
      assert t == ReturnHandler(u);
    }
  }

  lemma FinishViews(s: State, t: State)
    requires NextHandler(s, Finish) == Some(t)
    ensures View(t) == View(s)
  {
    ReturnHandlerViews(s);
    if Top(s) == HandleWork(End) {} else {}
  }

  lemma BeginWorkViews(s: State, t: State)
    requires BeginHandleWork(s) == Some(t)
    ensures View(t) == if Running(s) then View(s).(inNative := true) else View(s).(inNative := true, scheduled := false)
  {
    if Running(s) {} else {}
  }

  lemma HandlerViews(s: State, c: HandlerAction, t: State)
    requires NextHandler(s, c) == Some(t)
    ensures View(t) == ViewAfter(s, Handling(c))
  {
    match c
    case EnterWork => BeginWorkViews(s, t);
    case EnterTimer => TimerHandlerViews(s, t);
    case Work => assert t == BeginWork(s, HandleWork(HInWork));
    case Finish => FinishViews(s, t);
  }

  lemma BranchOnTimerViews(s: State, t: State)
    requires BranchOnReplacement(s) == Some(t) && Top(s).rpc.msg == Some(OwnTimer)
    ensures View(t) == View(s)
  {
  }

  lemma BranchOnWorkViews(s: State, t: State)
    requires BranchOnReplacement(s) == Some(t) && Top(s).rpc.msg in {Some(HaveWork), Some(Other)}
    ensures View(t) == View(s)
  {
  }

  lemma BranchToResultViews(s: State, t: State)
    requires BranchOnReplacement(s) == Some(t) && Top(s).rpc.msg in {None, Some(QuitMsg)}
    ensures View(t) == View(s)
  {
  }

  lemma BranchViews(s: State, t: State)
    requires BranchOnReplacement(s) == Some(t)
    ensures View(t) == View(s)
  {
    match Top(s).rpc.msg
    case Some(OwnTimer) => BranchOnTimerViews(s, t);
    case None => BranchToResultViews(s, t);
    case Some(QuitMsg) => BranchToResultViews(s, t);
    case Some(_) => BranchOnWorkViews(s, t);
  }

  lemma ReplacedPeekViews(s: State, choice: Option<MsgId>, t: State)
    requires PeekReplacement(s, choice) == Some(t)
    ensures View(t) == View(s)
  {
    if choice.None? {} else {}
  }

  lemma LeavingLoopViews(s: State, t: State)
    requires LeaveReplacement(s) == Some(t) && Below(s).Loop?
    ensures View(t) == View(s).(inNative := false)
  {
  }

  lemma LeavingHandlerViews(s: State, t: State)
    requires LeaveReplacement(s) == Some(t) && !Below(s).Loop?
    ensures View(t) == View(s)
  {
    assert t == PopTo(s, HandleWork(HReplaced));
  }

  lemma LeavingViews(s: State, t: State)
    requires LeaveReplacement(s) == Some(t)
    ensures View(t) == if Below(s).Loop? then View(s).(inNative := false) else View(s)
  {
    if Below(s).Loop? {
      LeavingLoopViews(s, t);
    } else {
      LeavingHandlerViews(s, t);
    }
  }

  lemma ReplacementViews(s: State, c: ReplaceAction, t: State)
    requires NextReplace(s, c) == Some(t)
    ensures View(t) == ViewAfter(s, Replacement(c))
  {
    match c
    case PeekOne(choice) => ReplacedPeekViews(s, choice, t);
    case Clear => assert t == SetTop(s, Replace(Cleared(Top(s).rpc.msg))).(scheduled := false);
    case Branch => BranchViews(s, t);
    case Help => assert t == Push(SetTop(s, Replace(RDispatching)), Outside(None));
    case Leave => LeavingViews(s, t);
  }

  lemma CallerViews(s: State, c: CallerAction, t: State)
    requires NextCaller(s, c) == Some(t)
    ensures View(t) == ViewAfter(s, Caller(c))
  {
    match c
    case Claim(_) => if s.scheduled {} else {}
    case Post(_, ok) => if ok {} else {}
    case Undo(_) =>
  }

  lemma CasViews(s: State, t: State)
    requires NextSchedule(s, TryCas) == Some(t)
    ensures View(t) == View(s).(scheduled := true)
  {
    if s.scheduled {} else {}
  }

  lemma PostViews(s: State, ok: bool, t: State)
    requires NextSchedule(s, TryPost(ok)) == Some(t)
    ensures View(t) == View(s)
  {
    if ok {} else {}
  }

  lemma SchedulingViews(s: State, c: ScheduleAction, t: State)
    requires NextSchedule(s, c) == Some(t)
    ensures View(t) == ViewAfter(s, Scheduling(c))
  {
    match c
    case TryCas => CasViews(s, t);
    case TryPost(ok) => PostViews(s, ok, t);
    case UndoPost =>
  }

  lemma TimingViews(s: State, c: TimerAction, t: State)
    requires NextTimer(s, c) == Some(t)
    ensures View(t) == ViewAfter(s, Timing(c))
  {
    match c
    case Keep =>
    case RunNow =>
    case Install(ok) => if ok {} else {}
  }

  lemma OsViews(s: State, c: OsAction, t: State)
    requires NextOs(s, c) == Some(t)
    ensures View(t) == View(s)
  {
    match c
    case Deliver(_) =>
    case TimerFires =>
  }

  lemma ViewStep(s: State, a: Action, t: State)
    requires Next(s, a) == Some(t)
    ensures View(t) == ViewAfter(s, a)
  {
    match a
    case Caller(c) => CallerViews(s, c, t);
    case Os(c) => OsViews(s, c, t);
    case Code(c) => CodeViews(s, c, t);
    case SentMessage => assert t == Push(s, Outside(None));
    case Scheduling(c) => SchedulingViews(s, c, t);
    case Timing(c) => TimingViews(s, c, t);
    case Replacement(c) => ReplacementViews(s, c, t);
    case Handling(c) => HandlerViews(s, c, t);
    case Spinning(c) => LoopViews(s, c, t);
  }
}
