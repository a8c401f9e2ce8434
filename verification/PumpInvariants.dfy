/** What every action of the pump's protocol keeps. */
module PumpInvariants {
  import opened Wrappers
  import opened PumpProtocol

  // ----- The single token behind work_scheduled_ -----

  /** Frames that won the compare-and-swap and have not posted, or that dequeued kMsgHaveWork and have not
      cleared work_scheduled_. */
  predicate Carries(f: Frame) {
    || f == Outside(Some(HaveWork))
    || (f.Loop? && f.pc.Got? && f.pc.kind == HaveWork)
    || f == HandleWork(Begin)
    || (f.Replace? && (f.rpc.Peeking? || f.rpc.Have?))
    || f == Schedule(Posting)
    || f == Schedule(Undoing)
  }

  function Weight(f: Frame): nat {
    if Carries(f) then 1 else 0
  }

  function InFrames(stack: Stack): nat {
    match stack
    case Bottom => 0
    case On(f, rest) => Weight(f) + InFrames(rest)
  }

  /** The kMsgHaveWork messages in the queue. */
  function HaveWorks(queue: map<MsgId, Kind>): set<MsgId> {
    set id | id in queue && queue[id] == HaveWork
  }

  /** Every place a promise to clear work_scheduled_ can be. */
  function Tokens(s: State): nat {
    |s.callers| + |HaveWorks(s.queue)| + InFrames(s.stack)
  }

  /** work_scheduled_ is set exactly when one token exists, and there are never two. */
  predicate OneToken(s: State) {
    Tokens(s) == if s.scheduled then 1 else 0
  }

  // ----- The shape of the UI thread's stack -----

  /** A frame `f` with `g` directly above it. */
  predicate Calls(f: Frame, g: Frame) {
    match f
    case Outside(holding) =>
      holding.None? && (g.Loop? || g.HandleWork? || g.HandleTimer? || g.Schedule? || g.NativeTimer?)
    case Loop(host, pc) =>
      (match pc
       case Connecting => g.Outside? && !host
       case Peek => g.Outside? && !host
       case Replacing(_) => g.Replace?
       case Dispatching => g.Outside?
       case InWork(_) => g.Outside?
       case InIdle(_) => g.Schedule?
       case Woken(_) => g.Outside?
       case _ => false)
    case HandleWork(pc) =>
      (match pc
       case HReplacing => g.Replace?
       case HInWork => g.Outside?
       case End => g.Schedule? || g.NativeTimer?
       case _ => false)
    case HandleTimer(pc) =>
      (match pc
       case HInWork => g.Outside?
       case End => g.Schedule? || g.NativeTimer?
       case _ => false)
    case Replace(pc) =>
      (match pc
       case Peeking => g.Outside?
       case Timer => g.HandleTimer?
       case Dispatch => g.Schedule?
       case RDispatching => g.Outside?
       case _ => false)
    case Schedule(_) => false
    case NativeTimer(_) => false
  }

  /** Facts a frame carries by itself. */
  predicate FrameOk(f: Frame) {
    match f
    case Outside(_) => true
    case Loop(host, pc) => LoopOk(host, pc)
    case HandleWork(_) => true
    case HandleTimer(pc) => !pc.HReplacing? && !pc.HReplaced?
    case Replace(pc) =>
      (match pc
       case Have(msg) => msg != Some(HaveWork)
       case Cleared(msg) => msg != Some(HaveWork)
       case _ => true)
    case Schedule(_) => true
    case NativeTimer(info) => !info.Immediate?
  }

  predicate LoopOk(host: bool, pc: LoopPc) {
    match pc
    case Connecting => !host
    case Peek => !host
    case Worked(info, more) => info.Immediate? ==> more
    case InIdle(info) => !info.Immediate?
    case Wait(info, _) => !info.Immediate?
    case Blocked(info, _) => !info.Immediate?
    case Woken(info) => !info.Immediate?
    case _ => true
  }

  function RunOf(f: Frame): nat {
    if f.Loop? && !f.host then 1 else 0
  }

  /** The number of Run() invocations on a stack. */
  function Runs(stack: Stack): nat {
    match stack
    case Bottom => 0
    case On(f, rest) => RunOf(f) + Runs(rest)
  }

  /** Frames whose code dereferences run_state_. */
  predicate NeedsRun(f: Frame) {
    || f.Loop?
    || f.Replace?
    || (f.HandleWork? && !f.hpc.Begin?)
    || (f.HandleTimer? && !f.hpc.Begin?)
  }

  /** Every frame was called by the one below it, and runs inside a Run() if it needs one. */
  predicate Shape(stack: Stack) {
    && stack.On?
    && FrameOk(stack.top)
    && (NeedsRun(stack.top) ==> Runs(stack) > 0)
    && (if stack.rest.Bottom? then stack.top.Outside? else Calls(stack.rest.top, stack.top) && Shape(stack.rest))
  }

  // ----- The queue, the timer and the loop's own flags -----

  ghost predicate QueueIds(s: State) {
    && (forall id :: id in s.queue ==> id < s.next)
    && (forall id :: id in s.seen ==> id < s.next)
  }

  /** A wait that ignores messages it has seen only runs when there are none. */
  ghost predicate WaitsForNew(s: State) {
    s.stack.On? && Top(s).Loop?
    && ((Top(s).pc.Wait? && !Top(s).pc.available) || (Top(s).pc.Blocked? && !Top(s).pc.available))
    ==> forall id :: id in s.queue ==> id !in s.seen
  }

  /** From a handled message to its idle work the loop is in control: it left the native loop and killed the timer.  It
      begins a wait only if its run goes on. */
  predicate LoopInControl(s: State) {
    match s.stack
    case Bottom => true
    case On(f, rest) =>
      if f.Loop? then
        match f.pc
        case Handled(_) => !s.inNative
        case Worked(_, _) => !s.inNative
        case InIdle(_) => !s.inNative && s.installed.None?
        case Wait(_, available) => available ==> !ShouldQuit(s)
        case Blocked(_, available) => available ==> !ShouldQuit(s)
        case _ => true
      else
        f.Schedule? && rest.On? && rest.top.Loop? && rest.top.pc.InIdle? ==> !s.inNative && s.installed.None?
  }

  // ----- Requests and deadlines -----

  /** From here DoWork() is called before anything can block. */
  predicate Owes(s: State) {
    s.stack.On? &&
    match Top(s)
    case Loop(_, Handled(_)) => true
    case HandleWork(HReplaced) => true
    case Replace(Cleared(_)) => true
    case Replace(Done(_)) => true
    case Schedule(Cas) => true
    case HandleTimer(Begin) => Nested(s) && Below(s) == Replace(Timer)
    case _ => false
  }

  predicate RequestsKept(s: State) {
    s.pending ==> s.scheduled || s.dropped || Owes(s)
  }

  predicate Covered(s: State) {
    match s.duty
    case None => true
    case Some(Immediate) => s.scheduled
    case Some(At(t)) => s.scheduled || s.installed == Some(t)
    case Some(Never) => true
  }

  /** The native loop has, or is about to get, control back; or a sent message run by a peek may have entered one. */
  predicate NativeControl(s: State) {
    s.stack.On? &&
    (|| Top(s).Outside?
     || (Top(s).Loop? && MayFollowNative(Top(s).pc))
     || (Top(s) == HandleTimer(Begin) && Nested(s) && Below(s).Outside?))
  }

  predicate MayFollowNative(pc: LoopPc) {
    pc.Peek? || pc.Got? || pc.Wait? || pc.Blocked? || pc.Woken?
  }

  predicate DeadlinesKept(s: State) {
    match s.stack
    case Bottom => true
    case On(f, _) =>
      if f == HandleWork(End) || f == HandleTimer(End) then s.failed || Covered(s)
      else if NativeControl(s) then s.inNative && Running(s) ==> s.failed || Covered(s)
      else if f == Replace(Dispatch) then s.failed || s.scheduled
      else f.NativeTimer? ==> s.duty == Some(f.info) && (Nested(s) && Below(s).Outside? ==> s.inNative)
  }

  /** The stack is well formed and run_state_ is where its frames expect it. */
  predicate Structure(s: State) {
    Shape(s.stack) && |s.quits| == Runs(s.stack)
  }

  ghost predicate Counts(s: State) {
    OneToken(s) && QueueIds(s)
  }

  ghost predicate Promises(s: State) {
    && WaitsForNew(s)
    && s.installed == s.armed
    && LoopInControl(s)
    && RequestsKept(s)
    && DeadlinesKept(s)
  }

  ghost predicate Inv(s: State) {
    match s.stack
    case Bottom => false
    case On(_, _) => Structure(s) && Counts(s) && Promises(s)
  }

  // ----- Counting tokens -----

  lemma CountAdded(queue: map<MsgId, Kind>, id: MsgId, k: Kind)
    requires id !in queue
    ensures |HaveWorks(queue[id := k])| == |HaveWorks(queue)| + (if k == HaveWork then 1 else 0)
  {
    assert HaveWorks(queue[id := k]) == if k == HaveWork then HaveWorks(queue) + {id} else HaveWorks(queue);
  }

  lemma CountRemoved(queue: map<MsgId, Kind>, id: MsgId)
    requires id in queue
    ensures |HaveWorks(queue - {id})| == |HaveWorks(queue)| - (if queue[id] == HaveWork then 1 else 0)
  {
    assert queue == (queue - {id})[id := queue[id]];
    CountAdded(queue - {id}, id, queue[id]);
  }

  lemma CallerGone(callers: map<Tid, CallerPc>, t: Tid)
    requires t in callers
    ensures |callers - {t}| == |callers| - 1
  {
    assert (callers - {t}).Keys == callers.Keys - {t};
  }

  /** The two innermost frames, unfolded. */
  lemma TwoDeep(stack: Stack)
    requires stack.On? && stack.rest.On?
    ensures InFrames(stack) == Weight(stack.top) + Weight(stack.rest.top) + InFrames(stack.rest.rest)
    ensures Runs(stack) == RunOf(stack.top) + RunOf(stack.rest.top) + Runs(stack.rest.rest)
    ensures Shape(stack) <==>
            && FrameOk(stack.top) && (NeedsRun(stack.top) ==> Runs(stack) > 0)
            && Calls(stack.rest.top, stack.top)
            && FrameOk(stack.rest.top) && (NeedsRun(stack.rest.top) ==> Runs(stack.rest) > 0)
            && if stack.rest.rest.Bottom? then stack.rest.top.Outside?
               else Calls(stack.rest.rest.top, stack.rest.top) && Shape(stack.rest.rest)
  {
  }

  lemma CarryingTop(s: State)
    requires OneToken(s) && s.stack.On? && Carries(Top(s))
    ensures s.scheduled && HaveWorks(s.queue) == {} && s.callers == map[]
  {
  }

  // ----- Calls and returns -----

  /** Frames of the same function: whoever may call one may call the other. */
  predicate SameCode(f: Frame, g: Frame) {
    match f
    case Outside(_) => g.Outside?
    case Loop(host, _) => g.Loop? && g.host == host
    case HandleWork(_) => g.HandleWork?
    case HandleTimer(_) => g.HandleTimer?
    case Replace(_) => g.Replace?
    case Schedule(_) => g.Schedule?
    case NativeTimer(_) => g.NativeTimer?
  }

  ghost predicate Solid(s: State) {
    Structure(s) && OneToken(s)
  }

  /** The running code moves on to `g` and calls `f`. */
  lemma Calling(s: State, g: Frame, f: Frame)
    requires Solid(s) && s.stack.On? && SameCode(g, Top(s)) && Calls(g, f)
    requires FrameOk(f) && FrameOk(g) && RunOf(f) == 0 && (NeedsRun(f) || NeedsRun(g) ==> Running(s))
    requires Weight(f) + Weight(g) == Weight(Top(s))
    ensures Solid(Push(SetTop(s, g), f))
  {
    TwoDeep(Push(SetTop(s, g), f).stack);
  }

  /** The running code returns to its caller, which moves on to `f`. */
  lemma Returning(s: State, f: Frame)
    requires Solid(s) && Nested(s) && SameCode(f, Below(s)) && RunOf(Top(s)) == 0
    requires FrameOk(f) && (NeedsRun(f) ==> NeedsRun(Below(s)))
    requires Weight(f) == Weight(Top(s)) + Weight(Below(s))
    ensures Solid(PopTo(s, f))
  {
    TwoDeep(s.stack);
  }

  /** The actions that may void a promise of ScheduleWork(): a failed post is undone, kMsgHaveWork arrives outside
      Run(), or a loop quits. */
  predicate MayVoid(s: State, a: Action) {
    match a
    case Caller(c) => c.Undo?
    case Scheduling(c) => c.UndoPost?
    case Handling(c) => c.EnterWork? && !Running(s)
    case Spinning(c) => LoopMayVoid(s, c)
    case _ => false
  }

  predicate LoopMayVoid(s: State, c: LoopAction) {
    match c
    case LoopWork => ShouldQuit(s)
    case LoopAfterWork => ShouldQuit(s)
    case IdleDone(_, quit) => quit || ShouldQuit(s)
    case _ => false
  }

  // ----- Every action keeps the invariant -----

  lemma ClaimKeeps(s: State, c: Tid, t: State)
    requires Inv(s) && NextCaller(s, Claim(c)) == Some(t)
    ensures Inv(t)
    ensures t.dropped ==> s.dropped
  {
    if !s.scheduled {
      assert t == s.(pending := true, dropped := false, scheduled := true, callers := s.callers[c := Won]);
    }
  }

  lemma PostKeeps(s: State, c: Tid, ok: bool, t: State)
    requires Inv(s) && NextCaller(s, Post(c, ok)) == Some(t)
    ensures Inv(t)
    ensures t.dropped ==> s.dropped
  {
    if ok {
      CallerGone(s.callers, c);
      CountAdded(s.queue, s.next, HaveWork);
      assert t == Enqueue(s, HaveWork).(callers := s.callers - {c});
    } else {
      assert t == s.(callers := s.callers[c := PostFailed]);
    }
  }

  lemma UndoKeeps(s: State, c: Tid, t: State)
    requires Inv(s) && NextCaller(s, Undo(c)) == Some(t)
    ensures Inv(t)
  {
    CallerGone(s.callers, c);
    assert t == Unschedule(s.(callers := s.callers - {c}));
  }

  lemma CallerKeeps(s: State, a: CallerAction, t: State)
    requires Inv(s) && NextCaller(s, a) == Some(t)
    ensures Inv(t)
    ensures t.dropped ==> s.dropped || a.Undo?
  {
    match a
    case Claim(c) => ClaimKeeps(s, c, t);
    case Post(c, ok) => PostKeeps(s, c, ok, t);
    case Undo(c) => UndoKeeps(s, c, t);
  }

  lemma OsKeeps(s: State, a: OsAction, t: State)
    requires Inv(s) && NextOs(s, a) == Some(t)
    ensures Inv(t)
    ensures t.dropped ==> s.dropped
  {
    CountAdded(s.queue, s.next, if a.Deliver? then a.kind else OwnTimer);
  }

  lemma SentKeeps(s: State, t: State)
    requires Inv(s) && NextSent(s) == Some(t)
    ensures Inv(t)
    ensures t.dropped ==> s.dropped
  {
    if Carries(Top(s)) { CarryingTop(s); }
    assert t == Push(s, Outside(None));
  }

  lemma CasKeeps(s: State, t: State)
    requires Inv(s) && NextSchedule(s, TryCas) == Some(t)
    ensures Inv(t)
    ensures t.dropped ==> s.dropped
  {
    if s.scheduled { assert t == Pop(s.(pending := true)); }
    else { assert t == SetTop(s, Schedule(Posting)).(pending := true, dropped := false, scheduled := true); }
  }

  lemma UiPostKeeps(s: State, ok: bool, t: State)
    requires Inv(s) && NextSchedule(s, TryPost(ok)) == Some(t)
    ensures Inv(t)
    ensures t.dropped ==> s.dropped
  {
    CarryingTop(s);
    if ok {
      CountAdded(s.queue, s.next, HaveWork);
      assert t == Pop(Enqueue(s, HaveWork));
    } else {
      assert t == SetTop(s, Schedule(Undoing));
    }
  }

  lemma UiUndoKeeps(s: State, t: State)
    requires Inv(s) && NextSchedule(s, UndoPost) == Some(t)
    ensures Inv(t)
  {
    assert t == Pop(Unschedule(s));
  }

  lemma SchedulingKeeps(s: State, a: ScheduleAction, t: State)
    requires Inv(s) && NextSchedule(s, a) == Some(t)
    ensures Inv(t)
    ensures t.dropped ==> s.dropped || a.UndoPost?
  {
    match a
    case TryCas => CasKeeps(s, t);
    case TryPost(ok) => UiPostKeeps(s, ok, t);
    case UndoPost => UiUndoKeeps(s, t);
  }

  /** ScheduleNativeTimer() returns with `u`: the deadline is covered, or SetTimer() failed. */
  lemma TimerReturns(s: State, u: State)
    requires Inv(s) && s.stack.On? && Top(s).NativeTimer?
    requires u == s.(installed := u.installed, armed := u.installed, failed := u.failed)
    requires u.failed || Covered(u)
    ensures Inv(Pop(u))
  {
  }

  lemma InstallKeeps(s: State, ok: bool, t: State)
    requires Inv(s) && NextTimer(s, Install(ok)) == Some(t)
    ensures Inv(t)
    ensures t.dropped ==> s.dropped
  {
    if ok {
      TimerReturns(s, s.(installed := Some(Top(s).info.time), armed := Some(Top(s).info.time)));
    } else {
      TimerReturns(s, s.(failed := true));
    }
  }

  lemma RunNowKeeps(s: State, t: State)
    requires Inv(s) && NextTimer(s, RunNow) == Some(t)
    ensures Inv(t)
    ensures t.dropped ==> s.dropped
  {
    assert t == SetTop(s, Schedule(Cas));
  }

  lemma TimingKeeps(s: State, a: TimerAction, t: State)
    requires Inv(s) && NextTimer(s, a) == Some(t)
    ensures Inv(t)
    ensures t.dropped ==> s.dropped
  {
    match a
    case Keep => TimerReturns(s, s);
    case RunNow => RunNowKeeps(s, t);
    case Install(ok) => InstallKeeps(s, ok, t);
  }

  // ----- ProcessPumpReplacementMessage() -----

  lemma PeekReplacementKeeps(s: State, choice: Option<MsgId>, t: State)
    requires Inv(s) && PeekReplacement(s, choice) == Some(t)
    ensures Inv(t)
    ensures t.dropped ==> s.dropped
  {
    if choice.None? {
      assert t == SetTop(s, Replace(Have(None))).(seen := {});
    } else {
      CarryingTop(s);
      CountRemoved(s.queue, choice.value);
      assert choice.value !in HaveWorks(s.queue);
      assert t == Dequeue(SetTop(s, Replace(Have(Some(s.queue[choice.value])))), choice.value);
    }
  }

  lemma BranchCallKeeps(s: State, t: State)
    requires Inv(s) && BranchOnReplacement(s) == Some(t)
    requires Top(s).rpc.msg == Some(OwnTimer) || Top(s).rpc.msg == Some(Other)
    ensures Inv(t)
    ensures t.dropped ==> s.dropped
  {
    if Top(s).rpc.msg == Some(OwnTimer) { Calling(s, Replace(Timer), HandleTimer(Begin)); }
    else { Calling(s, Replace(Dispatch), Schedule(Cas)); }
  }

  lemma BranchDoneKeeps(s: State, t: State)
    requires Inv(s) && BranchOnReplacement(s) == Some(t)
    requires Top(s).rpc.msg == None || Top(s).rpc.msg == Some(QuitMsg)
    ensures Inv(t)
    ensures t.dropped ==> s.dropped
  {
    if Top(s).rpc.msg == None {
      assert t == SetTop(s, Replace(Done(false)));
    } else {
      CountAdded(s.queue, s.next, QuitMsg);
      assert t == SetTop(Enqueue(s, QuitMsg), Replace(Done(true)));
    }
  }

  lemma BranchKeeps(s: State, t: State)
    requires Inv(s) && BranchOnReplacement(s) == Some(t)
    ensures Inv(t)
    ensures t.dropped ==> s.dropped
  {
    if Top(s).rpc.msg == None || Top(s).rpc.msg == Some(QuitMsg) { BranchDoneKeeps(s, t); }
    else { BranchCallKeeps(s, t); }
  }

  /** A message is dealt with: its loop or handler goes on to DoWork(). */
  lemma ToLoopKeeps(s: State, more: bool)
    requires Inv(s) && Nested(s) && Below(s).Loop? && (Below(s).pc.Replacing? || Below(s).pc.Dispatching?)
    requires (Top(s).Replace? && Top(s).rpc.Done?) || Free(s)
    ensures Inv(PopTo(s, Loop(Below(s).host, Handled(more))).(inNative := false))
  {
    Returning(s, Loop(Below(s).host, Handled(more)));
  }

  lemma ToHandlerKeeps(s: State)
    requires Inv(s) && Nested(s) && Top(s).Replace? && Top(s).rpc.Done? && Below(s) == HandleWork(HReplacing)
    ensures Inv(PopTo(s, HandleWork(HReplaced)))
  {
    Returning(s, HandleWork(HReplaced));
  }

  lemma LeaveKeeps(s: State, t: State)
    requires Inv(s) && LeaveReplacement(s) == Some(t)
    ensures Inv(t)
    ensures t.dropped ==> s.dropped
  {
    if Below(s).Loop? { ToLoopKeeps(s, Below(s).pc.sent || Top(s).rpc.result); }
    else { ToHandlerKeeps(s); }
  }

  lemma ReplacementKeeps(s: State, a: ReplaceAction, t: State)
    requires Inv(s) && NextReplace(s, a) == Some(t)
    ensures Inv(t)
    ensures t.dropped ==> s.dropped
  {
    match a
    case PeekOne(choice) => PeekReplacementKeeps(s, choice, t);
    case Clear => assert t == SetTop(s, Replace(Cleared(Top(s).rpc.msg))).(scheduled := false);
    case Branch => BranchKeeps(s, t);
    case Help => Calling(s, Replace(RDispatching), Outside(None));
    case Leave => LeaveKeeps(s, t);
  }

  // ----- HandleWorkMessage() and HandleTimerMessage() -----

  lemma BeginWorkKeeps(s: State, f: Frame)
    requires Inv(s) && s.stack.On? && Running(s) && !Carries(Top(s)) && SameCode(f, Top(s))
    requires f == HandleWork(HInWork) || f == HandleTimer(HInWork) || (f.Loop? && f.pc.InWork?)
    ensures Inv(BeginWork(s, f))
  {
    Calling(s, f, Outside(None));
    assert BeginWork(s, f) ==
           Push(SetTop(s, f), Outside(None)).(pending := false, dropped := false, duty := None, failed := false);
  }

  lemma ReturnHandlerKeeps(s: State)
    requires Inv(s) && Nested(s) && Top(s).HandleTimer?
    requires Below(s) == Replace(Timer) || !s.inNative || !Running(s) || s.failed || Covered(s)
    requires Owes(s) ==> Below(s) == Replace(Timer)
    ensures Inv(ReturnHandler(s))
  {
    if Below(s) == Replace(Timer) { Returning(s, Replace(Done(true))); }
    else { assert ReturnHandler(s) == Pop(s); }
  }

  lemma BeginHandleWorkKeeps(s: State, t: State)
    requires Inv(s) && BeginHandleWork(s) == Some(t)
    ensures Inv(t)
    ensures t.dropped ==> s.dropped || !Running(s)
  {
    var u := s.(inNative := true);
    if Running(s) {
      Calling(u, HandleWork(HReplacing), Replace(Peeking));
    } else {
      CarryingTop(s);
      assert t == Pop(u.(scheduled := false, dropped := s.dropped || s.pending));
    }
  }

  /** The timer is killed before the pump does anything with it. */
  lemma KillKeeps(s: State)
    requires Inv(s) && s.stack.On? && Top(s) == HandleTimer(Begin) && !Running(s)
    ensures Inv(s.(installed := None, armed := None))
  {
  }

  lemma TimerWorkKeeps(s: State)
    requires Inv(s) && Nested(s) && Top(s) == HandleTimer(Begin) && Running(s)
    ensures Inv(BeginWork(s.(installed := None, armed := None), HandleTimer(HInWork)))
  {
    Calling(s, HandleTimer(HInWork), Outside(None));
    assert BeginWork(s.(installed := None, armed := None), HandleTimer(HInWork)) ==
           Push(SetTop(s, HandleTimer(HInWork)), Outside(None))
             .(installed := None, armed := None, pending := false, dropped := false, duty := None, failed := false);
  }

  lemma BeginHandleTimerKeeps(s: State, t: State)
    requires Inv(s) && BeginHandleTimer(s) == Some(t)
    ensures Inv(t)
    ensures t.dropped ==> s.dropped
  {
    if s.installed.None? {
      ReturnHandlerKeeps(s);
    } else if Running(s) {
      TimerWorkKeeps(s);
    } else {
      KillKeeps(s);
      ReturnHandlerKeeps(s.(installed := None, armed := None));
    }
  }

  lemma HandlingKeeps(s: State, a: HandlerAction, t: State)
    requires Inv(s) && NextHandler(s, a) == Some(t)
    ensures Inv(t)
    ensures t.dropped ==> s.dropped || (a.EnterWork? && !Running(s))
  {
    match a
    case EnterWork => BeginHandleWorkKeeps(s, t);
    case EnterTimer => BeginHandleTimerKeeps(s, t);
    case Work => BeginWorkKeeps(s, HandleWork(HInWork));
    case Finish =>
      if Top(s) == HandleWork(End) { assert t == Pop(s); } else { ReturnHandlerKeeps(s); }
  }

  // ----- The loop -----

  lemma ExitKeeps(s: State)
    requires Inv(s) && Looping(s) && !Carries(Top(s)) && !s.inNative
    ensures Inv(ExitLoop(s, Top(s).host))
  {
  }

  lemma AgainKeeps(s: State)
    requires Inv(s) && Looping(s) && !Carries(Top(s)) && (!s.inNative || NativeControl(s)) && !Owes(s)
    ensures Inv(Again(s, Top(s).host))
  {
  }

  lemma PeekMessageKeeps(s: State, choice: Option<MsgId>, sent: bool, t: State)
    requires Inv(s) && PeekMessage(s, choice, sent) == Some(t)
    ensures Inv(t)
    ensures t.dropped ==> s.dropped
  {
    if choice.None? {
      assert t == SetTop(s, Loop(Top(s).host, Handled(sent))).(seen := {}, inNative := false);
    } else {
      CountRemoved(s.queue, choice.value);
      assert t == Dequeue(SetTop(s, Loop(Top(s).host, Got(s.queue[choice.value], sent))), choice.value);
    }
  }

  lemma DispatchKeeps(s: State, holding: Option<Kind>)
    requires Inv(s) && Looping(s) && Top(s).pc.Got? && !Carries(Top(s)) && holding != Some(HaveWork)
    ensures Inv(Push(SetTop(s, Loop(Top(s).host, Dispatching)), Outside(holding)))
  {
    Calling(s, Loop(Top(s).host, Dispatching), Outside(holding));
  }

  lemma CallReplacementKeeps(s: State)
    requires Inv(s) && Looping(s) && Top(s).pc.Got? && Top(s).pc.kind == HaveWork
    ensures Inv(Push(SetTop(s, Loop(Top(s).host, LoopPc.Replacing(Top(s).pc.sent))), Replace(Peeking)))
  {
    Calling(s, Loop(Top(s).host, LoopPc.Replacing(Top(s).pc.sent)), Replace(Peeking));
  }

  lemma PumpMessageKeeps(s: State, t: State)
    requires Inv(s) && HandleMessage(s) == Some(t) && (Top(s).pc.kind.QuitMsg? || Top(s).pc.kind.HaveWork?)
    ensures Inv(t)
    ensures t.dropped ==> s.dropped
  {
    if Top(s).pc.kind.QuitMsg? {
      assert t == SetTop(s, Loop(Top(s).host, Handled(true))).(inNative := false);
    } else {
      CallReplacementKeeps(s);
      assert t == Push(SetTop(s, Loop(Top(s).host, LoopPc.Replacing(Top(s).pc.sent))), Replace(Peeking));
    }
  }

  lemma NativeMessageKeeps(s: State, t: State)
    requires Inv(s) && HandleMessage(s) == Some(t) && (Top(s).pc.kind.OwnTimer? || Top(s).pc.kind.Other?)
    ensures Inv(t)
    ensures t.dropped ==> s.dropped
  {
    var holding := if Top(s).pc.kind.OwnTimer? then Some(OwnTimer) else None;
    DispatchKeeps(s, holding);
    assert t == Push(SetTop(s, Loop(Top(s).host, Dispatching)), Outside(holding));
  }

  lemma HandleMessageKeeps(s: State, t: State)
    requires Inv(s) && HandleMessage(s) == Some(t)
    ensures Inv(t)
    ensures t.dropped ==> s.dropped
  {
    if Top(s).pc.kind.QuitMsg? || Top(s).pc.kind.HaveWork? {
      PumpMessageKeeps(s, t);
    } else {
      NativeMessageKeeps(s, t);
    }
  }

  lemma TimerKilledKeeps(s: State)
    requires Inv(s) && Looping(s) && Top(s).pc.Worked?
    ensures Inv(s.(installed := None, armed := None))
  {
  }

  lemma GoIdleKeeps(s: State)
    requires Inv(s) && Looping(s) && Top(s).pc.Worked? && !Top(s).pc.more && s.installed.None?
    ensures Inv(SetTop(s, Loop(Top(s).host, InIdle(Top(s).pc.info))))
  {
  }

  lemma AfterWorkKeeps(s: State, t: State)
    requires Inv(s) && AfterWork(s) == Some(t)
    ensures Inv(t)
    ensures t.dropped ==> s.dropped || ShouldQuit(s)
  {
    var u := s.(installed := None, armed := None);
    if ShouldQuit(s) {
      ExitKeeps(s);
    } else {
      TimerKilledKeeps(s);
      if Top(s).pc.more { AgainKeeps(u); } else { GoIdleKeeps(u); }
    }
  }

  lemma IdleGoesOnKeeps(s: State, more: bool, t: State)
    requires Inv(s) && AfterIdle(s, more, false) == Some(t) && !ShouldQuit(s)
    ensures Inv(t)
    ensures t.dropped ==> s.dropped
  {
    if more { AgainKeeps(s); }
    else { assert t == SetTop(s, Loop(Top(s).host, Wait(Top(s).pc.info, true))); }
  }

  lemma AfterIdleKeeps(s: State, more: bool, quit: bool, t: State)
    requires Inv(s) && AfterIdle(s, more, quit) == Some(t)
    ensures Inv(t)
    ensures t.dropped ==> s.dropped || quit || ShouldQuit(s)
  {
    if quit || ShouldQuit(s) {
      ExitKeeps(if quit then s.(quits := s.quits[|s.quits| - 1 := true]) else s);
    } else {
      IdleGoesOnKeeps(s, more, t);
    }
  }

  lemma BeginWaitKeeps(s: State, expired: bool, t: State)
    requires Inv(s) && BeginWait(s, expired) == Some(t)
    ensures Inv(t)
    ensures t.dropped ==> s.dropped
  {
    if expired { AgainKeeps(s); }
    else { assert t == SetTop(s, Loop(Top(s).host, Blocked(Top(s).pc.info, Top(s).pc.available))); }
  }

  lemma EndWaitKeeps(s: State, timeout: bool, t: State)
    requires Inv(s) && EndWait(s, timeout) == Some(t)
    ensures Inv(t)
    ensures t.dropped ==> s.dropped
  {
    if timeout { assert t == SetTop(s, Loop(Top(s).host, Wait(Top(s).pc.info, Top(s).pc.available))); }
    else { assert t == SetTop(s, Loop(Top(s).host, Woken(Top(s).pc.info))); }
  }

  lemma LookKeeps(s: State, sent: bool, t: State)
    requires Inv(s) && LookForMessage(s, sent) == Some(t)
    ensures Inv(t)
    ensures t.dropped ==> s.dropped
  {
    var u := s.(seen := s.queue.Keys);
    if sent || s.queue != map[] { AgainKeeps(u); }
    else { assert t == SetTop(u, Loop(Top(s).host, Wait(Top(s).pc.info, false))); }
  }

  lemma SpinningKeeps(s: State, a: LoopAction, t: State)
    requires Inv(s) && NextLoop(s, a) == Some(t)
    ensures Inv(t)
    ensures t.dropped ==> s.dropped || LoopMayVoid(s, a)
  {
    match a
    case LoopPeek(choice, sent) => PeekMessageKeeps(s, choice, sent, t);
    case LoopHelper => HandleMessageKeeps(s, t);
    case LoopWork =>
      if ShouldQuit(s) { ExitKeeps(s); } else { BeginWorkKeeps(s, Loop(Top(s).host, InWork(Top(s).pc.more))); }
    case LoopAfterWork => AfterWorkKeeps(s, t);
    case IdleSchedule => assert t == Push(s, Schedule(Cas));
    case IdleDone(more, quit) => AfterIdleKeeps(s, more, quit, t);
    case StartWait(expired) => BeginWaitKeeps(s, expired, t);
    case Woke(timeout) => EndWaitKeeps(s, timeout, t);
    case AfterWake(sent) => LookKeeps(s, sent, t);
  }

  // ----- Code outside the pump -----

  /** A Run() in host mode returns after ConnectMsgLoop(). */
  lemma HostedRunEndsKeeps(s: State)
    requires Inv(s) && Free(s) && Nested(s) && Below(s) == Loop(false, Connecting) && Running(s)
    ensures Inv(EndRun(Pop(Pop(s))))
  {
    TwoDeep(s.stack);
  }

  lemma ConnectedKeeps(s: State)
    requires Inv(s) && Free(s) && Nested(s) && Below(s) == Loop(false, Connecting)
    ensures Inv(PopTo(s, Loop(false, Peek)).(inNative := false))
  {
    Returning(s, Loop(false, Peek));
  }

  lemma LeaveConnectKeeps(s: State, hosted: bool, t: State)
    requires Inv(s) && LeaveConnect(s, hosted) == Some(t)
    ensures Inv(t)
    ensures t.dropped ==> s.dropped
  {
    if hosted { HostedRunEndsKeeps(s); } else { ConnectedKeeps(s); }
  }

  lemma SentReturnsKeeps(s: State)
    requires Inv(s) && Free(s) && Nested(s) && Peeks(Below(s))
    ensures Inv(Pop(s))
  {
  }

  lemma DispatchedKeeps(s: State)
    requires Inv(s) && Free(s) && Nested(s) && Below(s) == Replace(RDispatching)
    ensures Inv(PopTo(s, Replace(Done(true))))
  {
    Returning(s, Replace(Done(true)));
  }

  lemma ReturnToReplaceKeeps(s: State, t: State)
    requires Inv(s) && ReturnToPump(s) == Some(t) && Below(s).Replace?
    ensures Inv(t)
    ensures t.dropped ==> s.dropped
  {
    if Below(s) == Replace(Peeking) {
      SentReturnsKeeps(s);
      assert t == Pop(s);
    } else {
      DispatchedKeeps(s);
      assert t == PopTo(s, Replace(Done(true)));
    }
  }

  lemma ReturnToRunKeeps(s: State, t: State)
    requires Inv(s) && ReturnToPump(s) == Some(t) && Below(s).Loop?
    ensures Inv(t)
    ensures t.dropped ==> s.dropped
  {
    if Peeks(Below(s)) {
      SentReturnsKeeps(s);
      assert t == Pop(s);
    } else {
      ToLoopKeeps(s, true);
      assert t == PopTo(s, Loop(Below(s).host, Handled(true))).(inNative := false);
    }
  }

  lemma ReturnToPumpKeeps(s: State, t: State)
    requires Inv(s) && ReturnToPump(s) == Some(t)
    ensures Inv(t)
    ensures t.dropped ==> s.dropped
  {
    if Below(s).Replace? { ReturnToReplaceKeeps(s, t); } else { ReturnToRunKeeps(s, t); }
  }

  lemma ReturnToHandlerKeeps(s: State, info: NextWork, f: Frame)
    requires Inv(s) && Free(s) && Nested(s)
    requires
      || (Below(s) == HandleWork(HInWork) && f == HandleWork(End))
      || (Below(s) == HandleTimer(HInWork) && f == HandleTimer(End))
    ensures Inv(Push(PopTo(s.(duty := Some(info)), f), FollowUp(info)))
  {
    Returning(s, f);
    var u := PopTo(s, f);
    Calling(u, f, FollowUp(info));
    assert Push(PopTo(s.(duty := Some(info)), f), FollowUp(info)) ==
           Push(SetTop(u, f), FollowUp(info)).(duty := Some(info));
  }

  lemma BackInLoopKeeps(u: State, info: NextWork)
    requires Solid(u) && QueueIds(u) && u.installed == u.armed && (u.pending ==> u.scheduled || u.dropped)
    requires u.stack.On? && Top(u).Loop? && Top(u).pc.Worked? && Top(u).pc.info == info
    ensures Inv(u.(duty := Some(info), inNative := false))
  {
  }

  lemma LoopAnswered(s: State, f: Frame)
    requires Solid(s) && Free(s) && Nested(s) && Below(s).Loop? && Below(s).pc.InWork?
    requires f.Loop? && f.host == Below(s).host && f.pc.Worked? && (f.pc.info.Immediate? ==> f.pc.more)
    ensures Solid(PopTo(s, f))
  {
    Returning(s, f);
  }

  lemma ReturnToLoopKeeps(s: State, info: NextWork, f: Frame)
    requires Inv(s) && Free(s) && Nested(s) && Below(s).Loop? && Below(s).pc.InWork?
    requires f.Loop? && f.host == Below(s).host && f.pc.Worked? && f.pc.info == info && (info.Immediate? ==> f.pc.more)
    ensures Inv(PopTo(s, f).(duty := Some(info), inNative := false))
  {
    LoopAnswered(s, f);
    BackInLoopKeeps(PopTo(s, f), info);
  }

  lemma AnswerLoopKeeps(s: State, info: NextWork, t: State)
    requires Inv(s) && ReturnFromWork(s, info) == Some(t) && Below(s).Loop?
    ensures Inv(t)
    ensures t.dropped ==> s.dropped
  {
    var f := Loop(Below(s).host, Answered(info, Below(s).pc.more));
    ReturnToLoopKeeps(s, info, f);
    assert t == PopTo(s, f).(duty := Some(info), inNative := false);
  }

  lemma AnswerWorkHandlerKeeps(s: State, info: NextWork, t: State)
    requires Inv(s) && ReturnFromWork(s, info) == Some(t) && Below(s).HandleWork?
    ensures Inv(t)
    ensures t.dropped ==> s.dropped
  {
    ReturnToHandlerKeeps(s, info, HandleWork(End));
    assert t == Push(PopTo(s.(duty := Some(info)), HandleWork(End)), FollowUp(info));
  }

  lemma AnswerTimerHandlerKeeps(s: State, info: NextWork, t: State)
    requires Inv(s) && ReturnFromWork(s, info) == Some(t) && Below(s).HandleTimer?
    ensures Inv(t)
    ensures t.dropped ==> s.dropped
  {
    ReturnToHandlerKeeps(s, info, HandleTimer(End));
    assert t == Push(PopTo(s.(duty := Some(info)), HandleTimer(End)), FollowUp(info));
  }

  lemma ReturnFromWorkKeeps(s: State, info: NextWork, t: State)
    requires Inv(s) && ReturnFromWork(s, info) == Some(t)
    ensures Inv(t)
    ensures t.dropped ==> s.dropped
  {
    if Below(s).Loop? { AnswerLoopKeeps(s, info, t); }
    else if Below(s).HandleWork? { AnswerWorkHandlerKeeps(s, info, t); }
    else { AnswerTimerHandlerKeeps(s, info, t); }
  }

  lemma DispatchToHandlerKeeps(s: State, f: Frame)
    requires Inv(s) && Holding(s)
    requires
      || (Top(s) == Outside(Some(HaveWork)) && f == HandleWork(Begin))
      || (Top(s) == Outside(Some(OwnTimer)) && f == HandleTimer(Begin))
    ensures Inv(Push(SetTop(s, Outside(None)), f))
  {
    Calling(s, Outside(None), f);
  }

  lemma DispatchMessageKeeps(s: State, t: State)
    requires Inv(s) && DispatchMessage(s) == Some(t)
    ensures Inv(t)
    ensures t.dropped ==> s.dropped
  {
    match Top(s).holding.value
    case HaveWork => DispatchToHandlerKeeps(s, HandleWork(Begin));
    case OwnTimer => DispatchToHandlerKeeps(s, HandleTimer(Begin));
    case _ => assert t == SetTop(s, Outside(None));
  }

  /** run_state_ of a Run() that begins. */
  function Began(s: State): State {
    s.(quits := s.quits + [false], duty := if Running(s) then s.duty else None)
  }

  lemma ConnectingKeeps(s: State)
    requires Inv(s) && Free(s)
    ensures Inv(Push(Push(Began(s), Loop(false, Connecting)), Outside(None)))
  {
    TwoDeep(Push(Push(Began(s), Loop(false, Connecting)), Outside(None)).stack);
  }

  lemma LoopBeginsKeeps(s: State)
    requires Inv(s) && Free(s)
    ensures Inv(Push(Began(s), Loop(false, Peek)).(inNative := false))
  {
  }

  lemma EnterRunKeeps(s: State, connecting: bool, t: State)
    requires Inv(s) && EnterRun(s, connecting) == Some(t)
    ensures Inv(t)
    ensures t.dropped ==> s.dropped
  {
    if connecting {
      ConnectingKeeps(s);
      assert t == Push(Push(Began(s), Loop(false, Connecting)), Outside(None));
    } else {
      LoopBeginsKeeps(s);
      assert t == Push(Began(s), Loop(false, Peek)).(inNative := false);
    }
  }

  lemma TakeMessageKeeps(s: State, id: MsgId, t: State)
    requires Inv(s) && TakeMessage(s, id) == Some(t)
    ensures Inv(t)
    ensures t.dropped ==> s.dropped
  {
    CountRemoved(s.queue, id);
    assert t == Dequeue(SetTop(s, Outside(Some(s.queue[id]))), id);
  }

  lemma HostStepKeeps(s: State, sent: bool, t: State)
    requires Inv(s) && EnterHostStep(s, sent) == Some(t)
    ensures Inv(t)
    ensures t.dropped ==> s.dropped
  {
    Calling(s, Outside(None), Loop(true, Got(Top(s).holding.value, sent)));
  }

  lemma ScheduleDelayedKeeps(s: State, info: NextWork, t: State)
    requires Inv(s) && ScheduleDelayed(s, info) == Some(t)
    ensures Inv(t)
    ensures t.dropped ==> s.dropped
  {
    if s.inNative && !s.scheduled { assert t == Push(s.(duty := Some(info)), NativeTimer(info)); }
    else { assert t == s.(duty := Some(info)); }
  }

  lemma QuietCodeKeeps(s: State, a: OutsideAction, t: State)
    requires Inv(s) && (a.CallSchedule? || a.CallQuit? || a.Look?) && NextOutside(s, a) == Some(t)
    ensures Inv(t)
    ensures t.dropped ==> s.dropped
  {
    if a.CallSchedule? { assert t == Push(s, Schedule(Cas)); }
  }

  lemma CodeKeeps(s: State, a: OutsideAction, t: State)
    requires Inv(s) && NextOutside(s, a) == Some(t)
    ensures Inv(t)
    ensures t.dropped ==> s.dropped
  {
    match a
    case Return => ReturnToPumpKeeps(s, t);
    case WorkDone(info) => ReturnFromWorkKeeps(s, info, t);
    case Take(id) => TakeMessageKeeps(s, id, t);
    case DispatchTaken => DispatchMessageKeeps(s, t);
    case HostStep(sent) => HostStepKeeps(s, sent, t);
    case CallRun(connecting) => EnterRunKeeps(s, connecting, t);
    case Disconnect(hosted) => LeaveConnectKeeps(s, hosted, t);
    case CallSchedule => QuietCodeKeeps(s, a, t);
    case CallScheduleDelayed(info) => ScheduleDelayedKeeps(s, info, t);
    case CallQuit => QuietCodeKeeps(s, a, t);
    case Look => QuietCodeKeeps(s, a, t);
  }

  lemma NextKeeps(s: State, a: Action, t: State)
    requires Inv(s) && Next(s, a) == Some(t)
    ensures Inv(t)
    ensures t.dropped ==> s.dropped || MayVoid(s, a)
  {
    match a
    case Caller(c) => CallerKeeps(s, c, t);
    case Os(o) => OsKeeps(s, o, t);
    case Code(c) => CodeKeeps(s, c, t);
    case SentMessage => SentKeeps(s, t);
    case Scheduling(c) => SchedulingKeeps(s, c, t);
    case Timing(c) => TimingKeeps(s, c, t);
    case Replacement(c) => ReplacementKeeps(s, c, t);
    case Handling(c) => HandlingKeeps(s, c, t);
    case Spinning(c) => SpinningKeeps(s, c, t);
  }

  /** Every reachable state satisfies the invariant. */
  lemma {:induction false} RunKeeps(s: State, actions: seq<Action>, t: State)
    requires Inv(s) && RunFrom(s, actions) == Some(t)
    ensures Inv(t)
    decreases |actions|
  {
    if actions == [] {
    } else {
      var u := Next(s, actions[0]).value;
      NextKeeps(s, actions[0], u);
      RunKeeps(u, actions[1..], t);
    }
  }
}
