/** The concurrent protocol of MessagePumpForUI (base/message_loop/message_pump_win.cc) as a transition
    system.

    Any number of threads may be inside ScheduleWork() while the UI thread runs an arbitrarily deep stack of
    run loops, message handlers and code outside the pump (window procedures, native modal loops,
    application tasks).  Every atomic access to shared state is one action. */
module PumpProtocol {
  import opened Wrappers

  type Time = int
  type MsgId = int
  type Tid = int

  /** Delegate::NextWorkInfo: what a DoWork() asks of the pump. */
  datatype NextWork = Immediate | At(time: Time) | Never

  /** What a posted message is to the pump: kMsgHaveWork for its own window, WM_TIMER carrying its own id,
      WM_QUIT, or anything else. */
  datatype Kind = HaveWork | OwnTimer | QuitMsg | Other

  /** Where a thread other than the UI thread is in ScheduleWork(), once it won the compare-and-swap. */
  datatype CallerPc = Won | PostFailed

  datatype SchedulePc = Cas | Posting | Undoing

  /** DoRunLoop() and, for a host step, OnProcessNextWindowsMessage(). */
  datatype LoopPc =
    | Connecting                                // DoRunLoop() is inside ConnectMsgLoop(), which may run a host's loop
    | Peek                                      // top of an iteration, about to peek
    | Got(kind: Kind, sent: bool)               // ProcessMessageHelper() has a message
    | Replacing(sent: bool)                     // ProcessPumpReplacementMessage() is on the stack
    | Dispatching                               // the message is being dispatched
    | Handled(more: bool)                       // ProcessNextWindowsMessage() returned
    | InWork(more: bool)                        // DoWork() is on the stack
    | Worked(info: NextWork, more: bool)        // DoWork() returned
    | InIdle(info: NextWork)                    // DoIdleWork() is running
    | Wait(info: NextWork, available: bool)     // about to wait; available: MWMO_INPUTAVAILABLE is set
    | Blocked(info: NextWork, available: bool)  // inside MsgWaitForMultipleObjectsEx
    | Woken(info: NextWork)                     // the wait returned WAIT_OBJECT_0

  /** ProcessPumpReplacementMessage(). */
  datatype ReplacePc =
    | Peeking                        // kMsgHaveWork is dequeued, the replacement is being peeked
    | Have(msg: Option<Kind>)        // peeked, work_scheduled_ not yet cleared
    | Cleared(msg: Option<Kind>)     // work_scheduled_ cleared
    | Timer                          // HandleTimerMessage() is on the stack
    | Dispatch                       // the follow-up ScheduleWork() was called
    | RDispatching                   // the replacement is being dispatched
    | Done(result: bool)

  /** HandleWorkMessage() and HandleTimerMessage(). */
  datatype HandlerPc = Begin | HReplacing | HReplaced | HInWork | End

  datatype Frame =
    | Outside(holding: Option<Kind>)   // code outside the pump; holding: it dequeued a message to dispatch
    | Loop(host: bool, pc: LoopPc)
    | HandleWork(hpc: HandlerPc)
    | HandleTimer(hpc: HandlerPc)
    | Replace(rpc: ReplacePc)
    | Schedule(spc: SchedulePc)
    | NativeTimer(info: NextWork)      // ScheduleNativeTimer()

  /** The UI thread's stack, innermost frame first. */
  datatype Stack = Bottom | On(top: Frame, rest: Stack)

  /** `pending`, `dropped`, `duty` and `failed` are history: no action reads them.
      pending: a ScheduleWork() was issued since the last DoWork() began.
      dropped: since then, and since work_scheduled_ was last won, one of the three events that void the promise of
               ScheduleWork() happened.
      duty:    what the last finished DoWork() or ScheduleDelayedWork() asked for.
      failed:  a post or a SetTimer() failed since the last DoWork() began. */
  datatype State = State(
    scheduled: bool,
    queue: map<MsgId, Kind>,
    next: MsgId,
    seen: set<MsgId>,
    callers: map<Tid, CallerPc>,
    stack: Stack,
    quits: seq<bool>,
    installed: Option<Time>,
    armed: Option<Time>,
    inNative: bool,
    pending: bool,
    dropped: bool,
    duty: Option<NextWork>,
    failed: bool)

  /** ScheduleWork() on another thread. */
  datatype CallerAction = Claim(t: Tid) | Post(t: Tid, ok: bool) | Undo(t: Tid)

  datatype OsAction = Deliver(kind: Kind) | TimerFires

  /** What code outside the pump does on the UI thread. */
  datatype OutsideAction =
    | Return                                // to the pump, or to the code below it
    | WorkDone(info: NextWork)              // DoWork() returns `info`
    | Take(id: MsgId)                       // a native loop dequeues a message
    | DispatchTaken                         // ... and dispatches it
    | HostStep(sent: bool)                  // ... or hands it to OnProcessNextWindowsMessage()
    | CallRun(connecting: bool)             // Run(), which with a WebRT delegate first calls ConnectMsgLoop()
    | Disconnect(hosted: bool)              // ConnectMsgLoop() returns, to a loop or, in host mode, to the end of Run()
    | CallSchedule
    | CallScheduleDelayed(info: NextWork)
    | CallQuit
    | Look                                  // peeks without removing

  datatype ScheduleAction = TryCas | TryPost(ok: bool) | UndoPost

  /** The branches of ScheduleNativeTimer(). */
  datatype TimerAction = Keep | RunNow | Install(ok: bool)

  datatype ReplaceAction = PeekOne(choice: Option<MsgId>) | Clear | Branch | Help | Leave

  datatype HandlerAction = EnterWork | EnterTimer | Work | Finish

  datatype LoopAction =
    | LoopPeek(choice: Option<MsgId>, sent: bool)
    | LoopHelper
    | LoopWork
    | LoopAfterWork
    | IdleSchedule
    | IdleDone(more: bool, quit: bool)
    | StartWait(expired: bool)
    | Woke(timeout: bool)
    | AfterWake(sent: bool)

  datatype Action =
    | Caller(caller: CallerAction)
    | Os(os: OsAction)
    | Code(code: OutsideAction)
    | SentMessage                            // a peek runs the handler of a sent message
    | Scheduling(sched: ScheduleAction)
    | Timing(timing: TimerAction)
    | Replacement(repl: ReplaceAction)
    | Handling(hand: HandlerAction)
    | Spinning(loop: LoopAction)

  // ----- Stack plumbing -----

  /** Two frames are on the stack: the code in `Top` was called by the code in `Below`. */
  predicate Nested(s: State) {
    s.stack.On? && s.stack.rest.On?
  }

  function Top(s: State): Frame
    requires s.stack.On?
  {
    s.stack.top
  }

  function Below(s: State): Frame
    requires Nested(s)
  {
    s.stack.rest.top
  }

  function SetTop(s: State, f: Frame): State
    requires s.stack.On?
  {
    s.(stack := On(f, s.stack.rest))
  }

  function Push(s: State, f: Frame): State {
    s.(stack := On(f, s.stack))
  }

  function Pop(s: State): State
    requires s.stack.On?
  {
    s.(stack := s.stack.rest)
  }

  /** Pops the callee and moves the caller to `f`. */
  function PopTo(s: State, f: Frame): State
    requires Nested(s)
  {
    s.(stack := On(f, s.stack.rest.rest))
  }

  function Enqueue(s: State, k: Kind): State {
    s.(queue := s.queue[s.next := k], next := s.next + 1)
  }

  /** PeekMessage() with PM_REMOVE: one message leaves the queue, the others have now been looked at. */
  function Dequeue(s: State, id: MsgId): State {
    var q := s.queue - {id};
    s.(queue := q, seen := q.Keys)
  }

  function InitState(): State {
    State(false, map[], 0, {}, map[], On(Outside(None), Bottom), [], None, None, false, false, false, None, false)
  }

  predicate Running(s: State) {
    s.quits != []
  }

  predicate ShouldQuit(s: State) {
    s.quits != [] && s.quits[|s.quits| - 1]
  }

  /** work_scheduled_ is cleared by a failed post: whoever asked meanwhile is not going to be served by it. */
  function Unschedule(s: State): State {
    s.(scheduled := false, dropped := s.dropped || s.pending, failed := true)
  }

  /** DoWork() begins: the top frame becomes `f` and the delegate runs above it. */
  function BeginWork(s: State, f: Frame): State
    requires s.stack.On?
  {
    Push(SetTop(s, f).(pending := false, dropped := false, duty := None, failed := false), Outside(None))
  }

  // ----- Other threads and the operating system -----

  function NextCaller(s: State, a: CallerAction): Option<State>
  {
    match a
    case Claim(t) =>
      if t in s.callers then None
      else if s.scheduled then Some(s.(pending := true))
      else Some(s.(pending := true, dropped := false, scheduled := true, callers := s.callers[t := Won]))
    case Post(t, ok) =>
      if t !in s.callers || s.callers[t] != Won then None
      else if ok then Some(Enqueue(s, HaveWork).(callers := s.callers - {t}))
      else Some(s.(callers := s.callers[t := PostFailed]))
    case Undo(t) =>
      if t !in s.callers || s.callers[t] != PostFailed then None
      else Some(Unschedule(s.(callers := s.callers - {t})))
  }

  function NextOs(s: State, a: OsAction): Option<State>
  {
    match a
    case Deliver(k) =>
      if k == Other || k == QuitMsg then Some(Enqueue(s, k)) else None
    case TimerFires =>
      if s.armed.Some? then Some(Enqueue(s, OwnTimer)) else None
  }

  // ----- Code outside the pump -----

  /** Code outside the pump is running and holds no dequeued message. */
  predicate Free(s: State) {
    s.stack.On? && Top(s) == Outside(None)
  }

  /** Code outside the pump is running and holds a message it dequeued. */
  predicate Holding(s: State) {
    s.stack.On? && Top(s).Outside? && Top(s).holding.Some?
  }

  /** The frame is inside PeekMessage(), which runs the handlers of sent messages before it looks at the queue. */
  predicate Peeks(f: Frame) {
    f == Loop(false, Peek) || f == Replace(Peeking) || (f.Loop? && f.pc.Woken?)
  }

  function ReturnToPump(s: State): Option<State> {
    if !Free(s) || !Nested(s) then None
    else if Peeks(Below(s)) then Some(Pop(s))
    else if Below(s).Loop? && Below(s).pc.Dispatching? then
      Some(PopTo(s, Loop(Below(s).host, Handled(true))).(inNative := false))
    else if Below(s) == Replace(RDispatching) then Some(PopTo(s, Replace(Done(true))))
    else None
  }

  /** What a handler does with the answer of DoWork(). */
  function FollowUp(info: NextWork): Frame {
    if info.Immediate? then Schedule(Cas) else NativeTimer(info)
  }

  /** more_work_is_plausible |= next_work_info.is_immediate() */
  function Answered(info: NextWork, more: bool): LoopPc {
    if info.Immediate? then Worked(info, true) else Worked(info, more)
  }

  function ReturnFromWork(s: State, info: NextWork): Option<State> {
    if !Free(s) || !Nested(s) then None else
    var t := s.(duty := Some(info));
    if Below(s).Loop? && Below(s).pc.InWork? then
      Some(PopTo(t, Loop(Below(s).host, Answered(info, Below(s).pc.more))).(inNative := false))
    else if Below(s) == HandleWork(HInWork) then Some(Push(PopTo(t, HandleWork(End)), FollowUp(info)))
    else if Below(s) == HandleTimer(HInWork) then Some(Push(PopTo(t, HandleTimer(End)), FollowUp(info)))
    else None
  }

  function TakeMessage(s: State, id: MsgId): Option<State> {
    if !Free(s) || id !in s.queue then None else Some(Dequeue(SetTop(s, Outside(Some(s.queue[id]))), id))
  }

  function DispatchMessage(s: State): Option<State> {
    if !Holding(s) then None else
    var t := SetTop(s, Outside(None));
    match Top(s).holding.value
    case HaveWork => Some(Push(t, HandleWork(Begin)))
    case OwnTimer => Some(Push(t, HandleTimer(Begin)))
    case _ => Some(t)
  }

  /** OnProcessNextWindowsMessage(): one iteration for a message the host peeked.  It dereferences run_state_ at
      once: without one there is no next state. */
  function EnterHostStep(s: State, sent: bool): Option<State> {
    if !Holding(s) || !Running(s) then None
    else Some(Push(SetTop(s, Outside(None)), Loop(true, Got(Top(s).holding.value, sent))))
  }

  /** Run(), whose DoRunLoop() loops or first calls ConnectMsgLoop(). */
  function EnterRun(s: State, connecting: bool): Option<State> {
    if !Free(s) then None else
    var t := s.(quits := s.quits + [false], duty := if Running(s) then s.duty else None);
    if connecting then Some(Push(Push(t, Loop(false, Connecting)), Outside(None)))
    else Some(Push(t, Loop(false, Peek)).(inNative := false))
  }

  function LeaveConnect(s: State, hosted: bool): Option<State> {
    if !Free(s) || !Nested(s) || Below(s) != Loop(false, Connecting) || !Running(s) then None
    else if hosted then Some(EndRun(Pop(Pop(s))))
    else Some(PopTo(s, Loop(false, Peek)).(inNative := false))
  }

  function ScheduleDelayed(s: State, info: NextWork): Option<State> {
    if !Free(s) || info.Immediate? then None else
    var t := s.(duty := Some(info));
    if s.inNative && !s.scheduled then Some(Push(t, NativeTimer(info))) else Some(t)
  }

  function NextOutside(s: State, a: OutsideAction): Option<State> {
    match a
    case Return => ReturnToPump(s)
    case WorkDone(info) => ReturnFromWork(s, info)
    case Take(id) => TakeMessage(s, id)
    case DispatchTaken => DispatchMessage(s)
    case HostStep(sent) => EnterHostStep(s, sent)
    case CallRun(connecting) => EnterRun(s, connecting)
    case Disconnect(hosted) => LeaveConnect(s, hosted)
    case CallSchedule => if Free(s) then Some(Push(s, Schedule(Cas))) else None
    case CallScheduleDelayed(info) => ScheduleDelayed(s, info)
    case CallQuit =>
      if Free(s) && Running(s) then Some(s.(quits := s.quits[|s.quits| - 1 := true])) else None
    case Look => if Free(s) then Some(s.(seen := s.queue.Keys)) else None
  }

  // ----- ScheduleWork() and ScheduleNativeTimer() on the UI thread -----

  predicate InSchedule(s: State, pc: SchedulePc) {
    s.stack.On? && Top(s) == Schedule(pc)
  }

  function NextSchedule(s: State, a: ScheduleAction): Option<State> {
    match a
    case TryCas =>
      if !InSchedule(s, Cas) then None
      else if s.scheduled then Some(Pop(s.(pending := true)))
      else Some(SetTop(s, Schedule(Posting)).(pending := true, dropped := false, scheduled := true))
    case TryPost(ok) =>
      if !InSchedule(s, Posting) then None
      else if ok then Some(Pop(Enqueue(s, HaveWork)))
      else Some(SetTop(s, Schedule(Undoing)))
    case UndoPost =>
      if !InSchedule(s, Undoing) then None else Some(Pop(Unschedule(s)))
  }

  /** The timer is already set for exactly this deadline. */
  predicate AlreadySet(s: State, info: NextWork) {
    info.At? && s.installed == Some(info.time)
  }

  function NextTimer(s: State, a: TimerAction): Option<State> {
    if !s.stack.On? || !Top(s).NativeTimer? then None else
    var info := Top(s).info;
    match a
    case Keep => if AlreadySet(s, info) || info.Never? then Some(Pop(s)) else None
    case RunNow => if info.At? && !AlreadySet(s, info) then Some(SetTop(s, Schedule(Cas))) else None
    case Install(ok) =>
      if !info.At? || AlreadySet(s, info) then None
      else if ok then Some(Pop(s.(installed := Some(info.time), armed := Some(info.time))))
      else Some(Pop(s.(failed := true)))
  }

  // ----- ProcessPumpReplacementMessage() -----

  /** A peek runs the handler of a sent message. */
  function NextSent(s: State): Option<State> {
    if s.stack.On? && Peeks(Top(s)) then Some(Push(s, Outside(None))) else None
  }

  function PeekReplacement(s: State, choice: Option<MsgId>): Option<State> {
    if !s.stack.On? || Top(s) != Replace(Peeking) then None
    else if choice.None? then
      if s.queue == map[] then Some(SetTop(s, Replace(Have(None))).(seen := {})) else None
    else if choice.value in s.queue then
      Some(Dequeue(SetTop(s, Replace(Have(Some(s.queue[choice.value])))), choice.value))
    else None
  }

  function ClearScheduled(s: State): Option<State> {
    if s.stack.On? && Top(s).Replace? && Top(s).rpc.Have? then
      Some(SetTop(s, Replace(Cleared(Top(s).rpc.msg))).(scheduled := false))
    else None
  }

  function BranchOnReplacement(s: State): Option<State> {
    if !s.stack.On? || !Top(s).Replace? || !Top(s).rpc.Cleared? then None else
    match Top(s).rpc.msg
    case None => Some(SetTop(s, Replace(Done(false))))
    case Some(QuitMsg) => Some(SetTop(Enqueue(s, QuitMsg), Replace(Done(true))))
    case Some(OwnTimer) => Some(Push(SetTop(s, Replace(Timer)), HandleTimer(Begin)))
    case Some(_) => Some(Push(SetTop(s, Replace(Dispatch)), Schedule(Cas)))
  }

  function LeaveReplacement(s: State): Option<State> {
    if !Nested(s) || !Top(s).Replace? || !Top(s).rpc.Done? then None
    else if Below(s).Loop? && Below(s).pc.Replacing? then
      Some(PopTo(s, Loop(Below(s).host, Handled(Below(s).pc.sent || Top(s).rpc.result))).(inNative := false))
    else if Below(s) == HandleWork(HReplacing) then Some(PopTo(s, HandleWork(HReplaced)))
    else None
  }

  function NextReplace(s: State, a: ReplaceAction): Option<State> {
    match a
    case PeekOne(choice) => PeekReplacement(s, choice)
    case Clear => ClearScheduled(s)
    case Branch => BranchOnReplacement(s)
    case Help =>
      if s.stack.On? && Top(s) == Replace(Dispatch) then Some(Push(SetTop(s, Replace(RDispatching)), Outside(None)))
      else None
    case Leave => LeaveReplacement(s)
  }

  // ----- HandleWorkMessage() and HandleTimerMessage() -----

  function ReturnHandler(s: State): State
    requires Nested(s)
  {
    if Below(s) == Replace(Timer) then PopTo(s, Replace(Done(true))) else Pop(s)
  }

  function BeginHandleWork(s: State): Option<State> {
    if !Nested(s) || Top(s) != HandleWork(Begin) then None else
    var t := s.(inNative := true);
    if Running(s) then Some(Push(SetTop(t, HandleWork(HReplacing)), Replace(Peeking)))
    else Some(Pop(t.(scheduled := false, dropped := s.dropped || s.pending)))
  }

  function BeginHandleTimer(s: State): Option<State> {
    if !Nested(s) || Top(s) != HandleTimer(Begin) then None
    else if s.installed.None? then Some(ReturnHandler(s)) else
    var t := s.(installed := None, armed := None);
    if Running(s) then Some(BeginWork(t, HandleTimer(HInWork))) else Some(ReturnHandler(t))
  }

  function NextHandler(s: State, a: HandlerAction): Option<State> {
    match a
    case EnterWork => BeginHandleWork(s)
    case EnterTimer => BeginHandleTimer(s)
    case Work =>
      if s.stack.On? && Top(s) == HandleWork(HReplaced) then Some(BeginWork(s, HandleWork(HInWork))) else None
    case Finish =>
      if !Nested(s) then None
      else if Top(s) == HandleWork(End) then Some(Pop(s))
      else if Top(s) == HandleTimer(End) then Some(ReturnHandler(s))
      else None
  }

  // ----- DoRunLoop() and OnProcessNextWindowsMessage() -----

  /** Run() returns: run_state_ is the enclosing invocation's again. */
  function EndRun(s: State): State
    requires Running(s)
  {
    s.(quits := s.quits[..|s.quits| - 1])
  }

  /** should_quit was seen: the loop ends without the DoWork() a request may be waiting for. */
  function ExitLoop(s: State, host: bool): State
    requires s.stack.On? && Running(s)
  {
    var t := Pop(s.(dropped := s.dropped || (s.pending && !s.scheduled)));
    if host then t else EndRun(t)
  }

  /** The next iteration of DoRunLoop(); a host step returns instead. */
  function Again(s: State, host: bool): State
    requires s.stack.On?
  {
    if host then Pop(s) else SetTop(s, Loop(false, Peek)).(inNative := false)
  }

  /** A loop with a run state is executing. */
  predicate Looping(s: State) {
    s.stack.On? && Top(s).Loop? && Running(s)
  }

  function PeekMessage(s: State, choice: Option<MsgId>, sent: bool): Option<State> {
    if !Looping(s) || !Top(s).pc.Peek? then None
    else if choice.None? then
      if s.queue == map[] then
        Some(SetTop(s, Loop(Top(s).host, Handled(sent))).(seen := {}, inNative := false))
      else None
    else if choice.value in s.queue then
      Some(Dequeue(SetTop(s, Loop(Top(s).host, Got(s.queue[choice.value], sent))), choice.value))
    else None
  }

  /** ProcessMessageHelper(). */
  function HandleMessage(s: State): Option<State> {
    if !Looping(s) || !Top(s).pc.Got? then None else
    var host := Top(s).host;
    match Top(s).pc.kind
    case QuitMsg => Some(SetTop(s, Loop(host, Handled(true))).(inNative := false))
    case HaveWork => Some(Push(SetTop(s, Loop(host, Replacing(Top(s).pc.sent))), Replace(Peeking)))
    case OwnTimer => Some(Push(SetTop(s, Loop(host, Dispatching)), Outside(Some(OwnTimer))))
    case Other => Some(Push(SetTop(s, Loop(host, Dispatching)), Outside(None)))
  }

  function StartWork(s: State): Option<State> {
    if !Looping(s) || !Top(s).pc.Handled? then None
    else if ShouldQuit(s) then Some(ExitLoop(s, Top(s).host))
    else Some(BeginWork(s, Loop(Top(s).host, InWork(Top(s).pc.more))))
  }

  function AfterWork(s: State): Option<State> {
    if !Looping(s) || !Top(s).pc.Worked? then None
    else if ShouldQuit(s) then Some(ExitLoop(s, Top(s).host)) else
    var t := s.(installed := None, armed := None);
    Some(if Top(s).pc.more then Again(t, Top(s).host) else SetTop(t, Loop(Top(s).host, InIdle(Top(s).pc.info))))
  }

  /** DoIdleWork(), and what follows it until the wait: `quit` also stands for the exit of an application
      without a main window, `more` for idle work reported by the WebRT delegate. */
  function AfterIdle(s: State, more: bool, quit: bool): Option<State> {
    if !Looping(s) || !Top(s).pc.InIdle? then None else
    var t := if quit then s.(quits := s.quits[|s.quits| - 1 := true]) else s;
    Some(if ShouldQuit(t) then ExitLoop(t, Top(s).host)
         else if more then Again(t, Top(s).host)
         else SetTop(t, Loop(Top(s).host, Wait(Top(s).pc.info, true))))
  }

  function BeginWait(s: State, expired: bool): Option<State> {
    if !Looping(s) || !Top(s).pc.Wait? then None
    else if expired then (if Top(s).pc.info.At? then Some(Again(s, Top(s).host)) else None)
    else Some(SetTop(s, Loop(Top(s).host, Blocked(Top(s).pc.info, Top(s).pc.available))))
  }

  function EndWait(s: State, timeout: bool): Option<State> {
    if !Looping(s) || !Top(s).pc.Blocked? then None
    else if !timeout then Some(SetTop(s, Loop(Top(s).host, Woken(Top(s).pc.info))))
    else if Top(s).pc.info.At? then Some(SetTop(s, Loop(Top(s).host, Wait(Top(s).pc.info, Top(s).pc.available))))
    else None
  }

  function LookForMessage(s: State, sent: bool): Option<State> {
    if !Looping(s) || !Top(s).pc.Woken? then None else
    var t := s.(seen := s.queue.Keys);
    Some(if sent || s.queue != map[] then Again(t, Top(s).host)
         else SetTop(t, Loop(Top(s).host, Wait(Top(s).pc.info, false))))
  }

  function NextLoop(s: State, a: LoopAction): Option<State> {
    match a
    case LoopPeek(choice, sent) => PeekMessage(s, choice, sent)
    case LoopHelper => HandleMessage(s)
    case LoopWork => StartWork(s)
    case LoopAfterWork => AfterWork(s)
    case IdleSchedule => if Looping(s) && Top(s).pc.InIdle? then Some(Push(s, Schedule(Cas))) else None
    case IdleDone(more, quit) => AfterIdle(s, more, quit)
    case StartWait(expired) => BeginWait(s, expired)
    case Woke(timeout) => EndWait(s, timeout)
    case AfterWake(sent) => LookForMessage(s, sent)
  }

  // ----- The transition system -----

  function Next(s: State, a: Action): Option<State> {
    match a
    case Caller(c) => NextCaller(s, c)
    case Os(o) => NextOs(s, o)
    case Code(c) => NextOutside(s, c)
    case SentMessage => NextSent(s)
    case Scheduling(c) => NextSchedule(s, c)
    case Timing(c) => NextTimer(s, c)
    case Replacement(c) => NextReplace(s, c)
    case Handling(c) => NextHandler(s, c)
    case Spinning(c) => NextLoop(s, c)
  }

  function RunFrom(s: State, actions: seq<Action>): Option<State>
    decreases |actions|
  {
    if actions == [] then Some(s) else
    match Next(s, actions[0])
    case None => None
    case Some(t) => RunFrom(t, actions[1..])
  }

  ghost predicate Reachable(s: State) {
    exists actions: seq<Action> :: RunFrom(InitState(), actions) == Some(s)
  }
}
