/** The three loops of MessagePumpForUI (base/message_loop/message_pump_win.cc): the stock branch of DoRunLoop(), the
    branch this repository adds for a WebRT delegate, and OnProcessNextWindowsMessage(), one turn for a message that a
    host peeked.  The code the loops call is a parameter: functions of the pump's state and the rest of the world. */
module RunLoop {
  import opened Wrappers

  type Msg = int
  type Ticks = int

  /** What the loops and the code they call share. */
  datatype Core<W> = Core(quit: bool, inNative: bool, timer: Option<Ticks>, world: W)

  datatype Info = Info(immediate: bool, time: Ticks)

  datatype Env<!W> = Env(
    status: Core<W> -> bool,                        // GetQueueStatus() reports a sent message
    peek: Core<W> -> (Core<W>, Option<Msg>),        // PeekMessage(); it may run sent messages
    dispatch: (Core<W>, Msg) -> (Core<W>, bool),    // ProcessMessageHelper()
    work: Core<W> -> (Core<W>, Info),               // the delegate's DoWork()
    nested: Core<W> -> Option<bool>,                // what a Run() nested in that DoWork() leaves in the shared flag
    idle: Core<W> -> (Core<W>, bool),               // the delegate's DoIdleWork()
    headless: Core<W> -> bool,                      // the application type needs a main window and there is none
    idleMessage: Core<W> -> bool,                   // the WebRT delegate's IsAppIdleMessage()
    rtIdle: Core<W> -> (Core<W>, bool),             // the WebRT delegate's DoIdleWork()
    wait: (Core<W>, Info) -> Core<W>)               // WaitForWork()

  /** How a turn of a loop ends. */
  datatype Turn<W> = Turn(core: Core<W>, broke: bool)

  // ----- The stock loop, as a function -----

  /** ProcessNextWindowsMessage(). */
  function Messages<W>(env: Env<W>, c: Core<W>): (Core<W>, bool) {
    var sent := env.status(c);
    var (d, msg) := env.peek(c);
    if msg.None? then (d, sent) else
    var (e, helped) := env.dispatch(d, msg.value);
    (e, sent || helped)
  }

  /** From DoWork() on; `more` is what handling messages made plausible. */
  function Rest<W>(env: Env<W>, c: Core<W>, more: bool): Turn<W> {
    var d := c.(inNative := false);
    if d.quit then Turn(d, true) else
    var (worked, info) := env.work(d);
    var e := worked.(inNative := false);
    if e.quit then Turn(e, true) else
    var f := e.(timer := None);
    if more || info.immediate then Turn(f, false) else
    var (g, idled) := env.idle(f);
    if g.quit then Turn(g, true)
    else if idled then Turn(g, false)
    else Turn(env.wait(g, info), false)
  }

  function StockTurn<W>(env: Env<W>, c: Core<W>): Turn<W> {
    var (d, more) := Messages(env, c.(inNative := false));
    Rest(env, d, more)
  }

  /** The first `n` turns of the loop, or fewer if it ends. */
  function StockTurns<W>(env: Env<W>, c: Core<W>, n: nat): Turn<W> {
    if n == 0 then Turn(c, false) else
    var before := StockTurns(env, c, n - 1);
    if before.broke then before else StockTurn(env, before.core)
  }

  // ----- The WebRT branch, as a function -----

  /** more_work_is_plausible after DoWork(): a member, so a nested Run() leaves its own value in it. */
  function Plausible<W>(env: Env<W>, c: Core<W>, more: bool, info: Info): bool {
    (if env.nested(c).Some? then env.nested(c).value else more) || info.immediate
  }

  function RtRest<W>(env: Env<W>, c: Core<W>, more: bool): Turn<W> {
    var d := c.(inNative := false);
    if d.quit then Turn(d, true) else
    var (worked, info) := env.work(d);
    var e := worked.(inNative := false);
    if e.quit then Turn(e, true) else
    var f := e.(timer := None);
    if Plausible(env, d, more, info) then Turn(f, false) else
    var (g, idled) := env.idle(f);
    if g.quit then Turn(g, true)
    else if idled then Turn(g, false)
    else RtIdle(env, g, info)
  }

  /** What the branch adds before the wait. */
  function RtIdle<W>(env: Env<W>, c: Core<W>, info: Info): Turn<W> {
    if env.headless(c) then Turn(c.(quit := true), true) else
    var (d, busy) := env.rtIdle(c);
    if busy then Turn(d, false) else Turn(env.wait(d, info), false)
  }

  function RtTurn<W>(env: Env<W>, c: Core<W>): Turn<W> {
    var (d, more) := Messages(env, c.(inNative := false));
    RtRest(env, d, more)
  }

  function RtTurns<W>(env: Env<W>, c: Core<W>, n: nat): Turn<W> {
    if n == 0 then Turn(c, false) else
    var before := RtTurns(env, c, n - 1);
    if before.broke then before else RtTurn(env, before.core)
  }

  /** One turn for a message that is already peeked. */
  function HostTurn<W>(env: Env<W>, c: Core<W>, msg: Msg): Turn<W> {
    var (d, helped) := env.dispatch(c, msg);
    RtRest(Unshared(env), d, env.status(c) || helped)
  }

  /** An environment in which nested runs do not share the flag of the outer one. */
  function Unshared<W>(env: Env<W>): Env<W> {
    env.(nested := (c: Core<W>) => None)
  }

  /** A host peeks and hands what it gets to OnProcessNextWindowsMessage(). */
  function PeekAndStep<W>(env: Env<W>, c: Core<W>): Turn<W> {
    var (d, msg) := env.peek(c);
    if msg.None? then Turn(d, false) else HostTurn(env, d, msg.value)
  }

  function HostTurns<W>(env: Env<W>, c: Core<W>, n: nat): Turn<W> {
    if n == 0 then Turn(c, false) else
    var before := HostTurns(env, c, n - 1);
    if before.broke then before else PeekAndStep(env, before.core)
  }

  // ----- The pump -----

  class Pump<!W(!new)> {
    const env: Env<W>
    var quit: bool
    var inNative: bool
    var timer: Option<Ticks>
    var world: W
    var more: bool          // the member the WebRT branch uses
    var isIdle: bool
    var idleCount: int

    constructor (env: Env<W>, world: W)
      ensures this.env == env && Now() == Core(false, false, None, world)
    {
      this.env, this.world := env, world;
      quit, inNative, timer, more, isIdle, idleCount := false, false, None, false, true, 0;
    }

    function Now(): Core<W>
      reads this
    {
      Core(quit, inNative, timer, world)
    }

    /** Code outside the loops ran. */
    method Became(c: Core<W>)
      modifies this`quit, this`inNative, this`timer, this`world
      ensures Now() == c
    {
      quit, inNative, timer, world := c.quit, c.inNative, c.timer, c.world;
    }

    method ProcessNextWindowsMessage() returns (plausible: bool)
      modifies this`quit, this`inNative, this`timer, this`world
      ensures (Now(), plausible) == Messages(env, old(Now()))
    {
      plausible := env.status(Now());
      var (c, msg) := env.peek(Now());
      Became(c);
      if msg.Some? {
        var (d, helped) := env.dispatch(Now(), msg.value);
        Became(d);
        plausible := plausible || helped;
      }
    }

    /** One turn of the stock branch. */
    method StockOnce() returns (broke: bool)
      modifies this
      ensures Turn(Now(), broke) == StockTurn(env, old(Now()))
    {
      inNative := false;
      var plausible := ProcessNextWindowsMessage();
      inNative := false;
      if quit {
        return true;
      }
      var (c, info) := env.work(Now());
      Became(c);
      inNative := false;
      plausible := plausible || info.immediate;
      if quit {
        return true;
      }
      if timer.Some? {
        timer := None;
      }
      if plausible {
        return false;
      }
      var (d, idled) := env.idle(Now());
      Became(d);
      if quit {
        return true;
      }
      if idled {
        return false;
      }
      Became(env.wait(Now(), info));
      broke := false;
    }

    /** The loop of the stock branch, for at most `n` turns. */
    method StockLoop(n: nat) returns (broke: bool)
      modifies this
      ensures Turn(Now(), broke) == StockTurns(env, old(Now()), n)
    {
      broke := false;
      var i := 0;
      while i < n && !broke
        invariant i <= n && Turn(Now(), broke) == StockTurns(env, old(Now()), i)
      {
        broke := StockOnce();
        i := i + 1;
      }
      if broke { StockStays(env, old(Now()), i, n); }
    }

    /** The end of a turn that found nothing to do. */
    method IdleOnce(info: Info) returns (broke: bool)
      modifies this
      ensures Turn(Now(), broke) == RtIdle(env, old(Now()), info)
    {
      if env.headless(Now()) {
        quit := true;
        return true;
      }
      if env.idleMessage(Now()) {
        isIdle, idleCount := true, 0;
      }
      var (c, busy) := env.rtIdle(Now());
      Became(c);
      if !busy {
        Became(env.wait(Now(), info));
      }
      broke := false;
    }

    /** One turn of the WebRT branch. */
    method RtOnce() returns (broke: bool)
      modifies this
      ensures Turn(Now(), broke) == RtTurn(env, old(Now()))
    {
      inNative := false;
      more := ProcessNextWindowsMessage();
      inNative := false;
      if quit {
        return true;
      }
      var nested := env.nested(Now());
      var (c, info) := env.work(Now());
      Became(c);
      if nested.Some? {
        more := nested.value;
      }
      inNative := false;
      more := more || info.immediate;
      if quit {
        return true;
      }
      if timer.Some? {
        timer := None;
      }
      if !more {
        var (d, idled) := env.idle(Now());
        Became(d);
        more := idled;
        if quit {
          return true;
        }
        if !more {
          broke := IdleOnce(info);
          return;
        }
      }
      broke := false;
    }

    method RtLoop(n: nat) returns (broke: bool)
      modifies this
      ensures Turn(Now(), broke) == RtTurns(env, old(Now()), n)
    {
      broke := false;
      var i := 0;
      while i < n && !broke
        invariant i <= n && Turn(Now(), broke) == RtTurns(env, old(Now()), i)
      {
        broke := RtOnce();
        i := i + 1;
      }
      if broke { RtStays(env, old(Now()), i, n); }
    }

    /** OnProcessNextWindowsMessage(): 1000 tells the host to leave its loop.  Its flag is a local. */
    method HostStep(msg: Msg) returns (code: int)
      modifies this
      ensures code == 1000 || code == 2000
      ensures Turn(Now(), code == 1000) == HostTurn(env, old(Now()), msg)
    {
      var plausible := env.status(Now());
      var (b, helped) := env.dispatch(Now(), msg);
      Became(b);
      plausible := plausible || helped;
      inNative := false;
      if quit {
        return 1000;
      }
      var (c, info) := env.work(Now());
      Became(c);
      inNative := false;
      plausible := plausible || info.immediate;
      if quit {
        return 1000;
      }
      if timer.Some? {
        timer := None;
      }
      if !plausible {
        var (d, idled) := env.idle(Now());
        Became(d);
        if quit {
          return 1000;
        }
        if !idled {
          var broke := IdleOnce(info);
          return if broke then 1000 else 2000;
        }
      }
      code := 2000;
    }

    /** A host's loop, for at most `n` peeks. */
    method HostLoop(n: nat) returns (code: int)
      modifies this
      ensures code == 1000 || code == 2000
      ensures Turn(Now(), code == 1000) == HostTurns(env, old(Now()), n)
    {
      code := 2000;
      var i := 0;
      while i < n && code == 2000
        invariant i <= n && (code == 1000 || code == 2000)
        invariant Turn(Now(), code == 1000) == HostTurns(env, old(Now()), i)
      {
        var (c, msg) := env.peek(Now());
        Became(c);
        if msg.Some? { code := HostStep(msg.value); }
        i := i + 1;
      }
      if code == 1000 { HostStays(env, old(Now()), i, n); }
    }
  }

  lemma {:induction false} StockStays<W>(env: Env<W>, c: Core<W>, k: nat, n: nat)
    requires k <= n && StockTurns(env, c, k).broke
    ensures StockTurns(env, c, n) == StockTurns(env, c, k)
    decreases n - k
  {
    if k == n {
    } else {
      StockStays(env, c, k, n - 1);
    }
  }

  lemma {:induction false} RtStays<W>(env: Env<W>, c: Core<W>, k: nat, n: nat)
    requires k <= n && RtTurns(env, c, k).broke
    ensures RtTurns(env, c, n) == RtTurns(env, c, k)
    decreases n - k
  {
    if k == n {
    } else {
      RtStays(env, c, k, n - 1);
    }
  }

  lemma {:induction false} HostStays<W>(env: Env<W>, c: Core<W>, k: nat, n: nat)
    requires k <= n && HostTurns(env, c, k).broke
    ensures HostTurns(env, c, n) == HostTurns(env, c, k)
    decreases n - k
  {
    if k == n {
    } else {
      HostStays(env, c, k, n - 1);
    }
  }

  // ----- The host drives the same loop -----

  /** What is called after the native-loop flag was lowered returns with the flag down. */
  ghost predicate KeepsFlagDown<W(!new)>(env: Env<W>) {
    && (forall c: Core<W> :: !c.inNative ==> !env.idle(c).0.inNative)
    && (forall c: Core<W> :: !c.inNative ==> !env.rtIdle(c).0.inNative)
    && (forall c: Core<W>, info: Info :: !c.inNative ==> !env.wait(c, info).inNative)
  }

  /** The host's peek delivers, no sent message is pending on one side of it only, and DoWork() runs no nested loop. */
  ghost predicate OneMessagePerTurn<W(!new)>(env: Env<W>) {
    forall c: Core<W> :: !c.inNative ==>
      env.peek(c).1.Some? && env.status(c) == env.status(env.peek(c).0) && env.nested(c).None?
  }

  /** A turn that goes on leaves the native-loop flag as it was lowered before the tail of the turn. */
  lemma RtTurnKeepsFlagDown<W(!new)>(env: Env<W>, c: Core<W>)
    requires KeepsFlagDown(env)
    ensures !RtTurn(env, c).core.inNative
  {
    var (d, more) := Messages(env, c.(inNative := false));
    var k := d.(inNative := false);
    if !k.quit {
      var (worked, info) := env.work(k);
      var f := worked.(inNative := false, timer := None);
      var (g, idled) := env.idle(f);
      assert !g.inNative;
      var (h, busy) := env.rtIdle(g);
      assert !h.inNative && !env.wait(h, info).inNative;
    }
  }

  lemma {:induction false} RtTurnsKeepFlagDown<W(!new)>(env: Env<W>, c: Core<W>, n: nat)
    requires KeepsFlagDown(env) && !c.inNative
    ensures !RtTurns(env, c, n).core.inNative
  {
    if n == 0 {
    } else {
      RtTurnsKeepFlagDown(env, c, n - 1);
      var before := RtTurns(env, c, n - 1);
      if !before.broke { RtTurnKeepsFlagDown(env, before.core); }
    }
  }

  lemma HostTurnIsRtTurn<W(!new)>(env: Env<W>, c: Core<W>)
    requires OneMessagePerTurn(env) && !c.inNative
    ensures PeekAndStep(env, c) == RtTurn(env, c)
  {
    assert c.(inNative := false) == c;
    var (d, msg) := env.peek(c);
    var (e, _) := env.dispatch(d, msg.value);
    assert env.nested(e.(inNative := false)).None?;
  }

  /** A host that starts with the native-loop flag down reaches, for any number of turns, what the WebRT branch reaches,
      and is told to stop when the branch breaks. */
  lemma {:induction false} HostFollowsLoop<W(!new)>(env: Env<W>, c: Core<W>, n: nat)
    requires OneMessagePerTurn(env) && KeepsFlagDown(env) && !c.inNative
    ensures HostTurns(env, c, n) == RtTurns(env, c, n)
  {
    if n == 0 {
    } else {
      HostFollowsLoop(env, c, n - 1);
      RtTurnsKeepFlagDown(env, c, n - 1);
      var before := RtTurns(env, c, n - 1);
      if before.broke {
      } else {
        HostTurnIsRtTurn(env, before.core);
        assert HostTurns(env, c, n) == PeekAndStep(env, before.core);
        assert RtTurns(env, c, n) == RtTurn(env, before.core);
      }
    }
  }

  /** The same about the programs: two pumps in equal states, one driven by a host and one in the WebRT branch of
      DoRunLoop(), end in equal states, and the host is told to leave exactly if the branch left its loop. */
  method SideBySide<W(!new)>(host: Pump<W>, looper: Pump<W>, n: nat) returns (code: int, broke: bool)
    requires host != looper && host.env == looper.env && host.Now() == looper.Now() && !host.inNative
    requires OneMessagePerTurn(host.env) && KeepsFlagDown(host.env)
    modifies host, looper
    ensures host.Now() == looper.Now()
    ensures code == (if broke then 1000 else 2000)
  {
    HostFollowsLoop(host.env, host.Now(), n);
    code := host.HostLoop(n);
    broke := looper.RtLoop(n);
  }

  // ----- What the added branch changes -----

  /** The application has a main window or needs none, and the WebRT delegate has no idle work of its own. */
  ghost predicate NoIdleOfItsOwn<W(!new)>(env: Env<W>) {
    forall c: Core<W> :: !env.headless(c) && env.rtIdle(c) == (c, false)
  }

  /** A turn up to DoWork(): the state in which it is called, and what handling messages made plausible. */
  function ToWork<W>(env: Env<W>, c: Core<W>): (Core<W>, bool) {
    var (d, more) := Messages(env, c.(inNative := false));
    (d.(inNative := false), more)
  }

  /** The state after DoWork(): the loop has control back and its timer is gone. */
  function Controlled<W>(env: Env<W>, k: Core<W>): Core<W> {
    env.work(k).0.(inNative := false, timer := None)
  }

  /** A Run() nested in the turn's DoWork() overwrote the shared flag with what the loop's own flag is not, and nothing
      else ends the turn or makes the flag irrelevant. */
  predicate Overwrites<W>(env: Env<W>, c: Core<W>) {
    var (k, more) := ToWork(env, c);
    && !k.quit
    && !env.work(k).0.quit
    && !env.work(k).1.immediate
    && env.nested(k) == Some(!more)
  }

  /** The idle part of a turn of the stock loop. */
  function IdleAndWait<W>(env: Env<W>, f: Core<W>, info: Info): Turn<W> {
    var (g, idled) := env.idle(f);
    if g.quit then Turn(g, true)
    else if idled then Turn(g, false)
    else Turn(env.wait(g, info), false)
  }

  /** The idle part of the added branch is then that of the stock loop. */
  lemma SameIdlePart<W(!new)>(env: Env<W>, f: Core<W>, info: Info)
    requires NoIdleOfItsOwn(env)
    ensures !env.idle(f).0.quit && !env.idle(f).1 ==>
              RtIdle(env, env.idle(f).0, info) == Turn(env.wait(env.idle(f).0, info), false)
  {
    var g := env.idle(f).0;
    assert !env.headless(g) && env.rtIdle(g) == (g, false);
  }

  /** A turn of the added branch is the stock loop's turn, unless a nested Run() overwrote the shared flag; then one of
      the two does its idle work and waits where the other goes on to its next turn. */
  lemma TurnsDifferExactly<W(!new)>(env: Env<W>, c: Core<W>)
    requires NoIdleOfItsOwn(env)
    ensures !Overwrites(env, c) ==> RtTurn(env, c) == StockTurn(env, c)
    ensures Overwrites(env, c) ==>
              var (k, more) := ToWork(env, c);
              var goesOn := Turn(Controlled(env, k), false);
              var idles := IdleAndWait(env, Controlled(env, k), env.work(k).1);
              && StockTurn(env, c) == (if more then goesOn else idles)
              && RtTurn(env, c) == (if more then idles else goesOn)
  {
    var (k, more) := ToWork(env, c);
    SameIdlePart(env, Controlled(env, k), env.work(k).1);
    if k.quit || env.work(k).0.quit {
    } else {
      assert env.work(k).0.(inNative := false).(timer := None) == Controlled(env, k);
      if env.nested(k).None? {} else {}
    }
  }

  /** Where no nested Run() overwrites the flag, the branch this repository adds is the stock loop, for any number of
      turns. */
  lemma {:induction false} RtIsStock<W(!new)>(env: Env<W>, c: Core<W>, n: nat)
    requires NoIdleOfItsOwn(env) && forall d: Core<W> :: !Overwrites(env, d)
    ensures RtTurns(env, c, n) == StockTurns(env, c, n)
  {
    if n == 0 {
    } else {
      RtIsStock(env, c, n - 1);
      var before := RtTurns(env, c, n - 1);
      if !before.broke { TurnsDifferExactly(env, before.core); }
    }
  }

  // ----- One turn, call by call -----

  /** What a turn calls. */
  datatype Callee = Peeking | Dispatching | Working | Idling | IdlingMore | Waiting(time: Ticks)

  /** A call, and what it finds: whether in_native_loop_ is up and a timer is set. */
  datatype Call = Call(callee: Callee, inNative: bool, armed: bool)

  /** How everything that one turn calls answers. */
  datatype Answers = Answers(
    sent: bool,           // GetQueueStatus() reports a sent message
    message: bool,        // the peek finds a message
    helped: bool,         // ProcessMessageHelper() says so
    quitByMessage: bool,
    immediate: bool,      // DoWork() has more work at once
    nested: Option<bool>,
    quitByWork: bool,
    idled: bool,          // DoIdleWork() has more
    quitByIdle: bool,
    headless: bool,
    busy: bool)           // the WebRT delegate's idle work has more

  /** A world that lists the calls.  Everything that is called leaves the native-loop flag up, and messages and work
      set a timer. */
  function Scripted(a: Answers): Env<seq<Call>> {
    Env(
      status := c => a.sent,
      peek := (c: Core<seq<Call>>) => (Called(c, Peeking, false, false), if a.message then Some(0) else None),
      dispatch := (c: Core<seq<Call>>, m) => (Called(c, Dispatching, a.quitByMessage, true), a.helped),
      work := (c: Core<seq<Call>>) => (Called(c, Working, a.quitByWork, true), Info(a.immediate, 9)),
      nested := c => a.nested,
      idle := (c: Core<seq<Call>>) => (Called(c, Idling, a.quitByIdle, false), a.idled),
      headless := c => a.headless,
      idleMessage := c => false,
      rtIdle := (c: Core<seq<Call>>) => (Called(c, IdlingMore, false, false), a.busy),
      wait := (c: Core<seq<Call>>, info: Info) => Called(c, Waiting(info.time), false, false))
  }

  function Called(c: Core<seq<Call>>, callee: Callee, quit: bool, arms: bool): Core<seq<Call>> {
    Core(c.quit || quit, true, if arms then Some(5) else c.timer, c.world + [Call(callee, c.inNative, c.timer.Some?)])
  }

  /** A turn starts, perhaps in a native loop and with a timer. */
  function Starting(inNative: bool, timer: Option<Ticks>): Core<seq<Call>> {
    Core(false, inNative, timer, [])
  }

  /** The calls up to DoWork(): messages first, and work only if none of them quit. */
  function ToWorkCalls(a: Answers, armed: bool): seq<Call> {
    [Call(Peeking, false, armed)]
    + (if a.message then [Call(Dispatching, true, armed)] else [])
    + (if a.message && a.quitByMessage then [] else [Call(Working, false, armed || a.message)])
  }

  predicate QuitsEarly(a: Answers) {
    (a.message && a.quitByMessage) || a.quitByWork
  }

  /** A message was handled, a sent one reported, or DoWork() has more at once: another turn comes before idle work. */
  predicate Plausibly(a: Answers) {
    a.sent || (a.message && a.helped) || a.immediate
  }

  lemma StockCallsOn(a: Answers, inNative: bool, timer: Option<Ticks>)
    requires QuitsEarly(a) || Plausibly(a)
    ensures var t := StockTurn(Scripted(a), Starting(inNative, timer));
            && t.core.world == ToWorkCalls(a, timer.Some?) && (t.broke <==> QuitsEarly(a))
            && (!QuitsEarly(a) ==> t.core.timer.None?)
  {
  }

  lemma StockCallsIdle(a: Answers, inNative: bool, timer: Option<Ticks>)
    requires !QuitsEarly(a) && !Plausibly(a)
    ensures var t := StockTurn(Scripted(a), Starting(inNative, timer));
            && t.core.world == ToWorkCalls(a, timer.Some?) + [Call(Idling, false, false)]
                 + (if a.quitByIdle || a.idled then [] else [Call(Waiting(9), true, false)])
            && (t.broke <==> a.quitByIdle) && t.core.timer.None?
  {
  }

  /** One turn of the stock branch: idle work is done exactly if no other turn is plausible, with the flag down and no
      timer, and waiting comes exactly if that did nothing either. */
  lemma StockCalls(a: Answers, inNative: bool, timer: Option<Ticks>)
    ensures var t := StockTurn(Scripted(a), Starting(inNative, timer));
            && t.core.world == ToWorkCalls(a, timer.Some?)
                 + (if QuitsEarly(a) || Plausibly(a) then []
                    else [Call(Idling, false, false)]
                         + (if a.quitByIdle || a.idled then [] else [Call(Waiting(9), true, false)]))
            && (t.broke <==> QuitsEarly(a) || (!Plausibly(a) && a.quitByIdle))
            && (!QuitsEarly(a) ==> t.core.timer.None?)
  {
    if QuitsEarly(a) || Plausibly(a) {
      StockCallsOn(a, inNative, timer);
    } else {
      StockCallsIdle(a, inNative, timer);
    }
  }

  /** What the WebRT branch adds to the idle part: an exit without a window, and idle work of its own. */
  function IdleCalls(a: Answers): seq<Call> {
    [Call(Idling, false, false)]
    + (if a.quitByIdle || a.idled || a.headless then []
       else [Call(IdlingMore, true, false)] + (if a.busy then [] else [Call(Waiting(9), true, false)]))
  }

  predicate IdleQuits(a: Answers) {
    a.quitByIdle || (!a.idled && a.headless)
  }

  /** A nested Run() decides for the messages whether more is plausible. */
  predicate PlausiblyNested(a: Answers) {
    (if a.nested.Some? then a.nested.value else a.sent || (a.message && a.helped)) || a.immediate
  }

  lemma RtCallsEarly(a: Answers, inNative: bool, timer: Option<Ticks>)
    requires QuitsEarly(a)
    ensures var t := RtTurn(Scripted(a), Starting(inNative, timer));
            t.core.world == ToWorkCalls(a, timer.Some?) && t.broke
  {
  }

  lemma RtCallsPlausible(a: Answers, inNative: bool, timer: Option<Ticks>)
    requires !QuitsEarly(a) && PlausiblyNested(a)
    ensures var t := RtTurn(Scripted(a), Starting(inNative, timer));
            t.core.world == ToWorkCalls(a, timer.Some?) && !t.broke && t.core.timer.None?
  {
  }

  lemma RtCallsExit(a: Answers, inNative: bool, timer: Option<Ticks>)
    requires !QuitsEarly(a) && !PlausiblyNested(a) && !a.quitByIdle && !a.idled && a.headless
    ensures var t := RtTurn(Scripted(a), Starting(inNative, timer));
            && t.core.world == ToWorkCalls(a, timer.Some?) + IdleCalls(a)
            && (t.broke <==> IdleQuits(a)) && t.core.timer.None?
  {
  }

  lemma RtCallsBusy(a: Answers, inNative: bool, timer: Option<Ticks>)
    requires !QuitsEarly(a) && !PlausiblyNested(a) && !a.quitByIdle && !a.idled && !a.headless && a.busy
    ensures var t := RtTurn(Scripted(a), Starting(inNative, timer));
            && t.core.world == ToWorkCalls(a, timer.Some?) + IdleCalls(a)
            && (t.broke <==> IdleQuits(a)) && t.core.timer.None?
  {
  }

  lemma RtCallsWait(a: Answers, inNative: bool, timer: Option<Ticks>)
    requires !QuitsEarly(a) && !PlausiblyNested(a) && !a.quitByIdle && !a.idled && !a.headless && !a.busy
    ensures var t := RtTurn(Scripted(a), Starting(inNative, timer));
            && t.core.world == ToWorkCalls(a, timer.Some?) + IdleCalls(a)
            && (t.broke <==> IdleQuits(a)) && t.core.timer.None?
  {
  }

  lemma RtCallsIdle(a: Answers, inNative: bool, timer: Option<Ticks>)
    requires !QuitsEarly(a) && !PlausiblyNested(a)
    ensures var t := RtTurn(Scripted(a), Starting(inNative, timer));
            && t.core.world == ToWorkCalls(a, timer.Some?) + IdleCalls(a)
            && (t.broke <==> IdleQuits(a)) && t.core.timer.None?
  {
    if a.quitByIdle || a.idled {
    } else if a.headless {
      RtCallsExit(a, inNative, timer);
    } else if a.busy {
      RtCallsBusy(a, inNative, timer);
    } else {
      RtCallsWait(a, inNative, timer);
    }
  }

  /** One turn of the WebRT branch. */
  lemma RtCalls(a: Answers, inNative: bool, timer: Option<Ticks>)
    ensures var t := RtTurn(Scripted(a), Starting(inNative, timer));
            && t.core.world == ToWorkCalls(a, timer.Some?)
                 + (if QuitsEarly(a) || PlausiblyNested(a) then [] else IdleCalls(a))
            && (t.broke <==> QuitsEarly(a) || (!PlausiblyNested(a) && IdleQuits(a)))
            && (!QuitsEarly(a) ==> t.core.timer.None?)
  {
    if QuitsEarly(a) {
      RtCallsEarly(a, inNative, timer);
    } else if PlausiblyNested(a) {
      RtCallsPlausible(a, inNative, timer);
    } else {
      RtCallsIdle(a, inNative, timer);
    }
  }

  /** One host step, for a message that is there: its dispatch finds the flag as the host left it, and the rest is as in
      the WebRT branch without a nested Run(). */
  lemma HostCalls(a: Answers, inNative: bool, timer: Option<Ticks>, msg: Msg)
    requires a.message
    ensures var t := HostTurn(Scripted(a), Starting(inNative, timer), msg);
            && t.core.world == [Call(Dispatching, inNative, timer.Some?)]
                 + (if a.quitByMessage then [] else [Call(Working, false, true)])
                 + (if QuitsEarly(a) || Plausibly(a) then [] else IdleCalls(a))
            && (t.broke <==> QuitsEarly(a) || (!Plausibly(a) && IdleQuits(a)))
            && (!QuitsEarly(a) ==> t.core.timer.None?)
  {
  }

  // ----- Where the loops differ -----

  /** A world that only remembers whether idle work was done and what dispatched messages saw of the native-loop
      flag. */
  datatype Diary = Diary(idled: bool, saw: seq<bool>)

  /** One message after another, no work, and a wait that changes nothing. */
  function Calm(): Env<Diary> {
    Env(
      status := c => false,
      peek := c => (c, Some(0)),
      dispatch := (c: Core<Diary>, m) => (c.(world := c.world.(saw := c.world.saw + [c.inNative])), false),
      work := c => (c, Info(false, 0)),
      nested := c => None,
      idle := (c: Core<Diary>) => (c.(world := c.world.(idled := true)), false),
      headless := c => false,
      idleMessage := c => false,
      rtIdle := c => (c, false),
      wait := (c: Core<Diary>, info) => c)
  }

  const START := Core(false, false, None, Diary(false, []))

  /** A Run() nested in DoWork() that leaves its flag set makes the outer loop skip its idle work. */
  lemma NestedRunSkipsIdle()
    ensures var env := Calm().(nested := (c: Core<Diary>) => Some(true));
            !RtTurn(env, START).core.world.idled && StockTurn(env, START).core.world.idled
  {
  }

  /** DoRunLoop() lowers the native-loop flag before it peeks, a host step does not: after a wait in which a sent
      message's handler entered a native loop, the host's next message runs with the flag up. */
  lemma HostDispatchesInNativeLoop()
    ensures var env := Calm().(wait := (c: Core<Diary>, info) => c.(inNative := true));
            && OneMessagePerTurn(env)
            && RtTurns(env, START, 2).core.world.saw == [false, false]
            && HostTurns(env, START, 2).core.world.saw == [false, true]
  {
    var env := Calm().(wait := (c: Core<Diary>, info) => c.(inNative := true));
    var first := RtTurn(env, START);
    assert RtTurns(env, START, 1) == first && HostTurns(env, START, 1) == first;
    assert first.core == Core(false, true, None, Diary(true, [] + [false]));
    assert RtTurns(env, START, 2) == RtTurn(env, first.core);
  }

  /** The other conditions of HostFollowsLoop are needed too: a host does nothing when its peek finds nothing, asks for
      sent messages after the peek that runs them, and is not told what a nested Run() left in the flag. */
  lemma HostDiffers()
    ensures var env := Calm().(peek := (c: Core<Diary>) => (c, None));
            KeepsFlagDown(env) && !HostTurns(env, START, 1).core.world.idled && RtTurns(env, START, 1).core.world.idled
    ensures var env := Calm().(status := (c: Core<Diary>) => c.world.saw == [],
                               peek := (c: Core<Diary>) => (c.(world := Diary(c.world.idled, [true])), Some(0)));
            KeepsFlagDown(env) && HostTurns(env, START, 1).core.world.idled && !RtTurns(env, START, 1).core.world.idled
    ensures var env := Calm().(nested := (c: Core<Diary>) => Some(true));
            KeepsFlagDown(env) && HostTurns(env, START, 1).core.world.idled && !RtTurns(env, START, 1).core.world.idled
  {
    assert RtTurns(Calm(), START, 0) == Turn(START, false) == HostTurns(Calm(), START, 0);
  }
}
