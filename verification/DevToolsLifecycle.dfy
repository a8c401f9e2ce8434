/** The life of a DevToolsWindow (chrome/browser/devtools/devtools_window.cc): loading and docking in any order, and who
    owns the front-end's contents. */
module DevToolsLifecycle {
  /** LifeStage. */
  datatype Stage = NotLoaded | OnLoadFired | IsDockedSet | LoadCompleted | Closing

  /** DevToolsToggleAction::Type, as far as it matters here. */
  datatype Action = NoOp | Reveal | Inspect

  /** `creates`: a browser for an undocked window could be created. */
  datatype Event =
    | ScheduleShow(action: Action, creates: bool)
    | FrontendLoaded(creates: bool)
    | SetIsDocked(dock: bool, creates: bool)
    | CloseContents
    | CloseWindow
    | InspectedContentsClosing(closeOnDetach: bool)
    | RenderProcessGone

  /** The stage that both halves of the handshake amount to. */
  function StageOf(dockDecided: bool, loadFired: bool): Stage {
    if dockDecided && loadFired then LoadCompleted
    else if dockDecided then IsDockedSet
    else if loadFired then OnLoadFired
    else NotLoaded
  }

  /** The event closes a window: some only while it is docked. */
  predicate Shuts(isDocked: bool, e: Event) {
    e.CloseWindow? || e == InspectedContentsClosing(true) || (isDocked && (e.CloseContents? || e.RenderProcessGone?))
  }

  class Window {
    const canDock: bool
    var stage: Stage
    var isDocked: bool
    var owned: bool            // owned_main_web_contents_ holds the contents
    var browser: bool          // browser_ does
    var actionOnLoad: Action
    var checkFailed: bool      // a CHECK of CloseContents() failed
    var dcheckFailed: bool     // the DCHECK(can_dock_) of Show() failed
    ghost var dockDecided: bool
    ghost var loadFired: bool
    ghost var closed: bool     // CloseContents() has run

    constructor (canDock: bool)
      ensures this.canDock == canDock && Valid() && isDocked && owned && stage != Closing && !closed
      ensures dockDecided == !canDock && !loadFired && !checkFailed && !dcheckFailed && actionOnLoad == NoOp
    {
      this.canDock := canDock;
      stage := if canDock then NotLoaded else IsDockedSet;
      isDocked, owned, browser, actionOnLoad, checkFailed, dcheckFailed := true, true, false, NoOp, false, false;
      dockDecided, loadFired, closed := !canDock, false, false;
    }

    ghost predicate Valid()
      reads this
    {
      && (stage != Closing ==> stage == StageOf(dockDecided, loadFired))
      && (closed ==> stage == Closing && !owned && !browser)
      && (!closed ==> owned != browser)
      && (browser ==> !isDocked && (canDock ==> dockDecided && loadFired))
      && (!canDock ==> dockDecided && (isDocked && stage != Closing ==> actionOnLoad == NoOp))
    }

    /** How far a window that cannot dock has come. */
    ghost function Now(): Phase
      reads this
    {
      if dcheckFailed then Struck
      else if stage == Closing then Shut
      else if !isDocked then Undocked
      else if stage == LoadCompleted then Stray
      else Fresh
    }

    /** What every method of the window keeps. */
    twostate predicate Kept()
      reads this
    {
      && Valid()
      && (old(stage) == Closing ==> stage == Closing)
      && (old(closed) ==> closed)
      && (!old(closed) && closed ==> old(isDocked))
      && (old(dockDecided) ==> dockDecided) && (old(loadFired) ==> loadFired)
    }

    method CreateDevToolsBrowser(creates: bool)
      requires Valid() && !closed && !browser && !isDocked && (canDock ==> dockDecided && loadFired)
      modifies this`browser, this`owned
      ensures browser == creates && owned == !creates && Valid()
    {
      if !creates {
        return;
      }
      browser := true;
      owned := false;
    }

    method Show(action: Action, creates: bool)
      requires Valid() && (canDock && stage != Closing ==> stage == LoadCompleted)
      modifies this`browser, this`owned, this`dcheckFailed
      ensures Valid()
      ensures browser == (old(browser) || (stage != Closing && action != NoOp && !isDocked && creates))
      ensures dcheckFailed == (old(dcheckFailed) || (stage != Closing && action != NoOp && isDocked && !canDock))
    {
      if stage == Closing || action == NoOp {
        return;
      }
      if isDocked {
        dcheckFailed := dcheckFailed || !canDock;
        return;
      }
      if !browser {
        CreateDevToolsBrowser(creates);
      }
    }

    method LoadCompletedNow(creates: bool)
      requires Valid() && stage == LoadCompleted
      modifies this`browser, this`owned, this`dcheckFailed, this`actionOnLoad
      ensures Valid() && actionOnLoad == NoOp
      ensures browser == (old(browser) || (old(actionOnLoad) != NoOp && !isDocked && creates))
      ensures dcheckFailed == (old(dcheckFailed) || (old(actionOnLoad) != NoOp && isDocked && !canDock))
    {
      Show(actionOnLoad, creates);
      actionOnLoad := NoOp;
    }

    method Schedule(action: Action, creates: bool)
      requires Valid()
      modifies this
      ensures Kept() && stage == old(stage) && closed == old(closed)
      ensures dockDecided == old(dockDecided) && loadFired == old(loadFired)
      ensures isDocked == (old(isDocked) && (canDock || stage == LoadCompleted))
      ensures dcheckFailed == (old(dcheckFailed) || (stage == LoadCompleted && action != NoOp && isDocked && !canDock))
      ensures actionOnLoad == if stage == LoadCompleted then old(actionOnLoad) else action
      ensures browser == (old(browser) || (creates && !isDocked && stage != Closing
                                           && if stage == LoadCompleted then action != NoOp else !canDock))
    {
      if stage == LoadCompleted {
        Show(action, creates);
        return;
      }
      actionOnLoad := action;
      if !canDock {
        isDocked := false;
        Show(Reveal, creates);
      }
    }

    /** SetIsDocked(). */
    method Dock(dockRequested: bool, creates: bool)
      requires Valid()
      modifies this
      ensures Kept() && loadFired == old(loadFired) && closed == old(closed)
      ensures old(stage) == Closing ==> isDocked == old(isDocked) && dockDecided == old(dockDecided)
      ensures old(stage) != Closing ==> isDocked == (dockRequested && canDock) && dockDecided && stage != Closing
      ensures old(stage) == LoadCompleted ==> browser == (!isDocked && (old(browser) || (old(isDocked) && creates)))
      ensures dcheckFailed == old(dcheckFailed)
    {
      if stage == Closing {
        return;
      }
      var dock := dockRequested && canDock;
      var wasDocked := isDocked;
      isDocked := dock;
      dockDecided := true;
      if stage != LoadCompleted {
        stage := if stage == OnLoadFired then LoadCompleted else IsDockedSet;
        if stage == LoadCompleted {
          LoadCompletedNow(creates);
        }
        return;
      }
      if dock == wasDocked {
        return;
      }
      if dock && !wasDocked && browser {
        browser := false;
        owned := true;
      }
      Show(Reveal, creates);
    }

    /** OnLoadCompleted(); the front end may load again. */
    method Loaded(creates: bool)
      requires Valid()
      modifies this
      ensures Kept() && dockDecided == old(dockDecided) && closed == old(closed) && isDocked == old(isDocked)
      ensures old(stage) != Closing ==> loadFired && stage != Closing
      ensures old(stage) == Closing ==> loadFired == old(loadFired)
      ensures dcheckFailed == (old(dcheckFailed)
                               || (stage == LoadCompleted && old(actionOnLoad) != NoOp && isDocked && !canDock))
      ensures stage == LoadCompleted ==> actionOnLoad == NoOp
      ensures browser == (old(browser) || (stage == LoadCompleted && old(actionOnLoad) != NoOp && !isDocked && creates))
    {
      if stage == Closing {
        return;
      }
      loadFired := true;
      if stage != LoadCompleted {
        stage := if stage == IsDockedSet then LoadCompleted else OnLoadFired;
      }
      if stage == LoadCompleted {
        LoadCompletedNow(creates);
      }
    }

    /** CloseContents(), which the contents of a docked window ask for: the first time, its CHECKs hold. */
    method Close()
      requires Valid()
      modifies this
      ensures Kept() && isDocked == old(isDocked) && dcheckFailed == old(dcheckFailed)
      ensures loadFired == old(loadFired) && dockDecided == old(dockDecided)
      ensures old(isDocked) && !old(closed) ==> stage == Closing && closed && checkFailed == old(checkFailed)
      ensures !old(isDocked) || old(closed) ==> checkFailed && stage == old(stage)
    {
      if !isDocked {
        checkFailed := true;
        return;
      }
      stage := Closing;
      if !owned {
        checkFailed := true;
        return;
      }
      owned := false;
      closed := true;
    }

    method Handle(e: Event)
      requires Valid()
      modifies this
      ensures Kept()
      ensures canDock ==> dcheckFailed == old(dcheckFailed)
      ensures !canDock ==> Now() == After(old(Now()), e)
      ensures loadFired <==> old(loadFired) || (e.FrontendLoaded? && old(stage) != Closing)
      ensures dockDecided <==> old(dockDecided) || (e.SetIsDocked? && old(stage) != Closing)
      ensures stage == Closing <==> old(stage) == Closing || Shuts(old(isDocked), e)
      ensures canDock ==> isDocked == if e.SetIsDocked? && old(stage) != Closing then e.dock else old(isDocked)
    {
      match e
      case ScheduleShow(action, creates) => Schedule(action, creates);
      case FrontendLoaded(creates) => Loaded(creates);
      case SetIsDocked(dock, creates) => Dock(dock, creates);
      case CloseContents => Close();
      case CloseWindow => stage := Closing;
      case InspectedContentsClosing(closeOnDetach) =>
        if closeOnDetach { stage := Closing; }
      case RenderProcessGone =>
        if isDocked { Close(); }
    }
  }

  // ----- Windows that cannot dock -----

  /** Fresh: nothing happened.  Undocked: is_docked_ was corrected.  Stray: the load completed while is_docked_ still
      had its initial value.  Struck: Show() then took the docked branch. */
  datatype Phase = Fresh | Undocked | Stray | Shut | Struck

  predicate Closes(e: Event) {
    e.CloseContents? || e.CloseWindow? || e == InspectedContentsClosing(true) || e.RenderProcessGone?
  }

  function After(p: Phase, e: Event): Phase {
    match p
    case Fresh =>
      if Closes(e) then Shut
      else if e.ScheduleShow? || e.SetIsDocked? then Undocked
      else if e.FrontendLoaded? then Stray
      else Fresh
    case Stray =>
      if Closes(e) then Shut
      else if e.SetIsDocked? then Undocked
      else if e.ScheduleShow? && e.action != NoOp then Struck
      else Stray
    case Undocked => if e.CloseWindow? || e == InspectedContentsClosing(true) then Shut else Undocked
    case Shut => Shut
    case Struck => Struck
  }

  function AfterAll(p: Phase, events: seq<Event>): Phase
    decreases |events|
  {
    if events == [] then p else AfterAll(After(p, events[0]), events[1..])
  }

  /** Nothing but reloads, empty requests and ignored closings happens before the window is asked to show itself. */
  predicate ShowComes(events: seq<Event>) {
    && events != []
    && if events[0].ScheduleShow? then events[0].action != NoOp || ShowComes(events[1..])
       else (events[0].FrontendLoaded? || events[0] == InspectedContentsClosing(false)) && ShowComes(events[1..])
  }

  /** The front end loads before anything else happens to the window, and the request to show it comes next. */
  predicate LoadsFirst(events: seq<Event>) {
    && events != []
    && if events[0].FrontendLoaded? then ShowComes(events[1..])
       else events[0] == InspectedContentsClosing(false) && LoadsFirst(events[1..])
  }

  lemma {:induction false} Final(p: Phase, events: seq<Event>)
    requires p == Undocked || p == Shut
    ensures AfterAll(p, events) != Struck
    decreases |events|
  {
    if events == [] {
    } else {
      Final(After(p, events[0]), events[1..]);
    }
  }

  lemma {:induction false} StruckStays(events: seq<Event>)
    ensures AfterAll(Struck, events) == Struck
    decreases |events|
  {
    if events == [] {
    } else {
      StruckStays(events[1..]);
    }
  }

  lemma {:induction false} StrayIsStruck(events: seq<Event>)
    ensures AfterAll(Stray, events) == Struck <==> ShowComes(events)
    decreases |events|
  {
    if events == [] {
    } else {
      var p := After(Stray, events[0]);
      if p == Struck { StruckStays(events[1..]); }
      else if p == Stray { StrayIsStruck(events[1..]); }
      else { Final(p, events[1..]); }
    }
  }

  /** The order matters: exactly these histories make the DCHECK of Show() fail. */
  lemma {:induction false} StruckExactly(events: seq<Event>)
    ensures AfterAll(Fresh, events) == Struck <==> LoadsFirst(events)
    decreases |events|
  {
    if events == [] {
    } else {
      var p := After(Fresh, events[0]);
      if p == Stray { StrayIsStruck(events[1..]); }
      else if p == Fresh { StruckExactly(events[1..]); }
      else { Final(p, events[1..]); }
    }
  }

  /** A window that is asked to show itself before anything else never fails it. */
  lemma ShownFirst(action: Action, creates: bool, events: seq<Event>)
    ensures AfterAll(Undocked, events) != Struck
    ensures AfterAll(Fresh, [ScheduleShow(action, creates)] + events) != Struck
  {
    Final(Undocked, events);
    StruckExactly([ScheduleShow(action, creates)] + events);
  }

  /** Every creator of a window calls ScheduleShow() before it returns to the message loop, so before the front end can
      load: whatever follows, the DCHECK holds, and so does what the window's methods keep. */
  method Open(canDock: bool, action: Action, creates: bool, events: seq<Event>) returns (w: Window)
    ensures w.Valid() && w.canDock == canDock && !w.dcheckFailed
  {
    ShownFirst(action, creates, events);
    StruckExactly([ScheduleShow(action, creates)] + events);
    w := Live(canDock, [ScheduleShow(action, creates)] + events);
  }

  // ----- Windows that can dock, told from their events -----

  /** What the last SetIsDocked() says; a window starts docked. */
  function DockedAfter(events: seq<Event>): bool
    decreases |events|
  {
    if events == [] then true
    else if events[|events| - 1].SetIsDocked? then events[|events| - 1].dock
    else DockedAfter(events[..|events| - 1])
  }

  /** None of the events closes a window that can dock. */
  predicate StaysOpen(events: seq<Event>) {
    forall j :: 0 <= j < |events| ==> !Shuts(DockedAfter(events[..j]), events[j])
  }

  predicate LoadsWhileOpen(events: seq<Event>) {
    exists i :: 0 <= i < |events| && events[i].FrontendLoaded? && StaysOpen(events[..i])
  }

  predicate DocksWhileOpen(events: seq<Event>) {
    exists i :: 0 <= i < |events| && events[i].SetIsDocked? && StaysOpen(events[..i])
  }

  lemma StaysOpenMore(before: seq<Event>, e: Event)
    ensures StaysOpen(before + [e]) <==> StaysOpen(before) && !Shuts(DockedAfter(before), e)
    ensures DockedAfter(before + [e]) == if e.SetIsDocked? then e.dock else DockedAfter(before)
  {
    var events, n := before + [e], |before|;
    assert events[..n] == before && events[n] == e;
    assert forall i :: 0 <= i < n ==> events[..i] == before[..i] && events[i] == before[i];
    if StaysOpen(events) { assert !Shuts(DockedAfter(events[..n]), events[n]); }
  }

  lemma LoadsMore(before: seq<Event>, e: Event)
    ensures LoadsWhileOpen(before + [e]) <==> LoadsWhileOpen(before) || (e.FrontendLoaded? && StaysOpen(before))
  {
    var events, n := before + [e], |before|;
    assert events[..n] == before && events[n] == e;
    assert forall i :: 0 <= i < n ==> events[..i] == before[..i] && events[i] == before[i];
    if LoadsWhileOpen(before) {
      var i :| 0 <= i < n && before[i].FrontendLoaded? && StaysOpen(before[..i]);
      assert events[i].FrontendLoaded? && StaysOpen(events[..i]);
    }
    assert e.FrontendLoaded? && StaysOpen(before) ==> events[n].FrontendLoaded? && StaysOpen(events[..n]);
  }

  lemma DocksMore(before: seq<Event>, e: Event)
    ensures DocksWhileOpen(before + [e]) <==> DocksWhileOpen(before) || (e.SetIsDocked? && StaysOpen(before))
  {
    var events, n := before + [e], |before|;
    assert events[..n] == before && events[n] == e;
    assert forall i :: 0 <= i < n ==> events[..i] == before[..i] && events[i] == before[i];
    if DocksWhileOpen(before) {
      var i :| 0 <= i < n && before[i].SetIsDocked? && StaysOpen(before[..i]);
      assert events[i].SetIsDocked? && StaysOpen(events[..i]);
    }
    assert e.SetIsDocked? && StaysOpen(before) ==> events[n].SetIsDocked? && StaysOpen(events[..n]);
  }

  /** What the fields of a window that can dock say of the events so far. */
  predicate Told(events: seq<Event>, stage: Stage, isDocked: bool, loadFired: bool, dockDecided: bool) {
    && (stage != Closing <==> StaysOpen(events))
    && (stage != Closing ==> isDocked == DockedAfter(events))
    && (loadFired <==> LoadsWhileOpen(events))
    && (dockDecided <==> DocksWhileOpen(events))
  }

  lemma ToldMore(before: seq<Event>, e: Event, was: Stage, wasDocked: bool, load: bool, dock: bool,
                 stage: Stage, isDocked: bool)
    requires Told(before, was, wasDocked, load, dock)
    requires stage == Closing <==> was == Closing || Shuts(wasDocked, e)
    requires isDocked == if e.SetIsDocked? && was != Closing then e.dock else wasDocked
    ensures Told(before + [e], stage, isDocked, load || (e.FrontendLoaded? && was != Closing),
                 dock || (e.SetIsDocked? && was != Closing))
  {
    StaysOpenMore(before, e);
    LoadsMore(before, e);
    DocksMore(before, e);
  }

  method HandleNext(w: Window, ghost before: seq<Event>, e: Event)
    requires w.Valid() && w.canDock && Told(before, w.stage, w.isDocked, w.loadFired, w.dockDecided)
    modifies w
    ensures w.Valid() && w.canDock && w.dcheckFailed == old(w.dcheckFailed)
    ensures Told(before + [e], w.stage, w.isDocked, w.loadFired, w.dockDecided)
  {
    ghost var was, wasDocked, load, dock := w.stage, w.isDocked, w.loadFired, w.dockDecided;
    w.Handle(e);
    ToldMore(before, e, was, wasDocked, load, dock, w.stage, w.isDocked);
  }

  /** A whole life of a window that can dock: what its fields are follows from which events came before closing. */
  method Handshake(events: seq<Event>) returns (w: Window)
    ensures w.Valid() && w.canDock && !w.dcheckFailed
    ensures w.stage != Closing <==> StaysOpen(events)
    ensures w.stage != Closing ==> w.isDocked == DockedAfter(events)
    ensures w.loadFired <==> LoadsWhileOpen(events)
    ensures w.dockDecided <==> DocksWhileOpen(events)
    ensures w.stage == LoadCompleted <==> StaysOpen(events) && LoadsWhileOpen(events) && DocksWhileOpen(events)
  {
    w := new Window(true);
    for i := 0 to |events|
      invariant fresh(w) && w.Valid() && w.canDock && !w.dcheckFailed
      invariant Told(events[..i], w.stage, w.isDocked, w.loadFired, w.dockDecided)
    {
      HandleNext(w, events[..i], events[i]);
      assert events[..i + 1] == events[..i] + [events[i]];
    }
    assert events[..|events|] == events;
  }

  /** A whole life: the handshake, ownership and closing are as the window's methods keep them, and the DCHECK fails
      exactly in those histories. */
  method Live(canDock: bool, events: seq<Event>) returns (w: Window)
    ensures w.Valid() && w.canDock == canDock
    ensures w.dcheckFailed <==> !canDock && LoadsFirst(events)
  {
    w := new Window(canDock);
    for i := 0 to |events|
      invariant fresh(w) && w.Valid() && w.canDock == canDock
      invariant canDock ==> !w.dcheckFailed
      invariant !canDock ==> AfterAll(w.Now(), events[i..]) == AfterAll(Fresh, events)
    {
      assert events[i..][1..] == events[i + 1..];
      w.Handle(events[i]);
    }
    StruckExactly(events);
  }
}
