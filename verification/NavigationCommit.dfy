/** The commit state of a RenderFrameImpl and its pending MHTML loader (content/renderer/render_frame_impl.cc). */
module NavigationCommit {
  import opened Wrappers

  /** NavigationCommitState. */
  datatype CommitState = InitialEmptyDocument | Idle | WillCommit | DidCommit

  /** MHTMLBodyLoaderClient: whether BodyLoadingFinished() began, and whether it still has its frame. */
  datatype Client = Client(committing: bool, attached: bool)

  /** The CHECKs. */
  datatype Check =
    | ScopesOverlap        // an AssertNavigationCommits is constructed in a state it does not allow
    | NothingCommitted     // ... or destroyed without a commit
    | ClientDropped        // the destructor of a client that is neither committing, detached nor replaced
    | CommitUnannounced    // DidCommitNavigation() without an attempt
    | NotInitial           // a synchronous about:blank outside the initial empty document

  /** One attempt to commit: whether the history item could be prepared, and what scripts do while the old document is
      unloaded and after the new one committed. */
  datatype Commit = Commit(prepared: bool, during: seq<Event>, after: seq<Event>)

  /** Where a renderer-initiated navigation goes: to the browser process at once or as a download, through
      BeginNavigationInternal(), or, for an empty document fetched with GET, possibly to a synchronous commit. */
  datatype Target = Elsewhere | InFrame | Blank(commit: Commit)

  datatype Event =
    | CommitNavigation(swallowed: bool, archive: bool, commit: Commit)
    | CommitFailedNavigation(commit: Commit)
    | BodyLoadingFinished(commit: Commit)
    | CommitSameDocument
    | AbortClientNavigation
    | BeginNavigation(target: Target)
    | OpenDocument                        // document.open(): the document stops being the initial empty one
    | Detach

  // ----- What a history of events comes to -----

  /** What Blink and BeginNavigation() remember: the frame's document is the initial empty one, and a renderer-initiated
      navigation has started. */
  datatype Memory = Memory(onInitial: bool, started: bool)

  /** A synchronous about:blank commit is allowed: the first navigation, on the initial empty document. */
  predicate MayCommitBlank(m: Memory) {
    m.onInitial && !m.started
  }

  function Remember(m: Memory, e: Event): Memory {
    match e
    case BeginNavigation(_) => m.(started := true)
    case OpenDocument => m.(onInitial := false)
    case _ => m
  }

  /** Between events: whether the commit state is still kInitialEmptyDocument, and whether an archive is being
      loaded. */
  datatype Fate = Alive(initial: bool, loading: bool, memory: Memory) | Gone | Failed(check: Check)

  /** Events while an attempt is on the stack. */
  datatype Inner = Harmless(memory: Memory) | Detached | Breaks(check: Check)

  function Birth(onInitial: bool): Fate {
    Alive(true, false, Memory(onInitial, false))
  }

  function InsideOne(m: Memory, e: Event): Inner {
    match e
    case CommitNavigation(swallowed, _, _) => if swallowed then Harmless(m) else Breaks(ScopesOverlap)
    case CommitFailedNavigation(_) => Breaks(ScopesOverlap)
    case BeginNavigation(target) =>
      if target.Blank? && MayCommitBlank(m) then Breaks(NotInitial) else Harmless(Remember(m, e))
    case Detach => Detached
    case _ => Harmless(Remember(m, e))
  }

  function Inside(m: Memory, events: seq<Event>): Inner
    decreases |events|
  {
    if events == [] then Harmless(m) else
    var one := InsideOne(m, events[0]);
    if one.Harmless? then Inside(one.memory, events[1..]) else one
  }

  /** A commit whose history item could be prepared. */
  function Committed(m: Memory, c: Commit): Fate {
    match Inside(m, c.during)
    case Breaks(check) => Failed(check)
    case Detached => Gone
    case Harmless(n) =>
      match Inside(n.(onInitial := false), c.after)
      case Breaks(check) => Failed(check)
      case Detached => Gone
      case Harmless(o) => Alive(false, false, o)
  }

  function Attempt(m: Memory, c: Commit): Fate {
    if c.prepared then Committed(m, c) else Failed(NothingCommitted)
  }

  function After(f: Fate, e: Event): Fate {
    if !f.Alive? then f else
    match e
    case CommitNavigation(swallowed, archive, c) =>
      if swallowed then f else if archive then Alive(false, true, f.memory) else Attempt(f.memory, c)
    case CommitFailedNavigation(c) => Committed(f.memory, c)
    case BodyLoadingFinished(c) => if f.loading then Attempt(f.memory, c) else f
    case CommitSameDocument => f.(loading := false)
    case AbortClientNavigation => f.(loading := false)
    case BeginNavigation(target) =>
      var n := Remember(f.memory, e);
      if target.Elsewhere? then f.(memory := n)
      else if target.InFrame? || !MayCommitBlank(f.memory) then Alive(f.initial, false, n)
      else if f.initial then Committed(n, target.commit)
      else Failed(NotInitial)
    case OpenDocument => f.(memory := Remember(f.memory, e))
    case Detach => Gone
  }

  function AfterAll(f: Fate, events: seq<Event>): Fate
    decreases |events|
  {
    if events == [] then f else AfterAll(After(f, events[0]), events[1..])
  }

  // ----- The frame -----

  class Frame {
    var state: CommitState
    var client: Option<Client>
    var gone: bool
    var failed: Option<Check>
    var onInitial: bool       // Blink's IsOnInitialEmptyDocument()
    var started: bool         // had_started_any_navigation_

    constructor (onInitial: bool)
      ensures Settled() && Now() == Birth(onInitial)
    {
      state, client, gone, failed := InitialEmptyDocument, None, false, None;
      this.onInitial, started := onInitial, false;
    }

    predicate Running()
      reads this
    {
      !gone && failed.None?
    }

    /** No attempt is on the stack. */
    predicate Settled()
      reads this
    {
      Running() ==>
        && (state == InitialEmptyDocument || state == Idle)
        && (client.Some? ==> state == Idle && client == Some(Client(false, true)))
    }

    function Now(): Fate
      reads this
      requires Settled()
    {
      if failed.Some? then Failed(failed.value)
      else if gone then Gone
      else Alive(state == InitialEmptyDocument, client.Some?, Recalled())
    }

    function Recalled(): Memory
      reads this
    {
      Memory(onInitial, started)
    }

    method Fail(check: Check, ok: bool)
      modifies this`failed
      ensures failed == if old(failed).None? && !ok then Some(check) else old(failed)
    {
      if failed.None? && !ok {
        failed := Some(check);
      }
    }

    /** The destructor of the pending client, if there is one. */
    method DropClient()
      modifies this`client, this`failed
      ensures client == None
      ensures failed == if old(failed).None? && old(client).Some? && !old(client).value.committing
                          && old(client).value.attached && state != WillCommit
                        then Some(ClientDropped) else old(failed)
    {
      if client.Some? {
        Fail(ClientDropped, client.value.committing || !client.value.attached || state == WillCommit);
      }
      client := None;
    }

    method DetachClient()
      modifies this`client, this`failed
      ensures client == None && failed == old(failed)
    {
      if client.Some? {
        client := Some(client.value.(attached := false));
        DropClient();
      }
    }

    /** The constructor of AssertNavigationCommits. */
    method EnterScope(mayReplaceInitial: bool)
      requires Running()
      modifies this`state, this`failed
      ensures failed == if old(state) == Idle || (mayReplaceInitial && old(state) == InitialEmptyDocument)
                        then None else Some(ScopesOverlap)
      ensures failed.None? ==> state == WillCommit
    {
      if state != Idle {
        Fail(ScopesOverlap, mayReplaceInitial);
        Fail(ScopesOverlap, state == InitialEmptyDocument);
      }
      state := WillCommit;
    }

    /** Its destructor. */
    method LeaveScope()
      requires Running() ==> state == WillCommit || state == DidCommit
      modifies this`state, this`failed
      ensures Running() ==> state == Idle
      ensures failed == if !gone && old(failed).None? && old(state) != DidCommit then Some(NothingCommitted)
                        else old(failed)
    {
      if !gone {
        Fail(NothingCommitted, state == DidCommit);
        state := Idle;
      }
    }

    /** An attempt is on the stack, and the request it serves has taken over the pending client. */
    predicate Attempting()
      reads this
    {
      Running() && (state == WillCommit || state == DidCommit) && client.None?
    }

    /** Where events during an attempt lead. */
    predicate Led(inner: Inner, was: CommitState)
      reads this
    {
      match inner
      case Harmless(m) => Attempting() && state == was && Recalled() == m
      case Detached => gone && failed.None?
      case Breaks(check) => failed == Some(check)
    }

    /** Where an attempt leads, with its scope still open. */
    predicate Reached(fate: Fate)
      reads this
    {
      match fate
      case Alive(_, _, m) => Attempting() && state == DidCommit && Recalled() == m
      case Gone => gone && failed.None?
      case Failed(check) => failed == Some(check)
    }

    /** WebLocalFrame::CommitNavigation(), which runs scripts and calls DidCommitNavigation(). */
    method BlinkCommit(c: Commit)
      requires Attempting() && state == WillCommit
      modifies this
      ensures Reached(Committed(old(Recalled()), c))
      decreases c, 0
    {
      PerformInside(c.during);
      if !Running() {
        return;
      }
      onInitial := false;
      Fail(CommitUnannounced, state == WillCommit);
      state := DidCommit;
      PerformInside(c.after);
    }

    /** CommitNavigationWithParams(), inside the scope of its caller, which it closes. */
    method CommitWithParams(c: Commit)
      requires Running() && state == WillCommit
      modifies this
      ensures Settled() && Now() == Attempt(old(Recalled()), c)
      decreases c, 1
    {
      DropClient();
      if c.prepared {
        BlinkCommit(c);
      }
      if failed.None? { LeaveScope(); }
    }

    method PerformInside(events: seq<Event>)
      requires Attempting()
      modifies this
      ensures Led(Inside(old(Recalled()), events), old(state))
      decreases events
    {
      for i := 0 to |events|
        invariant Attempting() && state == old(state)
        invariant Inside(old(Recalled()), events) == Inside(Recalled(), events[i..])
      {
        assert events[i..][1..] == events[i + 1..];
        Perform(events[i]);
        if !Running() {
          return;
        }
      }
    }

    method Perform(e: Event)
      requires Running() && (Settled() || Attempting())
      modifies this
      ensures old(Settled()) ==> Settled() && Now() == After(old(Now()), e)
      ensures old(Attempting()) ==> Led(InsideOne(old(Recalled()), e), old(state))
      decreases e
    {
      match e
      case CommitNavigation(swallowed, archive, c) =>
        if !swallowed {
          EnterScope(true);
          if failed.None? {
            if archive {
              DropClient();
              client := Some(Client(false, true));
              state := DidCommit;
              LeaveScope();
            } else {
              CommitWithParams(c);
            }
          }
        }
      case CommitFailedNavigation(c) =>
        EnterScope(true);
        if failed.None? {
          DropClient();
          BlinkCommit(c);
          if failed.None? { LeaveScope(); }
        }
      case BodyLoadingFinished(c) =>
        if client.Some? {
          client := Some(client.value.(committing := true));
          EnterScope(false);
          if failed.None? { CommitWithParams(c); }
        }
      case CommitSameDocument => DetachClient();
      case AbortClientNavigation => DetachClient();
      case BeginNavigation(target) =>
        var first := !started;
        started := true;
        if !target.Elsewhere? { DetachClient(); }
        if target.Blank? && onInitial && first {
          Fail(NotInitial, state == InitialEmptyDocument);
          if failed.None? {
            state := Idle;
            EnterScope(false);
            BlinkCommit(target.commit);
            if failed.None? { LeaveScope(); }
          }
        }
      case OpenDocument =>
        onInitial := false;
      case Detach =>
        DetachClient();
        gone := true;
    }

    /** The life of a frame. */
    method PerformAll(events: seq<Event>)
      requires Settled()
      modifies this
      ensures Settled() && Now() == AfterAll(old(Now()), events)
    {
      for i := 0 to |events|
        invariant Settled() && AfterAll(Now(), events[i..]) == AfterAll(old(Now()), events)
      {
        assert events[i..][1..] == events[i + 1..];
        if Running() {
          Perform(events[i]);
        }
      }
    }
  }

  // ----- Exactly which scripts make a CHECK fail -----

  /** A commit the browser asks for. */
  predicate Commits(e: Event) {
    (e.CommitNavigation? && !e.swallowed) || e.CommitFailedNavigation?
  }

  /** Event `i` goes to about:blank where a synchronous commit is allowed: as the first navigation, on the initial empty
      document. */
  predicate BlankAt(m: Memory, events: seq<Event>, i: nat)
    requires i < |events|
  {
    && events[i].BeginNavigation? && events[i].target.Blank? && MayCommitBlank(m)
    && forall k :: 0 <= k < i ==> !events[k].BeginNavigation? && !events[k].OpenDocument?
  }

  /** Event `i` detaches the frame or breaks a CHECK, if it is reached. */
  predicate Ends(m: Memory, events: seq<Event>, i: nat)
    requires i < |events|
  {
    events[i].Detach? || Commits(events[i]) || BlankAt(m, events, i)
  }

  predicate FirstEnd(m: Memory, events: seq<Event>, i: nat)
    requires i < |events|
  {
    Ends(m, events, i) && forall j :: 0 <= j < i ==> !Ends(m, events, j)
  }

  /** A commit while an attempt is on the stack overlaps its scope, a synchronous about:blank is not on the initial
      state. */
  function Ended(e: Event): Inner {
    if e.Detach? then Detached else if Commits(e) then Breaks(ScopesOverlap) else Breaks(NotInitial)
  }

  predicate Finishes(m: Memory, events: seq<Event>) {
    forall j :: 0 <= j < |events| ==> !Ends(m, events, j)
  }

  function Remembered(m: Memory, events: seq<Event>): Memory
    decreases |events|
  {
    if events == [] then m else Remembered(Remember(m, events[0]), events[1..])
  }

  lemma EndsLater(m: Memory, events: seq<Event>)
    requires events != [] && !Ends(m, events, 0)
    ensures forall i :: 0 < i < |events| ==> Ends(m, events, i) == Ends(Remember(m, events[0]), events[1..], i - 1)
  {
    forall i | 0 < i < |events|
      ensures Ends(m, events, i) == Ends(Remember(m, events[0]), events[1..], i - 1)
    {
      var rest := events[1..];
      assert rest[i - 1] == events[i];
      assert forall k :: 0 < k < i ==> events[k] == rest[k - 1];
      if BlankAt(Remember(m, events[0]), rest, i - 1) {
        assert forall k :: 0 < k < i ==> !events[k].BeginNavigation? && !events[k].OpenDocument?;
      }
    }
  }

  /** Scripts run to their end, or the first event that detaches the frame or breaks a CHECK decides. */
  lemma {:induction false} InsideEnds(m: Memory, events: seq<Event>) returns (i: nat)
    ensures i <= |events| && (i < |events| ==> FirstEnd(m, events, i))
    ensures i == |events| ==> Finishes(m, events)
    ensures Inside(m, events) == if i < |events| then Ended(events[i]) else Harmless(Remembered(m, events))
    decreases |events|
  {
    if events == [] {
      i := 0;
    } else if Ends(m, events, 0) {
      i := 0;
    } else {
      EndsLater(m, events);
      var k := InsideEnds(Remember(m, events[0]), events[1..]);
      i := k + 1;
    }
  }

  /** Scripts that run while an attempt is on the stack break `check`. */
  predicate ScriptFails(m: Memory, events: seq<Event>, check: Check) {
    exists i :: 0 <= i < |events| && FirstEnd(m, events, i) && Ended(events[i]) == Breaks(check)
  }

  lemma ScriptExactly(m: Memory, events: seq<Event>, check: Check)
    ensures Inside(m, events) == Breaks(check) <==> ScriptFails(m, events, check)
    ensures Inside(m, events).Harmless? <==> Finishes(m, events)
    ensures Finishes(m, events) ==> Inside(m, events) == Harmless(Remembered(m, events))
  {
    var i := InsideEnds(m, events);
    if ScriptFails(m, events, check) {
      var k :| 0 <= k < |events| && FirstEnd(m, events, k) && Ended(events[k]) == Breaks(check);
      assert i == k;
    }
  }

  /** ... of the old document while it is unloaded, or of the new one. */
  predicate CommitFails(m: Memory, c: Commit, check: Check) {
    || ScriptFails(m, c.during, check)
    || (Finishes(m, c.during) && ScriptFails(Remembered(m, c.during).(onInitial := false), c.after, check))
  }

  lemma CommitExactly(m: Memory, c: Commit, check: Check)
    ensures Committed(m, c) == Failed(check) <==> CommitFails(m, c, check)
  {
    ScriptExactly(m, c.during, check);
    ScriptExactly(Remembered(m, c.during).(onInitial := false), c.after, check);
  }

  predicate ScriptDetaches(m: Memory, events: seq<Event>) {
    exists i :: 0 <= i < |events| && FirstEnd(m, events, i) && Ended(events[i]) == Detached
  }

  predicate CommitDetaches(m: Memory, c: Commit) {
    || ScriptDetaches(m, c.during)
    || (Finishes(m, c.during) && ScriptDetaches(Remembered(m, c.during).(onInitial := false), c.after))
  }

  lemma DetachExactly(m: Memory, events: seq<Event>)
    ensures Inside(m, events) == Detached <==> ScriptDetaches(m, events)
  {
    var i := InsideEnds(m, events);
    if ScriptDetaches(m, events) {
      var k :| 0 <= k < |events| && FirstEnd(m, events, k) && Ended(events[k]) == Detached;
      assert i == k;
    }
  }

  lemma CommitGoneExactly(m: Memory, c: Commit)
    ensures Committed(m, c) == Gone <==> CommitDetaches(m, c)
  {
    DetachExactly(m, c.during);
    ScriptExactly(m, c.during, NotInitial);
    DetachExactly(Remembered(m, c.during).(onInitial := false), c.after);
  }

  /** Of what is remembered, only whether a synchronous commit is allowed matters to scripts. */
  lemma OnlyGuardMatters(m: Memory, n: Memory, events: seq<Event>)
    requires MayCommitBlank(m) == MayCommitBlank(n)
    ensures forall i :: 0 <= i < |events| ==> Ends(m, events, i) == Ends(n, events, i)
    ensures Finishes(m, events) == Finishes(n, events)
    ensures forall i :: 0 <= i < |events| ==> FirstEnd(m, events, i) == FirstEnd(n, events, i)
    ensures forall check :: ScriptFails(m, events, check) == ScriptFails(n, events, check)
    ensures ScriptDetaches(m, events) == ScriptDetaches(n, events)
  {
    assert forall i :: 0 <= i < |events| ==> BlankAt(m, events, i) == BlankAt(n, events, i);
  }

  lemma SameCommit(m: Memory, n: Memory, c: Commit, check: Check)
    requires MayCommitBlank(m) == MayCommitBlank(n)
    ensures CommitFails(m, c, check) == CommitFails(n, c, check)
    ensures CommitDetaches(m, c) == CommitDetaches(n, c)
  {
    OnlyGuardMatters(m, n, c.during);
    OnlyGuardMatters(
      Remembered(m, c.during).(onInitial := false), Remembered(n, c.during).(onInitial := false), c.after);
  }

  // ----- ... and which histories -----

  /** The event makes an attempt whose history item cannot be prepared. */
  predicate Unprepared(f: Fate, e: Event) {
    || (e.CommitNavigation? && !e.swallowed && !e.archive && !e.commit.prepared)
    || (e.BodyLoadingFinished? && f.Alive? && f.loading && !e.commit.prepared)
  }

  /** What the event makes Blink commit. */
  function Made(f: Fate, e: Event): Option<Commit> {
    match e
    case CommitNavigation(swallowed, archive, c) => if !swallowed && !archive && c.prepared then Some(c) else None
    case CommitFailedNavigation(c) => Some(c)
    case BodyLoadingFinished(c) => if f.Alive? && f.loading && c.prepared then Some(c) else None
    case BeginNavigation(target) =>
      if target.Blank? && f.Alive? && MayCommitBlank(f.memory) && f.initial then Some(target.commit) else None
    case _ => None
  }

  /** A synchronous about:blank although the commit state has left kInitialEmptyDocument behind. */
  predicate Misled(f: Fate, e: Event) {
    e.BeginNavigation? && e.target.Blank? && f.Alive? && MayCommitBlank(f.memory) && !f.initial
  }

  predicate Fails(f: Fate, e: Event, check: Check)
    requires f.Alive?
  {
    || (check == NothingCommitted && Unprepared(f, e))
    || (check == NotInitial && Misled(f, e))
    || (Made(f, e).Some? && CommitFails(Remember(f.memory, e), Made(f, e).value, check))
  }

  lemma StepExactly(f: Fate, e: Event, check: Check)
    requires f.Alive?
    ensures After(f, e) == Failed(check) <==> Fails(f, e, check)
  {
    match e
    case CommitNavigation(_, _, c) => CommitExactly(f.memory, c, check);
    case CommitFailedNavigation(c) => CommitExactly(f.memory, c, check);
    case BodyLoadingFinished(c) => CommitExactly(f.memory, c, check);
    case BeginNavigation(target) =>
      if target.Blank? { CommitExactly(Remember(f.memory, e), target.commit, check); }
    case _ =>
  }

  lemma {:induction false} OneMore(f: Fate, events: seq<Event>, e: Event)
    ensures AfterAll(f, events + [e]) == After(AfterAll(f, events), e)
    decreases |events|
  {
    if events == [] {
      assert ([] + [e])[1..] == [];
    } else {
      assert (events + [e])[1..] == events[1..] + [e];
      OneMore(After(f, events[0]), events[1..], e);
    }
  }

  // ----- What a history says, event by event -----

  predicate StartsArchive(e: Event) {
    e.CommitNavigation? && !e.swallowed && e.archive
  }

  /** The event takes a pending loader away: a commit or an attempt at one, a same-document commit, an abort, a
      navigation that does not leave for the browser at once, or the end of the frame. */
  predicate TakesLoader(e: Event) {
    match e
    case CommitNavigation(swallowed, archive, _) => !swallowed && !archive
    case OpenDocument => false
    case BeginNavigation(target) => !target.Elsewhere?
    case _ => true
  }

  /** An accepted archive load, and nothing that takes its loader away since. */
  predicate ArchivePending(events: seq<Event>) {
    exists i :: 0 <= i < |events| && StartsArchive(events[i])
                && forall j :: i < j < |events| ==> !TakesLoader(events[j])
  }

  /** Event `i` commits, navigates or opens the document. */
  predicate Touches(events: seq<Event>, i: nat)
    requires i < |events|
  {
    match events[i]
    case CommitNavigation(swallowed, archive, _) => !swallowed && !archive
    case BodyLoadingFinished(_) => ArchivePending(events[..i])
    case CommitSameDocument => false
    case AbortClientNavigation => false
    case _ => true
  }

  /** The next about:blank is a synchronous commit. */
  predicate BlankCommits(onInitial: bool, events: seq<Event>) {
    onInitial && forall i :: 0 <= i < |events| ==> !Touches(events, i)
  }

  predicate SomeArchive(events: seq<Event>) {
    exists i :: 0 <= i < |events| && StartsArchive(events[i])
  }

  lemma PendingMore(before: seq<Event>, e: Event)
    ensures ArchivePending(before + [e]) <==> StartsArchive(e) || (ArchivePending(before) && !TakesLoader(e))
  {
    var events, n := before + [e], |before|;
    assert events[n] == e && forall i :: 0 <= i < n ==> events[i] == before[i];
    if ArchivePending(before) && !TakesLoader(e) {
      var i :| 0 <= i < n && StartsArchive(before[i]) && forall j :: i < j < n ==> !TakesLoader(before[j]);
      assert StartsArchive(events[i]) && forall j :: i < j < |events| ==> !TakesLoader(events[j]);
    }
    if StartsArchive(e) { assert StartsArchive(events[n]); }
    if ArchivePending(events) {
      var i :| 0 <= i <= n && StartsArchive(events[i]) && forall j :: i < j < |events| ==> !TakesLoader(events[j]);
      if i < n {
        assert !TakesLoader(events[n]);
        assert StartsArchive(before[i]) && forall j :: i < j < n ==> !TakesLoader(before[j]);
      }
    }
  }

  lemma TouchesMore(onInitial: bool, before: seq<Event>, e: Event)
    ensures BlankCommits(onInitial, before + [e])
            <==> BlankCommits(onInitial, before) && !Touches(before + [e], |before|)
    ensures SomeArchive(before + [e]) <==> SomeArchive(before) || StartsArchive(e)
  {
    var events, n := before + [e], |before|;
    assert events[n] == e && forall i :: 0 <= i < n ==> events[..i] == before[..i] && events[i] == before[i];
    assert forall i :: 0 <= i < n ==> Touches(events, i) == Touches(before, i);
    if SomeArchive(before) {
      var i :| 0 <= i < n && StartsArchive(before[i]);
      assert StartsArchive(events[i]);
    }
    if StartsArchive(e) { assert StartsArchive(events[n]); }
    if BlankCommits(onInitial, events) { assert !Touches(events, n); }
  }

  /** A document that is not the initial empty one never becomes it again. */
  lemma {:induction false} NeverInitialAgain(m: Memory, events: seq<Event>)
    requires !m.onInitial && Inside(m, events).Harmless?
    ensures !Inside(m, events).memory.onInitial
    decreases |events|
  {
    if events == [] {
    } else {
      NeverInitialAgain(Remember(m, events[0]), events[1..]);
    }
  }

  /** After a commit the frame shows no initial empty document. */
  lemma CommitLeavesInitial(m: Memory, c: Commit)
    requires Committed(m, c).Alive?
    ensures !Committed(m, c).memory.onInitial
  {
    NeverInitialAgain(Inside(m, c.during).memory.(onInitial := false), c.after);
  }

  lemma OneEvent(f: Fate, e: Event)
    requires f.Alive? && After(f, e).Alive?
    ensures After(f, e).loading <==> StartsArchive(e) || (f.loading && !TakesLoader(e))
    ensures e.CommitSameDocument? || e.AbortClientNavigation? || (e.CommitNavigation? && (e.swallowed || e.archive))
            || (e.BodyLoadingFinished? && !f.loading) ==>
              After(f, e).memory == f.memory && (After(f, e).initial <==> f.initial && !StartsArchive(e))
    ensures e.CommitFailedNavigation? || e.BeginNavigation? || e.OpenDocument?
            || (e.CommitNavigation? && !e.swallowed && !e.archive) || (e.BodyLoadingFinished? && f.loading) ==>
              !MayCommitBlank(After(f, e).memory)
  {
    match e
    case CommitNavigation(swallowed, archive, c) =>
      if !swallowed && !archive { CommitLeavesInitial(f.memory, c); }
    case CommitFailedNavigation(c) => CommitLeavesInitial(f.memory, c);
    case BodyLoadingFinished(c) => if f.loading { CommitLeavesInitial(f.memory, c); }
    case BeginNavigation(target) =>
      if target.Blank? && MayCommitBlank(f.memory) { CommitLeavesInitial(Remember(f.memory, e), target.commit); }
    case _ =>
  }

  /** While the frame lives, a loader is pending exactly if an archive load was accepted and nothing took its loader
      away since.  The next about:blank would be a synchronous commit exactly if the frame was on the initial empty
      document from the start and nothing committed, navigated or opened it; the commit state is still
      kInitialEmptyDocument then, unless an archive load has lied about its commit. */
  lemma {:induction false} BlankExactly(onInitial: bool, events: seq<Event>)
    requires AfterAll(Birth(onInitial), events).Alive?
    ensures var f := AfterAll(Birth(onInitial), events);
            && (f.loading <==> ArchivePending(events))
            && (MayCommitBlank(f.memory) <==> BlankCommits(onInitial, events))
            && (MayCommitBlank(f.memory) ==> (f.initial <==> !SomeArchive(events)))
    decreases |events|
  {
    if events == [] {
    } else {
      var n := |events| - 1;
      var before, last := events[..n], events[n];
      assert events == before + [last];
      OneMore(Birth(onInitial), before, last);
      BlankExactly(onInitial, before);
      PendingMore(before, last);
      TouchesMore(onInitial, before, last);
      OneEvent(AfterAll(Birth(onInitial), before), last);
    }
  }

  /** The attempt that event `i` makes cannot prepare its history item. */
  predicate UnpreparedAt(events: seq<Event>, i: nat)
    requires i < |events|
  {
    var e := events[i];
    || (e.CommitNavigation? && !e.swallowed && !e.archive && !e.commit.prepared)
    || (e.BodyLoadingFinished? && ArchivePending(events[..i]) && !e.commit.prepared)
  }

  /** Event `i` is a synchronous about:blank after an archive load has lied about its commit. */
  predicate MisledAt(onInitial: bool, events: seq<Event>, i: nat)
    requires i < |events|
  {
    && events[i].BeginNavigation? && events[i].target.Blank?
    && BlankCommits(onInitial, events[..i]) && SomeArchive(events[..i])
  }

  /** What event `i` makes Blink commit. */
  function MadeAt(onInitial: bool, events: seq<Event>, i: nat): Option<Commit>
    requires i < |events|
  {
    match events[i]
    case CommitNavigation(swallowed, archive, c) => if !swallowed && !archive && c.prepared then Some(c) else None
    case CommitFailedNavigation(c) => Some(c)
    case BodyLoadingFinished(c) => if ArchivePending(events[..i]) && c.prepared then Some(c) else None
    case BeginNavigation(target) =>
      if target.Blank? && BlankCommits(onInitial, events[..i]) && !SomeArchive(events[..i]) then Some(target.commit)
      else None
    case _ => None
  }

  /** What scripts that run during event `i` may do. */
  function Then(onInitial: bool, events: seq<Event>, i: nat): Memory
    requires i < |events|
  {
    Memory(BlankCommits(onInitial, events[..i]), events[i].BeginNavigation?)
  }

  /** Event `i`, if it is reached, makes the CHECK fail. */
  predicate BreaksAt(onInitial: bool, events: seq<Event>, i: nat, check: Check)
    requires i < |events|
  {
    var made := MadeAt(onInitial, events, i);
    || (check == NothingCommitted && UnpreparedAt(events, i))
    || (check == NotInitial && MisledAt(onInitial, events, i))
    || (made.Some? && CommitFails(Then(onInitial, events, i), made.value, check))
  }

  /** Event `i`, if it is reached, is the frame's last: it detaches the frame or makes a CHECK fail. */
  predicate StopsAt(onInitial: bool, events: seq<Event>, i: nat)
    requires i < |events|
  {
    var made := MadeAt(onInitial, events, i);
    || events[i].Detach?
    || (made.Some? && CommitDetaches(Then(onInitial, events, i), made.value))
    || exists check :: BreaksAt(onInitial, events, i, check)
  }

  predicate Lives(onInitial: bool, events: seq<Event>) {
    forall i :: 0 <= i < |events| ==> !StopsAt(onInitial, events, i)
  }

  /** Event `i` is reached and makes the CHECK fail. */
  predicate FailsAt(onInitial: bool, events: seq<Event>, i: nat, check: Check)
    requires i < |events|
  {
    Lives(onInitial, events[..i]) && BreaksAt(onInitial, events, i, check)
  }

  /** What the events say of event `n` is what the frame's state says. */
  lemma EventSaid(onInitial: bool, before: seq<Event>, e: Event, check: Check)
    requires AfterAll(Birth(onInitial), before).Alive?
    ensures var f := AfterAll(Birth(onInitial), before);
            && BreaksAt(onInitial, before + [e], |before|, check) == Fails(f, e, check)
            && MadeAt(onInitial, before + [e], |before|) == Made(f, e)
            && (Made(f, e).Some? ==>
                  CommitDetaches(Then(onInitial, before + [e], |before|), Made(f, e).value)
                  == CommitDetaches(Remember(f.memory, e), Made(f, e).value))
  {
    var events, n, f := before + [e], |before|, AfterAll(Birth(onInitial), before);
    assert events[..n] == before && events[n] == e;
    BlankExactly(onInitial, before);
    assert UnpreparedAt(events, n) == Unprepared(f, e);
    assert MisledAt(onInitial, events, n) == Misled(f, e);
    if Made(f, e).Some? { SameCommit(Then(onInitial, events, n), Remember(f.memory, e), Made(f, e).value, check); }
  }

  lemma StepGoneExactly(f: Fate, e: Event)
    requires f.Alive?
    ensures After(f, e) == Gone <==>
            e.Detach? || (Made(f, e).Some? && CommitDetaches(Remember(f.memory, e), Made(f, e).value))
  {
    match e
    case CommitNavigation(_, _, c) => CommitGoneExactly(f.memory, c);
    case CommitFailedNavigation(c) => CommitGoneExactly(f.memory, c);
    case BodyLoadingFinished(c) => CommitGoneExactly(f.memory, c);
    case BeginNavigation(target) =>
      if target.Blank? { CommitGoneExactly(Remember(f.memory, e), target.commit); }
    case _ =>
  }

  /** The frame lives on exactly if the event is not its last. */
  lemma StepLives(onInitial: bool, before: seq<Event>, e: Event)
    requires AfterAll(Birth(onInitial), before).Alive?
    ensures After(AfterAll(Birth(onInitial), before), e).Alive? <==> !StopsAt(onInitial, before + [e], |before|)
  {
    var f := AfterAll(Birth(onInitial), before);
    assert (before + [e])[|before|] == e;
    StepGoneExactly(f, e);
    forall check
      ensures BreaksAt(onInitial, before + [e], |before|, check) <==> After(f, e) == Failed(check)
    {
      EventSaid(onInitial, before, e, check);
      StepExactly(f, e, check);
    }
    EventSaid(onInitial, before, e, NotInitial);
    if After(f, e).Failed? { assert BreaksAt(onInitial, before + [e], |before|, After(f, e).check); }
  }

  lemma LivesMore(onInitial: bool, before: seq<Event>, e: Event)
    ensures Lives(onInitial, before + [e]) <==> Lives(onInitial, before) && !StopsAt(onInitial, before + [e], |before|)
  {
    var events, n := before + [e], |before|;
    assert forall i :: 0 <= i < n ==> events[..i] == before[..i] && events[i] == before[i];
    forall i | 0 <= i < n
      ensures StopsAt(onInitial, events, i) == StopsAt(onInitial, before, i)
    {
      assert forall check :: BreaksAt(onInitial, events, i, check) == BreaksAt(onInitial, before, i, check);
    }
    if Lives(onInitial, events) { assert !StopsAt(onInitial, events, n); }
  }

  lemma {:induction false} LivesExactly(onInitial: bool, events: seq<Event>)
    ensures AfterAll(Birth(onInitial), events).Alive? <==> Lives(onInitial, events)
    decreases |events|
  {
    if events == [] {
    } else {
      var n := |events| - 1;
      var before, last := events[..n], events[n];
      assert events == before + [last];
      OneMore(Birth(onInitial), before, last);
      LivesExactly(onInitial, before);
      LivesMore(onInitial, before, last);
      if AfterAll(Birth(onInitial), before).Alive? { StepLives(onInitial, before, last); }
    }
  }

  /** A history ends in a failed CHECK exactly if one of its events is reached and makes it fail. */
  lemma {:induction false} HistoryExactly(onInitial: bool, events: seq<Event>, check: Check)
    ensures AfterAll(Birth(onInitial), events) == Failed(check)
            <==> exists i :: 0 <= i < |events| && FailsAt(onInitial, events, i, check)
    decreases |events|
  {
    if events == [] {
    } else {
      var n := |events| - 1;
      var before, last := events[..n], events[n];
      assert events == before + [last] && events[..n] == before;
      OneMore(Birth(onInitial), before, last);
      HistoryExactly(onInitial, before, check);
      LivesExactly(onInitial, before);
      var g := AfterAll(Birth(onInitial), before);
      if g.Alive? {
        EventSaid(onInitial, before, last, check);
        StepExactly(g, last, check);
      }
      assert FailsAt(onInitial, events, n, check) <==> g.Alive? && Fails(g, last, check);
      forall i | 0 <= i < n
        ensures FailsAt(onInitial, events, i, check) == FailsAt(onInitial, before, i, check)
      {
        assert events[..i] == before[..i] && events[i] == before[i];
      }
      if exists i :: 0 <= i < n && FailsAt(onInitial, before, i, check) {
        var i :| 0 <= i < n && FailsAt(onInitial, before, i, check);
        assert FailsAt(onInitial, events, i, check);
      }
    }
  }

  /** The CHECK of the synchronous about:blank fails outside an attempt exactly after an archive load has lied. */
  lemma MisledExactly(onInitial: bool, events: seq<Event>, e: Event)
    requires AfterAll(Birth(onInitial), events).Alive?
    ensures Misled(AfterAll(Birth(onInitial), events), e)
            <==> e.BeginNavigation? && e.target.Blank? && BlankCommits(onInitial, events) && SomeArchive(events)
  {
    BlankExactly(onInitial, events);
  }

  /** The life of a frame: no pending archive load is ever destroyed without being committing, detached or replaced, no
      commit is reported without an attempt, and the other CHECKs fail exactly in the histories spelled out above.  A
      frame that lives on holds a loader exactly if one is pending. */
  method Life(onInitial: bool, events: seq<Event>) returns (frame: Frame)
    ensures frame.failed != Some(ClientDropped) && frame.failed != Some(CommitUnannounced)
    ensures forall check ::
              frame.failed == Some(check) <==> exists i :: 0 <= i < |events| && FailsAt(onInitial, events, i, check)
    ensures frame.Running() <==> Lives(onInitial, events)
    ensures frame.Running() ==> (frame.client.Some? <==> ArchivePending(events))
  {
    frame := new Frame(onInitial);
    frame.PerformAll(events);
    LivesExactly(onInitial, events);
    if frame.Running() { BlankExactly(onInitial, events); }
    forall check
      ensures frame.failed == Some(check) <==> exists i :: 0 <= i < |events| && FailsAt(onInitial, events, i, check)
    {
      HistoryExactly(onInitial, events, check);
    }
  }

  /** An archive starts to load in a frame on its initial empty document, whose script then goes to about:blank. */
  lemma ArchiveThenBlank(c: Commit, d: Commit)
    ensures AfterAll(Birth(true), [CommitNavigation(false, true, c), BeginNavigation(Blank(d))]) == Failed(NotInitial)
  {
    OneMore(Birth(true), [CommitNavigation(false, true, c)], BeginNavigation(Blank(d)));
    OneMore(Birth(true), [], CommitNavigation(false, true, c));
  }

  /** A scope ends without a commit exactly when an attempt returns early because its history item cannot be prepared,
      also for an archive that has just been read. */
  lemma NothingCommittedExactly(f: Fate, e: Event)
    requires f.Alive?
    ensures After(f, e) == Failed(NothingCommitted) <==> Unprepared(f, e)
  {
    StepExactly(f, e, NothingCommitted);
  }

  predicate Carries(e: Event, c: Commit) {
    match e
    case CommitNavigation(_, _, d) => c == d
    case CommitFailedNavigation(d) => c == d
    case BodyLoadingFinished(d) => c == d
    case BeginNavigation(target) => target == Blank(c)
    case _ => false
  }

  /** While history items can be prepared, every attempt that is not cut short ends with a commit. */
  lemma {:induction false} PreparedAttemptsCommit(f: Fate, events: seq<Event>)
    requires f != Failed(NothingCommitted)
    requires forall e, c :: e in events && Carries(e, c) ==> c.prepared
    ensures AfterAll(f, events) != Failed(NothingCommitted)
    decreases |events|
  {
    if events == [] {
    } else {
      var e := events[0];
      if f.Alive? {
        if e.CommitNavigation? || e.BodyLoadingFinished? { assert Carries(e, e.commit); }
        NothingCommittedExactly(f, e);
      }
      PreparedAttemptsCommit(After(f, e), events[1..]);
    }
  }
}
