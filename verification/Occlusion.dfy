/** WindowOcclusionCalculator (ui/aura/native_window_occlusion_tracker_win.cc): one pass over the windows from front to
    back.  A region is the set of its pixels. */
module Occlusion {
  import opened Wrappers
  import opened EventHooks

  type Hwnd = int

  const NO_WINDOW: Hwnd := 0

  datatype Point = Point(x: int, y: int)
  datatype Rect = Rect(left: int, top: int, right: int, bottom: int)
  datatype State = Unknown | Visible | Occluded | Hidden

  /** RootOcclusionState. */
  datatype Root = Root(onWorkspace: Option<bool>, state: State, occludedRegion: set<Point>)

  /** What one callback learns about a window: whether it can occlude others, with which rectangle and of which
      process, and what GetWindowRect() says. */
  datatype Seen = Seen(hwnd: Hwnd, occluding: bool, rect: Rect, bounds: Option<Rect>, pid: Pid)

  function Pixels(r: Rect): set<Point> {
    set x, y | r.left <= x < r.right && r.top <= y < r.bottom :: Point(x, y)
  }

  predicate IsEmpty(r: Rect) {
    r.right <= r.left || r.bottom <= r.top
  }

  function Translate(region: set<Point>, dx: int, dy: int): set<Point> {
    set p | p in region :: Point(p.x + dx, p.y + dy)
  }

  lemma PixelsEmpty(r: Rect)
    ensures Pixels(r) == {} <==> IsEmpty(r)
  {
    if !IsEmpty(r) { assert Point(r.left, r.top) in Pixels(r); }
  }

  // ----- What occlusion means -----

  /** The points covered by the windows in `seen` that can occlude others. */
  function Cover(seen: seq<Seen>, moving: Hwnd): set<Point> {
    set i, p | 0 <= i < |seen| && seen[i].occluding && seen[i].hwnd != moving && p in Pixels(seen[i].rect) :: p
  }

  /** The rectangle a root window is judged by, if it has one. */
  function Outline(w: Seen): Option<Rect> {
    if w.occluding then Some(w.rect) else w.bounds
  }

  /** A root window is occluded when no point of it is on screen and uncovered.  If region calculation is on, the
      covered part of a visible window is kept, relative to the window's corner. */
  function Verdict(root: Root, w: Seen, uncovered: set<Point>, regions: bool): Root {
    var outline := Outline(w);
    if outline.None? || Pixels(outline.value) * uncovered == {} then root.(state := Occluded)
    else if !regions then root.(state := Visible)
    else
      var r := outline.value;
      root.(state := Visible, occludedRegion := Translate(Pixels(r) - uncovered, -r.left, -r.top))
  }

  /** What the windows in `seen`, front to back, decide about a root window: its first appearance counts. */
  function Judged(root: Root, h: Hwnd, seen: seq<Seen>, screen: set<Point>, moving: Hwnd, regions: bool): Root
    decreases |seen|
  {
    if seen == [] || h == moving then root else
    var before, w := seen[..|seen| - 1], seen[|seen| - 1];
    var r := Judged(root, h, before, screen, moving, regions);
    if r.state == Unknown && w.hwnd == h then Verdict(r, w, screen - Cover(before, moving), regions) else r
  }

  /** The verdict read directly off the z-order, without a pass. */
  lemma {:induction false} JudgedAtFirst(root: Root, h: Hwnd, seen: seq<Seen>, i: nat,
                                         screen: set<Point>, moving: Hwnd, regions: bool)
    requires root.state == Unknown && h != moving && i <= |seen|
    requires forall j :: 0 <= j < i && j < |seen| ==> seen[j].hwnd != h
    ensures i == |seen| ==> Judged(root, h, seen, screen, moving, regions) == root
    ensures i < |seen| && seen[i].hwnd == h ==>
              Judged(root, h, seen, screen, moving, regions)
              == Verdict(root, seen[i], screen - Cover(seen[..i], moving), regions)
    decreases |seen|
  {
    if seen == [] {
    } else {
      var before := seen[..|seen| - 1];
      if i < |before| {
        JudgedAtFirst(root, h, before, i, screen, moving, regions);
        assert before[..i] == seen[..i];
      } else {
        JudgedAtFirst(root, h, before, |before|, screen, moving, regions);
      }
    }
  }

  lemma JudgedMore(root: Root, h: Hwnd, seen: seq<Seen>, w: Seen, screen: set<Point>, moving: Hwnd, regions: bool)
    ensures Judged(root, h, seen + [w], screen, moving, regions)
            == if h == moving then root else
               var r := Judged(root, h, seen, screen, moving, regions);
               if r.state == Unknown && w.hwnd == h then Verdict(r, w, screen - Cover(seen, moving), regions) else r
  {
    assert (seen + [w])[..|seen|] == seen;
  }

  /** The windows whose processes are hooked. */
  function OccludingPids(seen: seq<Seen>): set<Pid> {
    set i | 0 <= i < |seen| && seen[i].occluding :: seen[i].pid
  }

  lemma CoverMore(seen: seq<Seen>, w: Seen, moving: Hwnd)
    ensures Cover(seen + [w], moving)
            == Cover(seen, moving) + if w.occluding && w.hwnd != moving then Pixels(w.rect) else {}
  {
    var all := seen + [w];
    assert all[|seen|] == w && forall i :: 0 <= i < |seen| ==> all[i] == seen[i];
  }

  lemma PidsMore(seen: seq<Seen>, w: Seen)
    ensures OccludingPids(seen + [w]) == OccludingPids(seen) + if w.occluding then {w.pid} else {}
  {
    var all := seen + [w];
    assert all[|seen|] == w && forall i :: 0 <= i < |seen| ==> all[i] == seen[i];
  }

  function Unknowns(roots: map<Hwnd, Root>): set<Hwnd> {
    set h | h in roots && roots[h].state == Unknown
  }

  lemma UnknownCounted(roots: map<Hwnd, Root>, h: Hwnd)
    requires h in roots && roots[h].state == Unknown
    ensures |Unknowns(roots)| > 0
  {
    assert h in Unknowns(roots);
  }

  lemma OneLess(roots: map<Hwnd, Root>, h: Hwnd, root: Root)
    requires h in roots && roots[h].state == Unknown && root.state != Unknown
    ensures |Unknowns(roots[h := root])| == |Unknowns(roots)| - 1
  {
    assert Unknowns(roots[h := root]) == Unknowns(roots) - {h};
  }

  /** How a calculation starts with a root window. */
  function Fresh(h: Hwnd, iconic: set<Hwnd>, workspace: Hwnd -> Option<bool>): Root {
    Root(workspace(h),
         if h in iconic then Hidden else if workspace(h) == Some(false) then Occluded else Unknown,
         {})
  }

  function AllFresh(roots: set<Hwnd>, iconic: set<Hwnd>, workspace: Hwnd -> Option<bool>): map<Hwnd, Root> {
    map h | h in roots :: Fresh(h, iconic, workspace)
  }

  lemma OneMore(roots: map<Hwnd, Root>, h: Hwnd, root: Root)
    requires h !in roots
    ensures |Unknowns(roots[h := root])| == |Unknowns(roots)| + if root.state == Unknown then 1 else 0
  {
    assert Unknowns(roots[h := root]) == Unknowns(roots) + if root.state == Unknown then {h} else {};
  }

  lemma SomeRoot(roots: set<Hwnd>)
    ensures roots == {} || exists h :: h in roots
  {
    if forall h :: h !in roots { assert roots == {}; }
  }

  /** What the operating system answers during one calculation. */
  datatype World = World(screen: Rect, windows: seq<Seen>, iconic: set<Hwnd>, workspace: Hwnd -> Option<bool>)

  lemma SameRoots(roots: set<Hwnd>, iconic: set<Hwnd>)
    ensures roots <= iconic <==> forall h :: h in roots ==> h in iconic
  {
    if forall h :: h in roots ==> h in iconic {
      forall h | h in roots ensures h in iconic {}
    }
  }

  lemma Untouched(region: set<Point>, hole: set<Point>)
    ensures region - hole == region <==> hole * region == {}
  {
    if hole * region == {} {
      forall p | p in region
        ensures p in region - hole
      {
        assert p !in hole * region;
      }
    } else {
      assert exists p :: p in hole * region;
    }
  }

  // ----- The verdicts, spelled out -----

  /** The point is covered by a window in front of window number `i`. */
  predicate CoveredAhead(p: Point, seen: seq<Seen>, i: nat, moving: Hwnd)
    requires i <= |seen|
  {
    exists j :: 0 <= j < i && seen[j].occluding && seen[j].hwnd != moving && p in Pixels(seen[j].rect)
  }

  lemma CoverAhead(p: Point, seen: seq<Seen>, i: nat, moving: Hwnd)
    requires i <= |seen|
    ensures p in Cover(seen[..i], moving) <==> CoveredAhead(p, seen, i, moving)
  {
    var ahead := seen[..i];
    if CoveredAhead(p, seen, i, moving) {
      var j :| 0 <= j < i && seen[j].occluding && seen[j].hwnd != moving && p in Pixels(seen[j].rect);
      assert ahead[j] == seen[j];
    }
    if p in Cover(ahead, moving) {
      var j :| 0 <= j < |ahead| && ahead[j].occluding && ahead[j].hwnd != moving && p in Pixels(ahead[j].rect);
      assert seen[j] == ahead[j];
    }
  }

  /** An enumerated root window that is not moving is occluded exactly when it has no rectangle, or no pixel of it is
      on screen and uncovered by the windows ahead; otherwise it is visible, and its region is the rest. */
  lemma VerdictSpelledOut(root: Root, h: Hwnd, seen: seq<Seen>, i: nat, screen: set<Point>, moving: Hwnd, regions: bool)
    requires root.state == Unknown && root.occludedRegion == {} && h != moving && i < |seen| && seen[i].hwnd == h
    requires forall j :: 0 <= j < i ==> seen[j].hwnd != h
    ensures var r := Judged(root, h, seen, screen, moving, regions); var outline := Outline(seen[i]);
            && (r.state == Occluded <==>
                || outline.None?
                || forall p :: p in Pixels(outline.value) && p in screen ==> CoveredAhead(p, seen, i, moving))
            && (r.state == Occluded || r.state == Visible)
            && (r.state == Visible && regions ==>
                forall x, y :: Point(x, y) in r.occludedRegion <==>
                  var p := Point(x + outline.value.left, y + outline.value.top);
                  p in Pixels(outline.value) && (p !in screen || CoveredAhead(p, seen, i, moving)))
  {
    JudgedAtFirst(root, h, seen, i, screen, moving, regions);
    forall p
      ensures p in Cover(seen[..i], moving) <==> CoveredAhead(p, seen, i, moving)
    {
      CoverAhead(p, seen, i, moving);
    }
    var outline := Outline(seen[i]);
    if outline.Some? {
      var px, uncovered := Pixels(outline.value), screen - Cover(seen[..i], moving);
      if forall p :: p in px && p in screen ==> CoveredAhead(p, seen, i, moving) {
        forall p | p in px * uncovered ensures false {}
      } else {
        var p :| p in px && p in screen && !CoveredAhead(p, seen, i, moving);
        assert p in px * uncovered;
      }
      TranslateBack(px - uncovered, outline.value.left, outline.value.top);
    }
  }

  lemma TranslateBack(region: set<Point>, dx: int, dy: int)
    ensures forall x, y :: Point(x, y) in Translate(region, -dx, -dy) <==> Point(x + dx, y + dy) in region
  {
    forall x, y
      ensures Point(x, y) in Translate(region, -dx, -dy) <==> Point(x + dx, y + dy) in region
    {
      if Point(x + dx, y + dy) in region {
        var p := Point(x + dx, y + dy);
        assert Point(p.x + -dx, p.y + -dy) == Point(x, y);
      }
    }
  }

  // ----- Whole answers, without the definitions of the pass -----

  predicate Inside(p: Point, r: Rect) {
    r.left <= p.x < r.right && r.top <= p.y < r.bottom
  }

  /** An occluding window that is not moving lies over the point, in front of window number `i`. */
  predicate Beneath(p: Point, seen: seq<Seen>, i: nat, moving: Hwnd)
    requires i <= |seen|
  {
    exists j :: 0 <= j < i && seen[j].occluding && seen[j].hwnd != moving && Inside(p, seen[j].rect)
  }

  /** Window number `i` is seen: it has a rectangle, and some point of it is on screen and not beneath another. */
  ghost predicate Exposes(world: World, i: nat, moving: Hwnd, outline: Option<Rect>)
    requires i < |world.windows|
  {
    outline.Some?
    && exists p :: Inside(p, outline.value) && Inside(p, world.screen) && !Beneath(p, world.windows, i, moving)
  }

  /** The answer for a root window that appears as window number `i`. */
  ghost predicate AnsweredAt(r: Root, world: World, i: nat, moving: Hwnd, regions: bool)
    requires i < |world.windows|
  {
    var outline := if world.windows[i].occluding then Some(world.windows[i].rect) else world.windows[i].bounds;
    if !Exposes(world, i, moving, outline) then r.state == Occluded && r.occludedRegion == {}
    else
      && r.state == Visible
      && (!regions ==> r.occludedRegion == {})
      && (regions ==> forall q :: q in r.occludedRegion <==> OutOfSight(q, world, i, moving, outline.value))
  }

  /** The point of window number `i` at `q` from its corner is off screen or beneath another window. */
  ghost predicate OutOfSight(q: Point, world: World, i: nat, moving: Hwnd, outline: Rect)
    requires i < |world.windows|
  {
    var p := Point(q.x + outline.left, q.y + outline.top);
    Inside(p, outline) && (!Inside(p, world.screen) || Beneath(p, world.windows, i, moving))
  }

  predicate FirstAt(seen: seq<Seen>, h: Hwnd, i: nat)
    requires i < |seen|
  {
    seen[i].hwnd == h && forall j :: 0 <= j < i ==> seen[j].hwnd != h
  }

  /** The answer of a calculation for a root window. */
  ghost predicate Answered(r: Root, h: Hwnd, world: World, moving: Hwnd, regions: bool) {
    && r.onWorkspace == world.workspace(h)
    && (h in world.iconic ==> r.state == Hidden && r.occludedRegion == {})
    && (h !in world.iconic && world.workspace(h) == Some(false) ==> r.state == Occluded && r.occludedRegion == {})
    && (h !in world.iconic && world.workspace(h) != Some(false) ==>
          && (r.state == Unknown <==>
                h == moving || forall i :: 0 <= i < |world.windows| ==> world.windows[i].hwnd != h)
          && (r.state == Unknown ==> r.occludedRegion == {})
          && (h != moving ==>
                forall i :: 0 <= i < |world.windows| && FirstAt(world.windows, h, i) ==>
                  AnsweredAt(r, world, i, moving, regions)))
  }

  /** A root window that starts decided stays so. */
  lemma {:induction false} DecidedStays(root: Root, h: Hwnd, seen: seq<Seen>, screen: set<Point>, moving: Hwnd,
                                        regions: bool)
    requires root.state != Unknown || h == moving
    ensures Judged(root, h, seen, screen, moving, regions) == root
    decreases |seen|
  {
    if seen == [] {
    } else {
      DecidedStays(root, h, seen[..|seen| - 1], screen, moving, regions);
    }
  }

  lemma BeneathIsAhead(p: Point, seen: seq<Seen>, i: nat, moving: Hwnd)
    requires i <= |seen|
    ensures Beneath(p, seen, i, moving) <==> CoveredAhead(p, seen, i, moving)
  {
    if Beneath(p, seen, i, moving) {
      var j :| 0 <= j < i && seen[j].occluding && seen[j].hwnd != moving && Inside(p, seen[j].rect);
      assert p in Pixels(seen[j].rect);
    }
    if CoveredAhead(p, seen, i, moving) {
      var j :| 0 <= j < i && seen[j].occluding && seen[j].hwnd != moving && p in Pixels(seen[j].rect);
      assert Inside(p, seen[j].rect);
    }
  }

  lemma InsideIsPixel(p: Point, r: Rect)
    ensures Inside(p, r) <==> p in Pixels(r)
  {
  }

  lemma ExposedExactly(world: World, i: nat, moving: Hwnd, outline: Option<Rect>)
    requires i < |world.windows|
    ensures Exposes(world, i, moving, outline)
            <==> outline.Some? && !(forall p :: p in Pixels(outline.value) && p in Pixels(world.screen) ==>
                                      CoveredAhead(p, world.windows, i, moving))
  {
    if outline.Some? {
      forall p
        ensures Inside(p, outline.value) <==> p in Pixels(outline.value)
        ensures Inside(p, world.screen) <==> p in Pixels(world.screen)
        ensures Beneath(p, world.windows, i, moving) <==> CoveredAhead(p, world.windows, i, moving)
      {
        BeneathIsAhead(p, world.windows, i, moving);
      }
    }
  }

  /** At the first appearance a window is visible exactly if it is exposed. */
  lemma FirstState(root: Root, h: Hwnd, world: World, i: nat, moving: Hwnd, regions: bool)
    requires root.state == Unknown && root.occludedRegion == {} && h != moving
    requires i < |world.windows| && FirstAt(world.windows, h, i)
    ensures var r := Judged(root, h, world.windows, Pixels(world.screen), moving, regions);
            && r.state == (if Exposes(world, i, moving, Outline(world.windows[i])) then Visible else State.Occluded)
            && (r.state == State.Occluded || !regions ==> r.occludedRegion == {})
  {
    VerdictSpelledOut(root, h, world.windows, i, Pixels(world.screen), moving, regions);
    JudgedAtFirst(root, h, world.windows, i, Pixels(world.screen), moving, regions);
    ExposedExactly(world, i, moving, Outline(world.windows[i]));
  }

  /** The region of a visible one is what is off screen or beneath other windows, relative to its corner. */
  lemma FirstRegion(root: Root, h: Hwnd, world: World, i: nat, moving: Hwnd, q: Point)
    requires root.state == Unknown && root.occludedRegion == {} && h != moving
    requires i < |world.windows| && FirstAt(world.windows, h, i)
    requires Judged(root, h, world.windows, Pixels(world.screen), moving, true).state == Visible
    requires Outline(world.windows[i]).Some?
    ensures q in Judged(root, h, world.windows, Pixels(world.screen), moving, true).occludedRegion
            <==> OutOfSight(q, world, i, moving, Outline(world.windows[i]).value)
  {
    VerdictSpelledOut(root, h, world.windows, i, Pixels(world.screen), moving, true);
    var outline := Outline(world.windows[i]).value;
    var p := Point(q.x + outline.left, q.y + outline.top);
    InsideIsPixel(p, outline);
    InsideIsPixel(p, world.screen);
    BeneathIsAhead(p, world.windows, i, moving);
    assert q == Point(q.x, q.y);
  }

  /** The verdict at the first appearance is that answer. */
  lemma FirstAnswer(root: Root, h: Hwnd, world: World, i: nat, moving: Hwnd, regions: bool)
    requires root.state == Unknown && root.occludedRegion == {} && h != moving
    requires i < |world.windows| && FirstAt(world.windows, h, i)
    ensures AnsweredAt(Judged(root, h, world.windows, Pixels(world.screen), moving, regions), world, i, moving, regions)
  {
    FirstState(root, h, world, i, moving, regions);
    var r := Judged(root, h, world.windows, Pixels(world.screen), moving, regions);
    if r.state == Visible && regions {
      forall q
        ensures q in r.occludedRegion <==> OutOfSight(q, world, i, moving, Outline(world.windows[i]).value)
      {
        FirstRegion(root, h, world, i, moving, q);
      }
    }
  }

  /** Where a window appears first, if it does. */
  lemma {:induction false} FirstAppearance(seen: seq<Seen>, h: Hwnd) returns (i: nat)
    ensures i <= |seen| && forall j :: 0 <= j < i ==> seen[j].hwnd != h
    ensures i < |seen| ==> seen[i].hwnd == h
    decreases |seen|
  {
    if seen == [] {
      i := 0;
    } else {
      i := FirstAppearance(seen[..|seen| - 1], h);
      if i == |seen| - 1 && seen[i].hwnd != h { i := |seen|; }
    }
  }

  /** What the pass decides from how it starts is that answer. */
  lemma AnswersRight(h: Hwnd, world: World, moving: Hwnd, regions: bool)
    ensures var root := Fresh(h, world.iconic, world.workspace);
            Answered(Judged(root, h, world.windows, Pixels(world.screen), moving, regions), h, world, moving, regions)
  {
    var root, screen := Fresh(h, world.iconic, world.workspace), Pixels(world.screen);
    if root.state != Unknown || h == moving {
      DecidedStays(root, h, world.windows, screen, moving, regions);
    } else {
      var i := FirstAppearance(world.windows, h);
      JudgedAtFirst(root, h, world.windows, i, screen, moving, regions);
      assert Judged(root, h, world.windows, screen, moving, regions).onWorkspace == root.onWorkspace;
      if i < |world.windows| {
        FirstAnswer(root, h, world, i, moving, regions);
        assert forall j :: 0 <= j < |world.windows| && FirstAt(world.windows, h, j) ==> j == i;
      }
    }
  }

  class Calculator {
    const hooks: Hooks
    const regions: bool
    var roots: map<Hwnd, Root>
    var unknown: int
    var unoccluded: set<Point>
    var moving: Hwnd

    constructor (hooks: Hooks, regions: bool)
      ensures this.hooks == hooks && this.regions == regions && roots == map[] && moving == NO_WINDOW
    {
      this.hooks, this.regions := hooks, regions;
      roots, unknown, unoccluded, moving := map[], 0, {}, NO_WINDOW;
    }

    /** The pass that started with `start` has visited `seen`: every root has the verdict of its definition, the
        counter counts the undecided ones, and while there are any the region is what is still uncovered. */
    ghost predicate Passed(start: map<Hwnd, Root>, screen: set<Point>, seen: seq<Seen>)
      reads this
    {
      && roots.Keys == start.Keys
      && (forall h :: h in start ==> roots[h] == Judged(start[h], h, seen, screen, moving, regions))
      && unknown == |Unknowns(roots)|
      && (unknown > 0 ==> unoccluded == screen - Cover(seen, moving))
    }

    /** The end of the callback: an undecided root window is judged. */
    method Judge(w: Seen)
      requires w.hwnd in roots && roots[w.hwnd].state == Unknown
      modifies this`roots, this`unknown, this`unoccluded
      ensures roots == old(roots)[w.hwnd := Verdict(old(roots)[w.hwnd], w, old(unoccluded), regions)]
      ensures unknown == old(unknown) - 1
      ensures unoccluded == old(unoccluded) - if w.occluding then Pixels(w.rect) else {}
    {
      unknown := unknown - 1;
      var occludedWindow, current := unoccluded, unoccluded;
      var rect := w.rect;
      if w.occluding {
        unoccluded := unoccluded - Pixels(rect);
      }
      if !w.occluding {
        if w.bounds.Some? {
          rect := w.bounds.value;
          current := current - Pixels(rect);
        }
      }
      var root := roots[w.hwnd];
      if unoccluded == current {
        Untouched(old(unoccluded), Pixels(rect));
        roots := roots[w.hwnd := root.(state := Occluded)];
        return;
      }
      root := root.(state := Visible);
      roots := roots[w.hwnd := root];
      Untouched(old(unoccluded), Pixels(rect));
      PixelsEmpty(rect);
      if !regions || IsEmpty(rect) {
        return;
      }
      occludedWindow := occludedWindow * Pixels(rect);
      if occludedWindow == {} {
        assert false;
      }
      occludedWindow := Pixels(rect) - occludedWindow;
      assert occludedWindow == Pixels(rect) - old(unoccluded);
      occludedWindow := Translate(occludedWindow, -rect.left, -rect.top);
      roots := roots[w.hwnd := root.(occludedRegion := occludedWindow)];
    }

    /** ProcessComputeNativeWindowOcclusionStatusCallback(), without the hook of the window's process. */
    method Visit(w: Seen, ghost start: map<Hwnd, Root>, ghost screen: set<Point>, ghost seen: seq<Seen>)
      requires Passed(start, screen, seen)
      modifies this`roots, this`unknown, this`unoccluded
      ensures Passed(start, screen, seen + [w])
    {
      CoverMore(seen, w, moving);
      forall h | h in start
        ensures Judged(start[h], h, seen + [w], screen, moving, regions)
                == if roots[h].state == Unknown && w.hwnd == h && h != moving
                   then Verdict(roots[h], w, screen - Cover(seen, moving), regions) else roots[h]
      {
        JudgedMore(start[h], h, seen, w, screen, moving, regions);
      }
      if w.hwnd in roots && roots[w.hwnd].state == Unknown { UnknownCounted(roots, w.hwnd); }
      if w.hwnd == moving {
        return;
      }
      if unknown == 0 {
        return;
      }
      if w.hwnd !in roots || roots[w.hwnd].state != Unknown {
        if w.occluding {
          unoccluded := unoccluded - Pixels(w.rect);
        }
        return;
      }
      OneLess(roots, w.hwnd, Verdict(roots[w.hwnd], w, unoccluded, regions));
      Judge(w);
    }

    /** Hooks the process of an occluding window that is not hooked yet. */
    method HookProcessOf(w: Seen)
      requires hooks.Valid()
      modifies hooks`processes, hooks`pids, hooks.os
      ensures hooks.Valid()
      ensures hooks.pids == old(hooks.pids) + if w.occluding && w.pid !in old(hooks.processes) then {w.pid} else {}
      ensures old(hooks.Tight()) ==> hooks.Tight()
      ensures old(hooks.processes.Keys) <= hooks.processes.Keys && (w.occluding ==> w.pid in hooks.processes)
      ensures hooks.globals == old(hooks.globals) && hooks.Steady()
    {
      if w.occluding && w.pid !in hooks.processes {
        hooks.RegisterForProcess(w.pid);
      }
    }

    /** The hooks while a pass is under way: an exact ledger grows by the pids seen. */
    ghost predicate Hooked(tight: bool, pids: set<Pid>, current: set<Pid>)
      reads hooks, hooks.os
    {
      hooks.Valid() && (tight ==> hooks.Tight() && hooks.pids == pids + current)
    }

    /** The process of an occluding window is recorded and hooked. */
    method RecordProcess(w: Seen, current: set<Pid>, ghost tight: bool, ghost pids: set<Pid>)
      returns (pidsNow: set<Pid>)
      requires Hooked(tight, pids, current)
      modifies hooks`processes, hooks`pids, hooks.os
      ensures Hooked(tight, pids, pidsNow) && pidsNow == current + if w.occluding then {w.pid} else {}
      ensures hooks.Steady()
    {
      pidsNow := current;
      if w.occluding { pidsNow := pidsNow + {w.pid}; }
      HookProcessOf(w);
    }

    /** ProcessComputeNativeWindowOcclusionStatusCallback(). */
    method Callback(w: Seen, current: set<Pid>, ghost start: map<Hwnd, Root>, ghost screen: set<Point>,
                    ghost seen: seq<Seen>, ghost tight: bool, ghost pids: set<Pid>) returns (pidsNow: set<Pid>)
      requires Passed(start, screen, seen) && Hooked(tight, pids, current) && current == OccludingPids(seen)
      modifies this`roots, this`unknown, this`unoccluded, hooks`processes, hooks`pids, hooks.os
      ensures Passed(start, screen, seen + [w]) && Hooked(tight, pids, pidsNow) && pidsNow == OccludingPids(seen + [w])
      ensures hooks.Steady()
    {
      pidsNow := RecordProcess(w, current, tight, pids);
      Visit(w, start, screen, seen);
      PidsMore(seen, w);
    }

    /** EnumWindows() with the callback. */
    method Enumerate(windows: seq<Seen>, ghost start: map<Hwnd, Root>, ghost screen: set<Point>)
      returns (current: set<Pid>)
      requires Passed(start, screen, []) && hooks.Valid()
      modifies this`roots, this`unknown, this`unoccluded, hooks`processes, hooks`pids, hooks.os
      ensures Passed(start, screen, windows) && current == OccludingPids(windows)
      ensures Hooked(old(hooks.Tight()), old(hooks.pids), current) && hooks.Steady()
    {
      current := {};
      ghost var tight, pids := hooks.Tight(), hooks.pids;
      for i := 0 to |windows|
        invariant Passed(start, screen, windows[..i]) && current == OccludingPids(windows[..i])
        invariant Hooked(tight, pids, current) && hooks.Steady()
      {
        assert windows[..i + 1] == windows[..i] + [windows[i]];
        current := Callback(windows[i], current, start, screen, windows[..i], tight, pids);
      }
      assert windows[..|windows|] == windows;
    }

    /** The loop that resets the root windows. */
    method Reset(iconic: set<Hwnd>, workspace: Hwnd -> Option<bool>) returns (unregister: bool)
      modifies this`roots, this`unknown
      ensures roots == AllFresh(old(roots).Keys, iconic, workspace)
      ensures forall h :: h in roots ==>
                && roots[h].onWorkspace == workspace(h) && roots[h].occludedRegion == {}
                && (h in iconic ==> roots[h].state == Hidden)
                && (h !in iconic ==> roots[h].state == if workspace(h) == Some(false) then State.Occluded else Unknown)
      ensures unknown == |Unknowns(roots)|
      ensures unregister <==> forall h :: h in roots ==> h in iconic
    {
      unregister, unknown := true, 0;
      var todo, done := roots.Keys, map[];
      while todo != {}
        invariant roots == old(roots) && done.Keys + todo == roots.Keys
        invariant forall h :: h in done ==> h !in todo && done[h] == Fresh(h, iconic, workspace)
        invariant unknown == |Unknowns(done)|
        invariant unregister <==> forall h :: h in done ==> h in iconic
        decreases |todo|
      {
        SomeRoot(todo);
        var h :| h in todo;
        var root := Root(workspace(h), State.Unknown, {});
        if h in iconic {
          root := root.(state := Hidden);
        } else if root.onWorkspace == Some(false) {
          root := root.(state := State.Occluded);
          unregister := false;
        } else {
          unregister := false;
          unknown := unknown + 1;
        }
        OneMore(done, h, root);
        done, todo := done[h := root], todo - {h};
      }
      roots := done;
    }

    method EnumerateAndPrune(windows: seq<Seen>, ghost start: map<Hwnd, Root>, ghost screen: set<Point>)
      requires Passed(start, screen, []) && hooks.Valid()
      modifies this`roots, this`unknown, this`unoccluded, hooks`processes, hooks`pids, hooks.os
      ensures Passed(start, screen, windows) && hooks.Valid() && hooks.Steady()
      ensures old(hooks.Tight()) ==> hooks.Tight() && hooks.pids == OccludingPids(windows)
    {
      var current := Enumerate(windows, start, screen);
      hooks.Prune(current);
    }

    /** The branch of a calculation that enumerates the windows. */
    method Judgement(world: World)
      requires hooks.Valid() && unknown == |Unknowns(roots)|
      modifies this`roots, this`unknown, this`unoccluded, hooks`processes, hooks`pids, hooks.os
      ensures hooks.Valid() && hooks.Steady() && Decided(old(roots), world)
      ensures old(hooks.Tight()) ==> hooks.Tight() && hooks.pids == OccludingPids(world.windows)
    {
      ghost var start := roots;
      unoccluded := Pixels(world.screen);
      EnumerateAndPrune(world.windows, start, unoccluded);
    }

    /** ComputeNativeWindowOcclusionStatus(). */
    method Compute(world: World)
      requires hooks.Valid()
      modifies this`roots, this`unknown, this`unoccluded, hooks, hooks.os
      ensures hooks.Valid() && roots.Keys == old(roots).Keys
      ensures forall h :: h in roots ==> Answered(roots[h], h, world, moving, regions)
      ensures old(hooks.Tight()) && !(old(roots).Keys <= world.iconic) ==>
                forall p :: p in hooks.pids <==> exists i :: 0 <= i < |world.windows|
                                                     && world.windows[i].occluding && world.windows[i].pid == p
      ensures old(roots) == map[] ==> roots == map[] && unchanged(hooks) && unchanged(hooks.os)
      ensures old(roots) != map[] && old(roots).Keys <= world.iconic ==>
                roots == AllFresh(old(roots).Keys, world.iconic, world.workspace)
                && hooks.Emptied() && (old(hooks.Accounted()) ==> hooks.os.live == {})
      ensures !(old(roots).Keys <= world.iconic) ==>
                Decided(AllFresh(old(roots).Keys, world.iconic, world.workspace), world)
                && hooks.globals == old(hooks.globals)
                && (old(hooks.Tight()) ==> hooks.pids == OccludingPids(world.windows))
      ensures old(hooks.Tight()) ==> hooks.Tight()
      ensures hooks.Steady()
    {
      if roots == map[] {
        return;
      }
      ghost var before := roots.Keys;
      var unregister := Reset(world.iconic, world.workspace);
      SameRoots(before, world.iconic);
      if unregister {
        hooks.UnregisterAll();
        MinimizedAnswered(world);
      } else {
        Judgement(world);
        JudgedAnswered(before, world);
      }
    }

    lemma MinimizedAnswered(world: World)
      requires roots == AllFresh(roots.Keys, world.iconic, world.workspace)
      requires forall h :: h in roots ==> h in world.iconic
      ensures forall h :: h in roots ==> Answered(roots[h], h, world, moving, regions)
    {
    }

    lemma JudgedAnswered(before: set<Hwnd>, world: World)
      requires Decided(AllFresh(before, world.iconic, world.workspace), world)
      ensures forall h :: h in roots ==> Answered(roots[h], h, world, moving, regions)
    {
      forall h | h in roots
        ensures Answered(roots[h], h, world, moving, regions)
      {
        AnswersRight(h, world, moving, regions);
      }
    }

    /** Every root window has the verdict of the z-order. */
    ghost predicate Decided(start: map<Hwnd, Root>, world: World)
      reads this
    {
      && roots.Keys == start.Keys
      && unknown == |Unknowns(roots)|
      && forall h :: h in start ==>
           roots[h] == Judged(start[h], h, world.windows, Pixels(world.screen), moving, regions)
    }

    /** MaybeRegisterEventHooks(). */
    method MaybeRegister(world: World)
      requires hooks.Valid()
      modifies hooks, hooks.os
      ensures hooks.Valid() && hooks.globals != []
      ensures old(hooks.globals) != [] && old(hooks.Tight()) ==> hooks.Tight()
      ensures old(hooks.globals) == [] && old(hooks.Tight()) ==>
                (hooks.Tight() <==>
                 forall p :: p in old(hooks.processes) ==>
                   p in OccludingPids(world.windows) && old(hooks.processes)[p] == NO_HOOK)
      ensures (old(hooks.Doomed()) ==> hooks.Doomed()) && (old(hooks.os.failed) ==> hooks.os.failed)
      ensures old(hooks.Accounted()) ==>
                if old(hooks.globals == [] && Recording(hooks.processes)) then hooks.Doomed() else hooks.Accounted()
    {
      if hooks.globals == [] {
        hooks.RegisterAll(OccludingPids(world.windows));
      }
    }

    /** EnableOcclusionTrackingForWindow(), which schedules a calculation. */
    method Enable(h: Hwnd, world: World)
      requires hooks.Valid()
      modifies this`roots, hooks, hooks.os
      ensures roots == old(roots)[h := Root(None, State.Unknown, {})]
      ensures hooks.Valid() && hooks.globals != []
      ensures old(hooks.Tight()) && (old(hooks.globals) != [] || old(hooks.processes) == map[]) ==> hooks.Tight()
      ensures (old(hooks.Doomed()) ==> hooks.Doomed()) && (old(hooks.os.failed) ==> hooks.os.failed)
      ensures old(hooks.Accounted()) ==>
                if old(hooks.globals == [] && Recording(hooks.processes)) then hooks.Doomed() else hooks.Accounted()
    {
      roots := roots[h := Root(None, State.Unknown, {})];
      MaybeRegister(world);
    }

    /** DisableOcclusionTrackingForWindow(). */
    method Disable(h: Hwnd)
      requires hooks.Valid()
      modifies this`roots, this`moving, hooks, hooks.os
      ensures roots == old(roots) - {h} && moving == if old(moving) == h then NO_WINDOW else old(moving)
      ensures hooks.Valid() && (old(hooks.Tight()) ==> hooks.Tight() && (roots == map[] ==> hooks.os.live == {}))
      ensures hooks.Steady() && (old(hooks.Accounted()) && roots == map[] ==> hooks.os.live == {})
      ensures if roots == map[] then hooks.Emptied() else unchanged(hooks) && unchanged(hooks.os)
    {
      roots := roots - {h};
      if moving == h {
        moving := NO_WINDOW;
      }
      if roots == map[] {
        hooks.UnregisterAll();
      }
    }

    /** The ledger is not kept by every sequence of calls: when all windows were minimized and one is restored before
        anything registers the hooks again, a calculation hooks processes by itself, and the next registration
        overwrites those hooks.  It leaks exactly the ones that were installed. */
    method MinimizeThenRestore(minimized: World, restored: World) returns (installed: bool)
      requires hooks.Valid() && hooks.Tight()
      requires roots != map[] && roots.Keys <= minimized.iconic && !(roots.Keys <= restored.iconic)
      modifies this`roots, this`unknown, this`unoccluded, hooks, hooks.os
      ensures hooks.Tight() <==> !installed
    {
      Compute(minimized);
      Compute(restored);
      installed := exists p :: p in hooks.processes.Keys && hooks.processes[p] != NO_HOOK;
      MaybeRegister(restored);
    }
  }

  // ----- Whole lives -----

  /** What is asked of a calculator. */
  datatype Call =
    | Enable(h: Hwnd, world: World)
    | Disable(h: Hwnd)
    | Compute(world: World)
    | MaybeRegister(world: World)

  /** Registered: with the global hooks.  Bare: without any hook.  Exposed: with hooks of processes only, which a
      calculation made.  Overwritten: a registration came then. */
  datatype Phase = Registered | Bare | Exposed | Overwritten

  /** The tracked windows, and what the calls so far amount to. */
  datatype Life = Life(roots: set<Hwnd>, phase: Phase)

  function Register(p: Phase): Phase {
    if p == Registered || p == Bare then Registered else Overwritten
  }

  function Unregister(p: Phase): Phase {
    if p == Overwritten then Overwritten else Bare
  }

  function After(l: Life, call: Call): Life {
    match call
    case Enable(h, _) => Life(l.roots + {h}, Register(l.phase))
    case MaybeRegister(_) => l.(phase := Register(l.phase))
    case Disable(h) => Life(l.roots - {h}, if l.roots - {h} == {} then Unregister(l.phase) else l.phase)
    case Compute(world) =>
      if l.roots == {} then l
      else if l.roots <= world.iconic then l.(phase := Unregister(l.phase))
      else if l.phase == Registered || l.phase == Overwritten then l
      else l.(phase := if OccludingPids(world.windows) == {} then Bare else Exposed)
  }

  function AfterAll(l: Life, calls: seq<Call>): Life
    decreases |calls|
  {
    if calls == [] then l else AfterAll(After(l, calls[0]), calls[1..])
  }

  lemma {:induction false} CallMore(l: Life, calls: seq<Call>, call: Call)
    ensures AfterAll(l, calls + [call]) == After(AfterAll(l, calls), call)
    decreases |calls|
  {
    if calls == [] {
      assert ([] + [call])[1..] == [];
    } else {
      assert (calls + [call])[1..] == calls[1..] + [call];
      CallMore(After(l, calls[0]), calls[1..], call);
    }
  }

  const UNUSED := Life({}, Bare)

  /** Call number `i` registers while hooks of processes are exposed. */
  predicate OverwritesAt(calls: seq<Call>, i: nat)
    requires i < |calls|
  {
    (calls[i].Enable? || calls[i].MaybeRegister?) && AfterAll(UNUSED, calls[..i]).phase == Exposed
  }

  lemma {:induction false} OverwrittenExactly(calls: seq<Call>)
    ensures AfterAll(UNUSED, calls).phase == Overwritten <==> exists i :: 0 <= i < |calls| && OverwritesAt(calls, i)
    decreases |calls|
  {
    if calls == [] {
    } else {
      var n := |calls| - 1;
      var before := calls[..n];
      assert calls == before + [calls[n]];
      CallMore(UNUSED, before, calls[n]);
      OverwrittenExactly(before);
      assert forall i :: 0 <= i < n ==> calls[..i] == before[..i];
      assert forall i :: 0 <= i < n ==> OverwritesAt(calls, i) == OverwritesAt(before, i);
      assert OverwritesAt(calls, n) <==> Register(AfterAll(UNUSED, before).phase) == Overwritten
                                         && AfterAll(UNUSED, before).phase == Exposed
                                         && (calls[n].Enable? || calls[n].MaybeRegister?);
      if exists i :: 0 <= i < n && OverwritesAt(before, i) {
        var i :| 0 <= i < n && OverwritesAt(before, i);
        assert OverwritesAt(calls, i);
      }
    }
  }

  /** What a phase says of the hooks. */
  ghost predicate InPhase(hooks: Hooks, p: Phase)
    reads hooks, hooks.os
  {
    match p
    case Registered => hooks.globals != [] && hooks.Accounted()
    case Bare => hooks.globals == [] && hooks.Tight() && hooks.pids == {}
    case Exposed => hooks.globals == [] && hooks.Tight() && hooks.pids != {}
    case Overwritten => !hooks.os.failed ==> hooks.Doomed()
  }

  /** Exposed hooks are what a registration overwrites. */
  lemma ExposedRecords(hooks: Hooks, p: Phase)
    requires hooks.Valid() && InPhase(hooks, p)
    ensures p == Bare || p == Exposed ==> hooks.Accounted()
    ensures p == Bare ==> !Recording(hooks.processes)
    ensures p == Exposed && !hooks.os.failed ==> Recording(hooks.processes)
  {
    if p == Exposed {
      SomePid(hooks.pids);
      var pid :| pid in hooks.pids;
      assert pid in hooks.processes;
    }
  }

  method ServeEnable(c: Calculator, h: Hwnd, world: World, ghost p: Phase)
    requires c.hooks.Valid() && InPhase(c.hooks, p)
    modifies c, c.hooks, c.hooks.os
    ensures c.hooks.Valid() && c.roots.Keys == old(c.roots.Keys) + {h} && InPhase(c.hooks, Register(p))
  {
    ExposedRecords(c.hooks, p);
    c.Enable(h, world);
  }

  method ServeRegister(c: Calculator, world: World, ghost p: Phase)
    requires c.hooks.Valid() && InPhase(c.hooks, p)
    modifies c.hooks, c.hooks.os
    ensures c.hooks.Valid() && InPhase(c.hooks, Register(p))
  {
    ExposedRecords(c.hooks, p);
    c.MaybeRegister(world);
  }

  method ServeDisable(c: Calculator, h: Hwnd, ghost p: Phase)
    requires c.hooks.Valid() && InPhase(c.hooks, p)
    modifies c, c.hooks, c.hooks.os
    ensures c.hooks.Valid() && c.roots.Keys == old(c.roots.Keys) - {h}
    ensures InPhase(c.hooks, if c.roots.Keys == {} then Unregister(p) else p)
  {
    ExposedRecords(c.hooks, p);
    c.Disable(h);
  }

  /** What a calculation does to the hooks. */
  method Recompute(c: Calculator, world: World)
    requires c.hooks.Valid()
    modifies c, c.hooks, c.hooks.os
    ensures c.hooks.Valid() && c.hooks.Steady() && c.roots.Keys == old(c.roots.Keys)
    ensures c.roots.Keys == {} ==> unchanged(c.hooks) && unchanged(c.hooks.os)
    ensures c.roots.Keys != {} && c.roots.Keys <= world.iconic ==>
              c.hooks.Emptied() && (old(c.hooks.Accounted()) ==> c.hooks.os.live == {})
    ensures c.roots.Keys != {} && !(c.roots.Keys <= world.iconic) ==>
              && c.hooks.globals == old(c.hooks.globals)
              && (old(c.hooks.Tight()) ==> c.hooks.Tight() && c.hooks.pids == OccludingPids(world.windows))
  {
    c.Compute(world);
  }

  method ServeCompute(c: Calculator, world: World, ghost l: Life)
    requires c.hooks.Valid() && c.roots.Keys == l.roots && InPhase(c.hooks, l.phase)
    modifies c, c.hooks, c.hooks.os
    ensures c.hooks.Valid() && c.roots.Keys == l.roots && InPhase(c.hooks, After(l, Compute(world)).phase)
  {
    ExposedRecords(c.hooks, l.phase);
    Recompute(c, world);
  }

  method ServeOne(c: Calculator, call: Call, ghost l: Life)
    requires c.hooks.Valid() && c.roots.Keys == l.roots && InPhase(c.hooks, l.phase)
    modifies c, c.hooks, c.hooks.os
    ensures c.hooks.Valid() && c.roots.Keys == After(l, call).roots && InPhase(c.hooks, After(l, call).phase)
  {
    match call
    case Enable(h, world) => ServeEnable(c, h, world, l.phase);
    case Disable(h) => ServeDisable(c, h, l.phase);
    case Compute(world) => ServeCompute(c, world, l);
    case MaybeRegister(world) => ServeRegister(c, world, l.phase);
  }

  /** A calculator that serves any calls.  Unless one of them registers while hooks are exposed, every installed hook is
      accounted for in the end; if one does, and no hook failed to install, hooks have leaked or are bound to. */
  method Serve(calls: seq<Call>, regions: bool) returns (c: Calculator)
    ensures c.hooks.Valid() && (c.hooks.Doomed() ==> !c.hooks.Accounted())
    ensures (forall i :: 0 <= i < |calls| ==> !OverwritesAt(calls, i)) ==> c.hooks.Accounted()
    ensures (exists i :: 0 <= i < |calls| && OverwritesAt(calls, i)) && !c.hooks.os.failed ==> c.hooks.Doomed()
  {
    var os := new WinEvents();
    var hooks := new Hooks(os);
    c := new Calculator(hooks, regions);
    ghost var l := UNUSED;
    OverwrittenExactly(calls);
    for i := 0 to |calls|
      invariant fresh(c) && fresh(c.hooks) && fresh(c.hooks.os) && c.hooks.Valid()
      invariant c.roots.Keys == l.roots && InPhase(c.hooks, l.phase)
      invariant AfterAll(l, calls[i..]) == AfterAll(UNUSED, calls)
    {
      assert calls[i..][1..] == calls[i + 1..];
      ServeOne(c, calls[i], l);
      l := After(l, calls[i]);
    }
  }
}
