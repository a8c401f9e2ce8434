/** Closing a page that DevTools windows inspect, where these may be inspected themselves
    (chrome/browser/devtools/devtools_window.cc). */
module BeforeUnload {
  import opened Wrappers

  type Contents = int
  type Window = int

  /** `inspector`: the window that inspects some contents, if any; `main`: the front-end contents of a window. */
  datatype Graph = Graph(inspector: map<Contents, Window>, main: Window -> Contents)

  /** The window has loaded, and is not intercepting already. */
  predicate Ready(g: Graph, loaded: set<Window>, intercepting: set<Window>, c: Contents) {
    c in g.inspector && g.inspector[c] in loaded && g.inspector[c] !in intercepting
  }

  /** The windows are stacked on the contents, each one inspecting the front end of the one before it. */
  predicate Stacked(g: Graph, c: Contents, chain: seq<Window>)
    decreases |chain|
  {
    chain != [] ==> c in g.inspector && g.inspector[c] == chain[0] && Stacked(g, g.main(chain[0]), chain[1..])
  }

  /** The contents on top of the stack. */
  function Front(g: Graph, c: Contents, chain: seq<Window>): Contents {
    if chain == [] then c else g.main(chain[|chain| - 1])
  }

  function Members(chain: seq<Window>): set<Window> {
    set w | w in chain
  }

  /** The stack that a page's beforeunload is passed up: as far as windows are ready, each of them once. */
  ghost predicate Passed(g: Graph, loaded: set<Window>, intercepting: set<Window>, c: Contents, chain: seq<Window>) {
    && Stacked(g, c, chain)
    && (forall i :: 0 <= i < |chain| ==> chain[i] in loaded && chain[i] !in intercepting)
    && (forall i, j :: 0 <= i < j < |chain| ==> chain[i] != chain[j])
    && !Ready(g, loaded, intercepting + Members(chain), Front(g, c, chain))
  }

  class DevTools {
    const graph: Graph
    const windows: set<Window>
    const loaded: set<Window>          // life_stage_ is kLoadCompleted
    const docked: set<Window>          // the window, and not a browser, is the delegate of its front end
    var intercepting: set<Window>      // intercepted_page_beforeunload_
    var dispatched: seq<Contents>      // DispatchBeforeUnload() calls
    var refused: seq<Contents>         // contents whose delegate was told that closing is refused
    var detached: set<Window>          // closed directly

    constructor (graph: Graph, windows: set<Window>, loaded: set<Window>, docked: set<Window>)
      ensures this.graph == graph && this.windows == windows && this.loaded == loaded && this.docked == docked
      ensures intercepting == {} && dispatched == [] && refused == [] && detached == {}
    {
      this.graph, this.windows, this.loaded, this.docked := graph, windows, loaded, docked;
      intercepting, dispatched, refused, detached := {}, [], [], {};
    }

    ghost predicate Valid()
      reads this
    {
      intercepting <= windows && forall c :: c in graph.inspector ==> graph.inspector[c] in windows
    }

    /** InterceptPageBeforeUnload().  It ends on every graph, also one with cycles: fewer windows are left. */
    method Intercept(c: Contents) returns (intercepted: bool, ghost chain: seq<Window>)
      requires Valid()
      modifies this`intercepting, this`dispatched
      ensures Valid() && Passed(graph, loaded, old(intercepting), c, chain)
      ensures intercepted == (chain != [])
      ensures intercepting == old(intercepting) + Members(chain)
      ensures dispatched == old(dispatched) + if intercepted then [Front(graph, c, chain)] else []
      decreases |windows - intercepting|
    {
      chain := [];
      if c !in graph.inspector {
        return false, [];
      }
      var w := graph.inspector[c];
      if w in intercepting || w !in loaded {
        return false, [];
      }
      intercepting := intercepting + {w};
      FewerLeft(windows, old(intercepting), w);
      var passedOn, rest := Intercept(graph.main(w));
      if !passedOn {
        dispatched := dispatched + [graph.main(w)];
      }
      chain := [w] + rest;
      intercepted := true;
      PassedOn(graph, loaded, old(intercepting), c, w, rest);
    }

    /** What a refusal by window number `i`, which intercepts, leads to: every intercepting window hands it on to the
        delegate of what it inspects, so that it reaches the delegate of the page itself.  Otherwise it ends at the
        highest window below that does not intercept: a docked one just stays, an undocked one's browser is told. */
    ghost predicate Refused(before: seq<Contents>, c: Contents, chain: seq<Window>, i: nat)
      requires i < |chain|
      reads this`intercepting, this`refused
    {
      && ((forall k :: 0 <= k < i ==> chain[k] in intercepting) ==> refused == before + [c])
      && (forall k :: 0 <= k < i && chain[k] !in intercepting
                        && (forall m :: k < m < i ==> chain[m] in intercepting) ==>
            refused == before + if chain[k] in docked then [] else [graph.main(chain[k])])
    }

    /** BeforeUnloadFired() of window number `i` of a stack.  One that does not intercept is closed directly.  One that
        does passes an agreement on to what it inspects, and a refusal to the delegate of that. */
    method BeforeUnloadFired(c: Contents, chain: seq<Window>, i: nat, proceed: bool) returns (proceedToFireUnload: bool)
      requires Valid() && i < |chain| && Stacked(graph, c, chain)
      modifies this`dispatched, this`refused, this`detached
      ensures Valid() && proceedToFireUnload == (proceed && chain[i] !in intercepting)
      ensures detached == old(detached) + if proceedToFireUnload then {chain[i]} else {}
      ensures dispatched == old(dispatched)
                            + if proceed && chain[i] in intercepting then [Front(graph, c, chain[..i])] else []
      ensures if proceed || chain[i] !in intercepting then refused == old(refused)
              else Refused(old(refused), c, chain, i)
      decreases i, 0
    {
      if chain[i] !in intercepting {
        if proceed {
          detached := detached + {chain[i]};
        }
        return proceed;
      }
      var inspected := Front(graph, c, chain[..i]);
      if proceed {
        dispatched := dispatched + [inspected];
      } else if i == 0 {
        refused := refused + [c];
      } else {
        var shouldProceed := Delegate(c, chain, i - 1, false, false);
      }
      proceedToFireUnload := false;
    }

    /** The delegate of a front end: the window itself while it is docked, and otherwise its browser.  That one's
        BeforeUnloadFired() (chrome/browser/ui/browser.cc) asks HandleBeforeUnload() first, and answers what its unload
        controller does only for a window that does not intercept. */
    method Delegate(c: Contents, chain: seq<Window>, i: nat, proceed: bool, controller: bool)
      returns (proceedToFireUnload: bool)
      requires Valid() && i < |chain| && Stacked(graph, c, chain)
      modifies this`dispatched, this`refused, this`detached
      ensures Valid()
      ensures proceedToFireUnload == (chain[i] !in intercepting && if chain[i] in docked then proceed else controller)
      ensures detached == old(detached) + if proceedToFireUnload && chain[i] in docked then {chain[i]} else {}
      ensures dispatched == old(dispatched)
                            + if proceed && chain[i] in intercepting then [Front(graph, c, chain[..i])] else []
      ensures chain[i] in intercepting && !proceed ==> Refused(old(refused), c, chain, i)
      ensures chain[i] in intercepting && proceed ==> refused == old(refused)
      ensures chain[i] !in intercepting ==>
                refused == old(refused) + if proceed || chain[i] in docked then [] else [graph.main(chain[i])]
      decreases i, 2
    {
      if chain[i] in docked {
        proceedToFireUnload := BeforeUnloadFired(c, chain, i, proceed);
        return;
      }
      var handled;
      handled, proceedToFireUnload := HandleBeforeUnload(c, chain, i, proceed);
      if handled {
        return;
      }
      if !proceed {
        refused := refused + [graph.main(chain[i])];
      }
      proceedToFireUnload := controller;
    }

    method HandleBeforeUnload(c: Contents, chain: seq<Window>, i: nat, proceed: bool)
      returns (handled: bool, proceedToFireUnload: bool)
      requires Valid() && i < |chain| && Stacked(graph, c, chain)
      modifies this`dispatched, this`refused, this`detached
      ensures Valid() && handled == (chain[i] in intercepting) && !proceedToFireUnload && detached == old(detached)
      ensures dispatched == old(dispatched) + if handled && proceed then [Front(graph, c, chain[..i])] else []
      ensures if handled && !proceed then Refused(old(refused), c, chain, i) else refused == old(refused)
      decreases i, 1
    {
      if chain[i] !in intercepting {
        return false, false;
      }
      handled := true;
      proceedToFireUnload := BeforeUnloadFired(c, chain, i, proceed);
    }

    /** The front ends of a stack answer, from the top down, each asked because the one above agreed.  The page itself
        is asked exactly if all agree, and then last; otherwise the page's own delegate, and nobody else, learns of the
        refusal, whichever windows are docked. */
    method Answer(c: Contents, chain: seq<Window>, answers: seq<bool>) returns (agreed: bool)
      requires Valid() && |answers| == |chain| && Stacked(graph, c, chain) && Members(chain) <= intercepting
      modifies this`dispatched, this`refused, this`detached
      ensures Valid() && detached == old(detached)
      ensures agreed <==> forall i :: 0 <= i < |answers| ==> answers[i]
      ensures agreed ==> dispatched == old(dispatched) + Below(graph, c, chain, 0) && refused == old(refused)
      ensures !agreed ==> refused == old(refused) + [c]
      ensures !agreed ==>
                exists k :: 0 <= k < |answers| && !answers[k] && (forall i :: k < i < |answers| ==> answers[i])
                  && dispatched == old(dispatched) + Below(graph, c, chain, k + 1)
    {
      var i := |chain|;
      while i > 0
        invariant 0 <= i <= |chain| && Valid() && Members(chain) <= intercepting && detached == old(detached)
        invariant forall j :: i <= j < |chain| ==> answers[j]
        invariant dispatched == old(dispatched) + Below(graph, c, chain, i) && refused == old(refused)
      {
        var fires := Delegate(c, chain, i - 1, answers[i - 1], false);
        if !answers[i - 1] {
          return false;
        }
        i := i - 1;
      }
      agreed := true;
    }

    /** OnPageCloseCanceled(), when the stack of windows ends. */
    method CancelClose(c: Contents, ghost n: nat)
      requires Valid() && Climb(graph, c, n).None?
      modifies this`intercepting
      ensures Valid() && intercepting == old(intercepting) - Above(graph, c, n)
      decreases n
    {
      if c !in graph.inspector {
        return;
      }
      var w := graph.inspector[c];
      intercepting := intercepting - {w};
      CancelClose(graph.main(w), n - 1);
    }

    /** A page is asked to close, and stays: no window is left intercepting. */
    method CloseThenCancel(c: Contents, ghost n: nat)
      requires Valid() && intercepting == {} && Climb(graph, c, n).None?
      modifies this
      ensures Valid() && intercepting == {}
    {
      var intercepted, chain := Intercept(c);
      StackIsAbove(graph, c, chain, n);
      CancelClose(c, n);
    }
  }

  /** The contents that windows number `i` and up inspect, from the top down. */
  function Below(g: Graph, c: Contents, chain: seq<Window>, i: nat): seq<Contents>
    requires i <= |chain|
    decreases |chain| - i
  {
    if i == |chain| then [] else Below(g, c, chain, i + 1) + [Front(g, c, chain[..i])]
  }

  // ----- Cancelling -----

  /** The contents `n` front ends up, if there are that many. */
  function Climb(g: Graph, c: Contents, n: nat): Option<Contents>
    decreases n
  {
    if n == 0 then Some(c)
    else if c !in g.inspector then None
    else Climb(g, g.main(g.inspector[c]), n - 1)
  }

  /** The windows on the way. */
  function Above(g: Graph, c: Contents, n: nat): set<Window>
    decreases n
  {
    if n == 0 || c !in g.inspector then {} else {g.inspector[c]} + Above(g, g.main(g.inspector[c]), n - 1)
  }

  /** Some window's front end is inspected, over others or directly, by a window that it inspects. */
  ghost predicate Loops(g: Graph, c: Contents) {
    exists i: nat, j: nat :: i < j && Climb(g, c, i).Some? && Climb(g, c, i) == Climb(g, c, j)
  }

  ghost predicate Ends(g: Graph, c: Contents) {
    exists n: nat :: Climb(g, c, n).None?
  }

  lemma {:induction false} ClimbOn(g: Graph, c: Contents, m: nat, n: nat)
    requires Climb(g, c, m).Some?
    ensures Climb(g, c, m + n) == Climb(g, Climb(g, c, m).value, n)
    decreases m
  {
    if m == 0 {
    } else {
      ClimbOn(g, g.main(g.inspector[c]), m - 1, n);
    }
  }

  lemma {:induction false} StaysEnded(g: Graph, c: Contents, m: nat, n: nat)
    requires m <= n && Climb(g, c, m).None?
    ensures Climb(g, c, n).None?
    decreases m
  {
    if c !in g.inspector {
    } else {
      StaysEnded(g, g.main(g.inspector[c]), m - 1, n - 1);
    }
  }

  /** A loop can be gone around again. */
  lemma {:induction false} GoesOn(g: Graph, c: Contents, i: nat, j: nat, n: nat)
    requires i < j && Climb(g, c, i).Some? && Climb(g, c, i) == Climb(g, c, j)
    ensures Climb(g, c, n).Some?
    decreases n
  {
    if n < j {
      if Climb(g, c, n).None? { StaysEnded(g, c, n, j); }
    } else {
      GoesOn(g, c, i, j, n - (j - i));
      ClimbOn(g, c, i, n - j);
      ClimbOn(g, c, j, n - j);
    }
  }

  function Visited(g: Graph, c: Contents, n: nat): set<Contents> {
    set i | 0 <= i < n && Climb(g, c, i).Some? :: Climb(g, c, i).value
  }

  lemma {:induction false} AllDifferent(g: Graph, c: Contents, n: nat)
    requires Climb(g, c, n).Some? && !Loops(g, c)
    ensures |Visited(g, c, n)| == n && Visited(g, c, n) <= g.inspector.Keys
  {
    if n == 0 {
    } else {
      if Climb(g, c, n - 1).None? { StaysEnded(g, c, n - 1, n); }
      AllDifferent(g, c, n - 1);
      var d := Climb(g, c, n - 1).value;
      assert Visited(g, c, n) == Visited(g, c, n - 1) + {d};
      assert d !in Visited(g, c, n - 1);
      ClimbOn(g, c, n - 1, 1);
    }
  }

  /** OnPageCloseCanceled() recurses without looking at the flags: it returns exactly when the windows above do not
      inspect each other in a circle. */
  lemma EndsUnlessLoops(g: Graph, c: Contents)
    ensures Ends(g, c) <==> !Loops(g, c)
  {
    if Loops(g, c) {
      var i: nat, j: nat :| i < j && Climb(g, c, i).Some? && Climb(g, c, i) == Climb(g, c, j);
      forall n: nat
        ensures Climb(g, c, n).Some?
      {
        GoesOn(g, c, i, j, n);
      }
    } else {
      var n := |g.inspector.Keys| + 1;
      if Climb(g, c, n).Some? {
        AllDifferent(g, c, n);
        Within(Visited(g, c, n), g.inspector.Keys);
      }
    }
  }

  /** Two windows that inspect each other's front end: 20 shows window 0, 21 window 1. */
  const CIRCLE := Graph(map[20 := 1, 21 := 0], w => 20 + w)

  /** There OnPageCloseCanceled() does not return. */
  lemma CircleNeverEnds()
    ensures Loops(CIRCLE, 20) && !Ends(CIRCLE, 20)
  {
    assert Climb(CIRCLE, 21, 1) == Climb(CIRCLE, 20, 0);
    assert Climb(CIRCLE, 20, 2) == Some(20);
    assert Climb(CIRCLE, 20, 0) == Climb(CIRCLE, 20, 2);
    EndsUnlessLoops(CIRCLE, 20);
  }

  lemma Within(a: set<int>, b: set<int>)
    requires a <= b
    ensures |a| <= |b|
  {
    assert b == a + (b - a);
  }

  lemma {:induction false} StackIsAbove(g: Graph, c: Contents, chain: seq<Window>, n: nat)
    requires Stacked(g, c, chain) && Climb(g, c, n).None?
    ensures Members(chain) <= Above(g, c, n)
    decreases |chain|
  {
    if chain == [] {
    } else {
      StackIsAbove(g, g.main(chain[0]), chain[1..], n - 1);
      assert forall w :: w in chain ==> w == chain[0] || w in chain[1..];
    }
  }

  lemma FewerLeft(windows: set<Window>, intercepting: set<Window>, w: Window)
    requires w in windows && w !in intercepting
    ensures |windows - (intercepting + {w})| < |windows - intercepting|
  {
    assert windows - intercepting == (windows - (intercepting + {w})) + {w};
  }

  lemma PassedOn(g: Graph, loaded: set<Window>, intercepting: set<Window>, c: Contents, w: Window, rest: seq<Window>)
    requires Ready(g, loaded, intercepting, c) && w == g.inspector[c]
    requires Passed(g, loaded, intercepting + {w}, g.main(w), rest)
    ensures Passed(g, loaded, intercepting, c, [w] + rest)
    ensures intercepting + Members([w] + rest) == intercepting + {w} + Members(rest)
    ensures Front(g, c, [w] + rest) == Front(g, g.main(w), rest)
  {
    var chain := [w] + rest;
    assert chain[1..] == rest;
    forall i, j | 0 <= i < j < |chain|
      ensures chain[i] != chain[j]
    {
      assert chain[j] == rest[j - 1];
    }
    assert intercepting + {w} + Members(rest) == intercepting + Members(chain);
  }
}
