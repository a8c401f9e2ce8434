/** GetFramePosition() (content/renderer/render_frame_impl.cc): where a frame is in the frame tree. */
module FramePosition {
  /** blink::WebFrame.  The ghost fields say what its links amount to. */
  class WebFrame {
    var parent: WebFrame?
    var firstChild: WebFrame?
    var nextSibling: WebFrame?
    ghost var children: seq<WebFrame>
    ghost var position: nat
    ghost var depth: nat

    constructor ()
    {
      parent, firstChild, nextSibling, children, position, depth := null, null, null, [], 0, 0;
    }
  }

  /** The links of a frame to and among its children spell out the sequence of them. */
  ghost predicate Family(f: WebFrame)
    reads f, f.children
  {
    && f.firstChild == (if f.children == [] then null else f.children[0])
    && forall i :: 0 <= i < |f.children| ==>
         && f.children[i].position == i
         && f.children[i].nextSibling == if i + 1 < |f.children| then f.children[i + 1] else null
  }

  /** A frame is the root or one of its parent's children, and its children's parent. */
  ghost predicate Placed(f: WebFrame, frames: set<WebFrame>, root: WebFrame)
    requires f in frames
    reads frames
  {
    && (f.parent == null <==> f == root)
    && (f.parent != null ==>
          && f.parent in frames
          && f.depth == f.parent.depth + 1
          && f.position < |f.parent.children|
          && f.parent.children[f.position] == f)
    && (forall i :: 0 <= i < |f.children| ==> f.children[i] in frames && f.children[i].parent == f)
    && Family(f)
  }

  /** `frames` is a tree with its root. */
  ghost predicate IsTree(frames: set<WebFrame>, root: WebFrame)
    reads frames
  {
    && root in frames
    && forall f {:trigger Placed(f, frames, root)} :: f in frames ==> Placed(f, frames, root)
  }

  /** The positions of a frame and its ancestors among their siblings, from the frame up. */
  ghost function Path(f: WebFrame, frames: set<WebFrame>, root: WebFrame): seq<nat>
    requires IsTree(frames, root) && f in frames
    reads frames
    decreases f.depth
  {
    assert Placed(f, frames, root);
    if f.parent == null then [] else [f.position] + Path(f.parent, frames, root)
  }

  /** The inner loop: walks the siblings up to `child`, or past the last one. */
  method PositionInParent(parent: WebFrame, child: WebFrame?) returns (position: nat)
    requires Family(parent)
    requires child != null ==> child.position < |parent.children| && parent.children[child.position] == child
    ensures position == if child == null then |parent.children| else child.position
  {
    position := 0;
    var sibling := parent.firstChild;
    ghost var target := if child == null then |parent.children| else child.position;
    while sibling != child
      invariant position <= target <= |parent.children|
      invariant sibling == if position < |parent.children| then parent.children[position] else null
      decreases target - position
    {
      assert position < target;
      assert parent.children[position] == sibling;
      sibling := sibling.nextSibling;
      position := position + 1;
    }
  }

  /** One level of the tree. */
  lemma OneLevelUp(f: WebFrame, frames: set<WebFrame>, root: WebFrame)
    requires IsTree(frames, root) && f in frames && f.parent != null
    ensures f.parent in frames && f.parent.depth < f.depth && Family(f.parent)
    ensures f.position < |f.parent.children| && f.parent.children[f.position] == f
    ensures Path(f, frames, root) == [f.position] + Path(f.parent, frames, root)
  {
    assert Placed(f, frames, root) && Placed(f.parent, frames, root);
  }

  /** BeginPoint: kParentFrame starts with the frame's place in its parent, kThisFrame with the number of its
      children. */
  method GetFramePosition(f: WebFrame, fromParent: bool, ghost frames: set<WebFrame>, ghost root: WebFrame)
    returns (result: seq<nat>)
    requires IsTree(frames, root) && f in frames
    ensures result == (if fromParent then [] else [|f.children|]) + Path(f, frames, root)
  {
    result := [];
    var parent: WebFrame?, child: WebFrame? := f, null;
    if fromParent {
      parent, child := f.parent, f;
    }
    assert Placed(f, frames, root);
    ghost var whole := (if fromParent then [] else [|f.children|]) + Path(f, frames, root);
    while parent != null
      invariant parent != null ==> parent in frames
      invariant child != null ==> child in frames && parent == child.parent
      invariant child != null ==> result + Path(child, frames, root) == whole
      invariant child == null ==> !fromParent && result == [] && parent == f
      decreases if child == null then f.depth + 1 else child.depth
    {
      assert Placed(parent, frames, root);
      if child != null { OneLevelUp(child, frames, root); }
      ghost var above := Path(parent, frames, root);
      var position := PositionInParent(parent, child);
      result := result + [position];
      assert result + above == whole;
      child := parent;
      parent := parent.parent;
    }
  }

  // ----- A position identifies a frame -----

  /** The frame that a list leads to from the root, read from its end. */
  ghost predicate LeadsTo(path: seq<nat>, f: WebFrame, frames: set<WebFrame>, root: WebFrame)
    requires IsTree(frames, root) && f in frames
    reads frames
    decreases |path|
  {
    assert Placed(f, frames, root);
    if path == [] then f == root
    else
      && f.parent != null && LeadsTo(path[1..], f.parent, frames, root)
      && path[0] < |f.parent.children| && f.parent.children[path[0]] == f
  }

  lemma {:induction false} PathLeadsBack(f: WebFrame, frames: set<WebFrame>, root: WebFrame)
    requires IsTree(frames, root) && f in frames
    ensures LeadsTo(Path(f, frames, root), f, frames, root)
    decreases f.depth
  {
    assert Placed(f, frames, root);
    if f.parent == null {
    } else {
      PathLeadsBack(f.parent, frames, root);
    }
  }

  lemma {:induction false} LeadsToOne(path: seq<nat>, f: WebFrame, g: WebFrame, frames: set<WebFrame>, root: WebFrame)
    requires IsTree(frames, root) && f in frames && g in frames
    requires LeadsTo(path, f, frames, root) && LeadsTo(path, g, frames, root)
    ensures f == g
    decreases |path|
  {
    assert Placed(f, frames, root) && Placed(g, frames, root);
    if path == [] {
    } else {
      LeadsToOne(path[1..], f.parent, g.parent, frames, root);
    }
  }

  /** Distinct frames of a tree have distinct positions. */
  lemma PositionsDiffer(f: WebFrame, g: WebFrame, frames: set<WebFrame>, root: WebFrame)
    requires IsTree(frames, root) && f in frames && g in frames
    ensures Path(f, frames, root) == Path(g, frames, root) <==> f == g
  {
    PathLeadsBack(f, frames, root);
    PathLeadsBack(g, frames, root);
    if Path(f, frames, root) == Path(g, frames, root) { LeadsToOne(Path(f, frames, root), f, g, frames, root); }
  }
}
