/**
 * The parent locator: from the node held in a layer slot, find the lowest parent whose child
 * is replaced when the layer's content changes.
 *
 * The walk starts at the compositor slot, descends through at most one matrix node and then
 * through at most one scale-type node, and stops at anything else. A walk is recorded as the
 * decorator hops taken plus the child found under the last hop, so that the slot's node can
 * be rebuilt around a new child.
 */
module Locator {
  import opened Wrappers
  import opened Drawables

  /** One decorator the locator descended through. */
  datatype Hop = MatrixHop | ScaleHop(scaleType: ScaleType, focusPoint: Option<FocusPoint>)

  /** The hops taken from the slot and the child found under the located parent. */
  datatype Located = Located(hops: seq<Hop>, child: Node)

  /** Rebuild a slot's node from the hops above a child. */
  function Plug(hops: seq<Hop>, c: Node): Node
    decreases |hops|
  {
    if hops == [] then c
    else match hops[0]
      case MatrixHop => Matrix(Plug(hops[1..], c))
      case ScaleHop(s, f) => Scaled(s, f, Plug(hops[1..], c))
  }

  /** The walk is over: no hop is missing that the locator would have taken. */
  predicate Stops(l: Located) {
    || (l.hops == [] && !l.child.Matrix? && !l.child.Scaled?)
    || (l.hops == [MatrixHop] && !l.child.Scaled?)
    || (|l.hops| == 1 && l.hops[0].ScaleHop?)
    || (|l.hops| == 2 && l.hops[0] == MatrixHop && l.hops[1].ScaleHop?)
  }

  /** The located parent is a scale-type node. */
  predicate ParentIsScaleType(l: Located) {
    |l.hops| > 0 && l.hops[|l.hops| - 1].ScaleHop?
  }

  /** Second step of the walk: unwrap one scale-type node if there is one. */
  function UnwrapScaleType(n: Node): (l: Located)
    ensures Plug(l.hops, l.child) == n
    ensures l.hops == [] || (|l.hops| == 1 && l.hops[0].ScaleHop?)
    ensures l.hops == [] ==> !n.Scaled?
  {
    match n
    case Scaled(s, f, c) =>
      assert [ScaleHop(s, f)][1..] == [];
      Located([ScaleHop(s, f)], c)
    case _ => Located([], n)
  }

  /** The lowest parent of the layer whose slot holds `n`. */
  function Locate(n: Node): (l: Located)
    ensures Plug(l.hops, l.child) == n
    ensures Stops(l)
    ensures |l.hops| <= 2
    ensures ParentIsScaleType(l) <==> n.Scaled? || (n.Matrix? && n.child.Scaled?)
  {
    match n
    case Matrix(c) =>
      var u := UnwrapScaleType(c);
      assert ([MatrixHop] + u.hops)[1..] == u.hops;
      Located([MatrixHop] + u.hops, u.child)
    case _ => UnwrapScaleType(n)
  }

  /** Locating a rebuilt node recovers the hops and the child it was built from. */
  lemma LocatePlug(l: Located)
    requires Stops(l)
    ensures Locate(Plug(l.hops, l.child)) == l
  {
    if |l.hops| == 2 {
      var h := l.hops[1];
      assert l.hops[1..] == [h];
      assert [h][1..] == [];
      assert Plug([h], l.child) == Scaled(h.scaleType, h.focusPoint, l.child);
      assert Plug(l.hops, l.child) == Matrix(Scaled(h.scaleType, h.focusPoint, l.child));
    } else if l.hops == [MatrixHop] {
      assert Plug(l.hops, l.child) == Matrix(l.child);
    }
  }

  /** Locating then rebuilding is the identity; rebuilding then locating is, under `Stops`. */
  lemma LocateIsDecomposition(n: Node, l: Located)
    ensures Locate(n) == l <==> Stops(l) && Plug(l.hops, l.child) == n
  {
    if Stops(l) && Plug(l.hops, l.child) == n {
      LocatePlug(l);
    }
  }

  /** Replace the child of the located parent (setting the drawable of the lowest parent). */
  function ReplaceChild(n: Node, c: Node): (r: Node)
    ensures r == Plug(Locate(n).hops, c)
    ensures Stops(Located(Locate(n).hops, c)) ==> Locate(r) == Located(Locate(n).hops, c)
    ensures ParentIsScaleType(Locate(n)) ==>
      Locate(r).hops == Locate(n).hops && Locate(r).child == c
  {
    var l := Locate(n);
    if Stops(Located(l.hops, c)) then
      LocatePlug(Located(l.hops, c));
      Plug(l.hops, c)
    else
      Plug(l.hops, c)
  }

  /**
   * Make sure the located parent is a scale-type node: if it is not, insert a FIT_XY node
   * without focus point between it and its child.
   */
  function EnsureScaleType(n: Node): (r: Node)
    ensures ParentIsScaleType(Locate(r))
    ensures Locate(r).child == Locate(n).child
    ensures ParentIsScaleType(Locate(n)) ==> r == n
    ensures !ParentIsScaleType(Locate(n)) ==>
      Locate(r).hops == Locate(n).hops + [ScaleHop(FitXY, None)]
  {
    var l := Locate(n);
    if ParentIsScaleType(l) then n
    else
      var l' := Located(l.hops + [ScaleHop(FitXY, None)], l.child);
      LocatePlug(l');
      Plug(l'.hops, l'.child)
  }

  /** The hops above the located scale-type node, or all the hops when there is none. */
  function HopsAboveScaleType(n: Node): (hops: seq<Hop>)
    ensures ParentIsScaleType(Locate(n)) ==> Locate(n).hops == hops + [Locate(n).hops[|Locate(n).hops| - 1]]
    ensures !ParentIsScaleType(Locate(n)) ==> hops == Locate(n).hops
  {
    var l := Locate(n);
    if ParentIsScaleType(l) then l.hops[..|l.hops| - 1] else l.hops
  }

  /** The scale-type node that is the located parent. */
  function LocatedScaleHop(n: Node): (h: Hop)
    requires ParentIsScaleType(Locate(n))
    ensures h.ScaleHop?
  {
    var l := Locate(n);
    l.hops[|l.hops| - 1]
  }

  /** Rewrite the located scale-type node's parameters, leaving its position and child alone. */
  function UpdateLocatedScaleType(n: Node, s: ScaleType, f: Option<FocusPoint>): (r: Node)
    requires ParentIsScaleType(Locate(n))
    ensures ParentIsScaleType(Locate(r))
    ensures LocatedScaleHop(r) == ScaleHop(s, f)
    ensures Locate(r).child == Locate(n).child
    ensures |Locate(r).hops| == |Locate(n).hops|
    ensures Locate(r).hops[..|Locate(r).hops| - 1] == Locate(n).hops[..|Locate(n).hops| - 1]
    ensures Locate(r).hops == HopsAboveScaleType(n) + [ScaleHop(s, f)]
  {
    var l := Locate(n);
    var l' := Located(l.hops[..|l.hops| - 1] + [ScaleHop(s, f)], l.child);
    LocatePlug(l');
    Plug(l'.hops, l'.child)
  }
}
