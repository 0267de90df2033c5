/**
 * The drawable nodes the hierarchy composes, and stand-ins for the wrapping helpers it calls.
 *
 * The helper bodies in this module replace collaborators whose source is not part of this
 * model (the scale-type, matrix, forwarding and rounded drawables, and the wrapping helpers).
 * They are deliberately small: the properties of the hierarchy are stated in terms of these
 * functions, not of their bodies.
 */
module Drawables {
  import opened Wrappers

  /** The transforms a scale-type node can apply. */
  datatype ScaleType =
    | FitXY | FitStart | FitCenter | FitEnd | Center | CenterInside
    | CenterCrop | FocusCrop | FitBottomStart

  /** A focus point, as fractions of width and height; opaque to the hierarchy. */
  datatype FocusPoint = FocusPoint(x: real, y: real)

  /** Whether rounding clips each leaf bitmap or paints a colour ring over the whole composite. */
  datatype RoundingMethod = OverlayColor | BitmapOnly

  /** Rounding parameters; apart from the method, the fields are opaque to the hierarchy. */
  datatype RoundingParams = RoundingParams(
    roundingMethod: RoundingMethod,
    roundAsCircle: bool,
    cornersRadii: seq<real>,
    borderWidth: real,
    borderColor: int,
    padding: real,
    overlayColor: int)

  /** The parameters a rounded leaf is reset to when leaf rounding is switched off. */
  const Unrounded := RoundingParams(BitmapOnly, false, [], 0.0, 0, 0.0, 0)

  /**
   * A drawable. `Empty` is a null child. `EmptyImage` is the hierarchy's own private
   * transparent drawable, which no caller can hold. `Leaf` is a drawable supplied by a caller.
   * `Matrix`, `Scaled` and `Forwarding` are decorators with one child. `Rounded` is a rounded
   * leaf: it draws the bitmap of its child but is not a parent that can be re-targeted.
   */
  datatype Node =
    | Empty
    | EmptyImage
    | Leaf(id: nat)
    | Matrix(child: Node)
    | Scaled(scaleType: ScaleType, focusPoint: Option<FocusPoint>, child: Node)
    | Rounded(params: RoundingParams, child: Node)
    | Forwarding(child: Node)

  predicate RoundsLeaves(p: Option<RoundingParams>) {
    p.Some? && p.value.roundingMethod == BitmapOnly
  }

  predicate RoundsOverlay(p: Option<RoundingParams>) {
    p.Some? && p.value.roundingMethod == OverlayColor
  }

  /** Stand-in for applying leaf rounding to a drawable before it is attached. */
  function LeafRound(p: Option<RoundingParams>, n: Node): (r: Node)
    ensures !RoundsLeaves(p) ==> r == n
    ensures r == n || (RoundsLeaves(p) && r == Rounded(p.value, n))
    ensures r.Empty? <==> n.Empty?
  {
    if RoundsLeaves(p) && n.Leaf? then Rounded(p.value, n) else n
  }

  /** Stand-in for wrapping a drawable with a scale-type node when a scale type is given. */
  function MaybeWrapWithScaleType(n: Node, s: Option<ScaleType>, f: Option<FocusPoint>): (r: Node)
    ensures (n.Empty? || s.None?) ==> r == n
    ensures (!n.Empty? && s.Some?) ==> r == Scaled(s.value, f, n)
  {
    if n.Empty? || s.None? then n else Scaled(s.value, f, n)
  }

  /** Stand-in for the composite-level rounding wrapper: present exactly for overlay-colour params. */
  function OverlayRoundingFor(p: Option<RoundingParams>): (r: Option<RoundingParams>)
    ensures r.Some? <==> RoundsOverlay(p)
    ensures r.Some? ==> r == p
  {
    if RoundsOverlay(p) then p else None
  }

  /**
   * The leaf position below a node: descend through every decorator that is a parent
   * (matrix, scale type, forwarding) and stop at anything else.
   */
  function LeafBelow(n: Node): Node {
    match n
    case Matrix(c) => LeafBelow(c)
    case Scaled(_, _, c) => LeafBelow(c)
    case Forwarding(c) => LeafBelow(c)
    case _ => n
  }

  /** The rounding a leaf position shows under params `p`. */
  predicate ReflectsRounding(leaf: Node, p: Option<RoundingParams>) {
    match leaf
    case Rounded(q, _) => q == (if RoundsLeaves(p) then p.value else Unrounded)
    case Leaf(_) => !RoundsLeaves(p)
    case _ => true
  }

  /**
   * Stand-in for updating leaf rounding under a parent: walk down to the leaf position,
   * update a rounded leaf in place, round a bare leaf when leaf rounding is on.
   */
  function UpdateLeafRounding(n: Node, p: Option<RoundingParams>): (r: Node)
    ensures r.Empty? <==> n.Empty?
    ensures r.Matrix? <==> n.Matrix?
    ensures r.Scaled? <==> n.Scaled?
    ensures r.Forwarding? <==> n.Forwarding?
    ensures r == EmptyImage <==> n == EmptyImage
    ensures r.Scaled? ==> r.scaleType == n.scaleType && r.focusPoint == n.focusPoint
    ensures ReflectsRounding(LeafBelow(r), p)
  {
    match n
    case Matrix(c) => Matrix(UpdateLeafRounding(c, p))
    case Scaled(s, f, c) => Scaled(s, f, UpdateLeafRounding(c, p))
    case Forwarding(c) => Forwarding(UpdateLeafRounding(c, p))
    case Rounded(_, c) => Rounded(if RoundsLeaves(p) then p.value else Unrounded, c)
    case _ => LeafRound(p, n)
  }

  /** Updating twice with the same params is the same as updating once. */
  lemma {:induction false} UpdateLeafRoundingIdempotent(n: Node, p: Option<RoundingParams>)
    ensures UpdateLeafRounding(UpdateLeafRounding(n, p), p) == UpdateLeafRounding(n, p)
  {
    match n
    case Matrix(c) => UpdateLeafRoundingIdempotent(c, p);
    case Scaled(_, _, c) => UpdateLeafRoundingIdempotent(c, p);
    case Forwarding(c) => UpdateLeafRoundingIdempotent(c, p);
    case _ =>
  }
}
