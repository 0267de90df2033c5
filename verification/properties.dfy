/** Properties that relate several operations of the drawee hierarchy. */
module HierarchyProperties {
  import opened Wrappers
  import opened Drawables
  import opened Locator
  import opened Layout
  import opened DraweeHierarchy

  /** Two valid hierarchies that agree on layer contents, fade state and rounding are equal. */
  lemma Extensionality(h1: Hierarchy, h2: Hierarchy)
    requires Valid(h1) && Valid(h2)
    requires |h1.fade.layers| == |h2.fade.layers|
    requires forall j :: 0 <= j < |h1.fade.layers| ==> h1.fade.layers[j] == h2.fade.layers[j]
    requires forall j :: 0 <= j < |h1.fade.layers| ==> h1.fade.layerOn[j] == h2.fade.layerOn[j]
    requires h1.fade.settled == h2.fade.settled && h1.fade.duration == h2.fade.duration
    requires h1.roundingParams == h2.roundingParams && h1.overlayRounding == h2.overlayRounding
    ensures h1 == h2
  {
    assert h1.fade.layers == h2.fade.layers;
    assert h1.fade.layerOn == h2.fade.layerOn;
  }

  /** Resetting twice is resetting once. */
  lemma ResetIdempotent(h: Hierarchy)
    requires Valid(h)
    ensures Reset(Reset(h)) == Reset(h)
  {
  }

  /** A freshly built hierarchy is already in its reset state. */
  lemma BuildIsReset(b: Builder)
    ensures Reset(Build(b)) == Build(b)
  {
  }

  /** Reset returns to the same state from wherever an image was set. */
  lemma ResetAfterSetImage(h: Hierarchy, d: Node, progress: real, immediate: bool)
    requires Valid(h) && d != Empty
    ensures SetImage(h, d, progress, immediate).Ok?
    ensures Reset(SetImage(h, d, progress, immediate).value) == Reset(h)
  {
  }

  /** Reset returns to the same state after a failure. */
  lemma ResetAfterFailure(h: Hierarchy, t: Throwable)
    requires Valid(h)
    ensures Reset(SetFailure(h, t)) == Reset(h)
  {
  }

  /** Failure and retry are the same transition, whatever the throwables. */
  lemma FailureIsRetry(h: Hierarchy, t1: Throwable, t2: Throwable)
    requires Valid(h)
    ensures SetFailure(h, t1) == SetRetry(h, t2)
  {
  }

  /** The progress argument of setImage has no effect. */
  lemma SetImageIgnoresProgress(h: Hierarchy, d: Node, p1: real, p2: real, immediate: bool)
    requires Valid(h)
    ensures SetImage(h, d, p1, immediate) == SetImage(h, d, p2, immediate)
  {
  }

  /** Any caller-supplied image counts as an image once set. */
  lemma SetImageHasImage(h: Hierarchy, d: Node, progress: real, immediate: bool)
    requires Valid(h) && d != Empty && d != EmptyImage
    ensures SetImage(h, d, progress, immediate).Ok?
    ensures HasImage(SetImage(h, d, progress, immediate).value)
  {
  }

  /** Setting the same rounding params twice is setting them once. */
  lemma SetRoundingParamsIdempotent(h: Hierarchy, p: Option<RoundingParams>)
    requires Valid(h)
    ensures SetRoundingParams(SetRoundingParams(h, p), p) == SetRoundingParams(h, p)
  {
    var h1 := SetRoundingParams(h, p);
    var h2 := SetRoundingParams(h1, p);
    forall j | 0 <= j < |h.fade.layers|
      ensures h2.fade.layers[j] == h1.fade.layers[j]
    {
      var l := Locate(h.fade.layers[j]);
      UpdateLeafRoundingIdempotent(l.child, p);
      LocateIsDecomposition(h1.fade.layers[j], Located(l.hops, UpdateLeafRounding(l.child, p)));
      LocateIsDecomposition(h2.fade.layers[j], Located(l.hops, UpdateLeafRounding(l.child, p)));
    }
    Extensionality(h1, h2);
  }

  /** Scale type and focus point set one after the other are both read back. */
  lemma ScaleTypeThenFocusPoint(h: Hierarchy, s: ScaleType, f: FocusPoint)
    requires Valid(h)
    ensures SetActualImageScaleType(h, Some(s)).Ok?
    ensures SetActualImageFocusPoint(SetActualImageScaleType(h, Some(s)).value, Some(f)).Ok?
    ensures GetActualImageScaleType(SetActualImageFocusPoint(SetActualImageScaleType(h, Some(s)).value, Some(f)).value) == Some(s)
    ensures GetActualImageFocusPoint(SetActualImageFocusPoint(SetActualImageScaleType(h, Some(s)).value, Some(f)).value) == Some(f)
  {
  }

  /** An overlay slot cleared and then set holds the leaf-rounded drawable directly. */
  lemma ClearThenSetOverlay(h: Hierarchy, index: int, d: Node)
    requires Valid(h) && 0 <= index && OverlayImagesIndex + index < NumberOfLayers(h)
    requires d != Empty
    ensures SetOverlayImageAt(h, index, Empty).Ok?
    ensures SetOverlayImageAt(SetOverlayImageAt(h, index, Empty).value, index, d).Ok?
    ensures SetOverlayImageAt(SetOverlayImageAt(h, index, Empty).value, index, d).value.fade.layers[OverlayImagesIndex + index]
            == LeafRound(h.roundingParams, d)
  {
  }

  /** A hierarchy built with one overlay and no pressed-state overlay rejects overlay index 5 and keeps index 0. */
  lemma OneOverlaySlot(b: Builder, d: Node)
    requires b.overlays.Some? && |b.overlays.value| == 1 && b.pressedStateOverlay == Empty
    ensures NumberOfLayers(Build(b)) == OverlayImagesIndex + 1
    ensures SetOverlayImageAt(Build(b), 5, d) == Err(IllegalArgument)
    ensures SetOverlayImageAt(Build(b), 1, d) == Err(IllegalArgument)
    ensures SetOverlayImageAt(Build(b), 0, d).Ok?
  {
  }
}
