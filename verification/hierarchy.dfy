/**
 * The drawee hierarchy: a fade compositor whose slot 2 holds the actual-image branch, ending
 * in a forwarding wrapper whose target is the displayed image, with state transitions driven
 * as batched fade requests and setters that rewrite decorator chains through the locator.
 */
module DraweeHierarchy {
  import opened Wrappers
  import opened Drawables
  import opened Fade
  import opened Locator
  import opened Layout

  /** The error passed to failure and retry; opaque and ignored. */
  datatype Throwable = Throwable(message: string)

  /**
   * The hierarchy's state: the compositor with its layers, the current rounding params, and
   * the params of the composite-level rounding wrapper (None when there is no such wrapper).
   */
  datatype Hierarchy = Hierarchy(
    fade: Compositor,
    roundingParams: Option<RoundingParams>,
    overlayRounding: Option<RoundingParams>)

  /**
   * What every reachable hierarchy satisfies: at least seven slots, no batch left open, the
   * reserved slots empty, and the actual-image slot's located child being the forwarding wrapper.
   */
  predicate Valid(h: Hierarchy) {
    && Wf(h.fade)
    && |h.fade.layers| > OverlayImagesIndex
    && h.fade.batchDepth == 0
    && (forall j :: 0 <= j < OverlayImagesIndex && j != ActualImageIndex ==> h.fade.layers[j] == Empty)
    && Locate(h.fade.layers[ActualImageIndex]).child.Forwarding?
  }

  function NumberOfLayers(h: Hierarchy): int {
    |h.fade.layers|
  }

  /** What the actual-image wrapper forwards to. */
  function ActualTarget(h: Hierarchy): Node
    requires Valid(h)
  {
    Locate(h.fade.layers[ActualImageIndex]).child.child
  }

  /** An image is set when the wrapper forwards to anything but the private transparent image. */
  predicate HasImage(h: Hierarchy)
    requires Valid(h)
  {
    ActualTarget(h) != EmptyImage
  }

  /** The fade pattern of a freshly reset hierarchy: everything on but the actual image, settled. */
  predicate InitialFade(h: Hierarchy) {
    && Wf(h.fade)
    && (forall j :: 0 <= j < |h.fade.layerOn| ==> h.fade.layerOn[j] == (j != ActualImageIndex))
    && h.fade.settled
    && h.fade.batchDepth == 0
  }

  /** Nothing but the target of the actual-image wrapper and the fade state differs. */
  predicate SameOutsideActualTarget(h: Hierarchy, h': Hierarchy)
    requires Valid(h) && Valid(h')
  {
    && |h'.fade.layers| == |h.fade.layers|
    && (forall j :: 0 <= j < |h.fade.layers| && j != ActualImageIndex ==> h'.fade.layers[j] == h.fade.layers[j])
    && Locate(h'.fade.layers[ActualImageIndex]).hops == Locate(h.fade.layers[ActualImageIndex]).hops
    && h'.fade.duration == h.fade.duration
    && h'.roundingParams == h.roundingParams
    && h'.overlayRounding == h.overlayRounding
  }

  // ---------------------------------------------------------------------------------------
  // Fade request scripts

  /** Fade a layer in, ignoring negative indices. */
  function FadeInIfValid(i: int): seq<Request> {
    if i >= 0 then [FadeInLayer(i)] else []
  }

  /** Fade a layer out, ignoring negative indices. */
  function FadeOutIfValid(i: int): seq<Request> {
    if i >= 0 then [FadeOutLayer(i)] else []
  }

  /** Fading out the branches means fading out the actual image layer. */
  function FadeOutBranches(): seq<Request> {
    FadeOutIfValid(ActualImageIndex)
  }

  function ResetFadeScript(): (s: seq<Request>)
    ensures SingleBatch(s)
    ensures forall n :: n > ActualImageIndex ==> ScriptInRange(s, n)
    ensures forall j :: LastTouch(s, j) >= 0 && (s[LastTouch(s, j)].FadeOutLayer? <==> j == ActualImageIndex)
    ensures LastSettling(s) >= 0 && s[LastSettling(s)] == FinishTransitionImmediately
  {
    var s := [BeginBatch, FadeInAllLayers] + FadeOutBranches() + [FinishTransitionImmediately, EndBatch];
    assert s == [BeginBatch, FadeInAllLayers, FadeOutLayer(2), FinishTransitionImmediately, EndBatch];
    assert forall j :: LastTouch(s, j) == if j == ActualImageIndex then 2 else 1 by {
      forall j ensures LastTouch(s, j) == if j == ActualImageIndex then 2 else 1 {
        assert s[..4][..3] == s[..3] && s[..3][..2] == s[..2];
        assert LastTouch(s, j) == LastTouch(s[..4], j) == LastTouch(s[..3], j);
        assert j != ActualImageIndex ==> LastTouch(s[..3], j) == LastTouch(s[..2], j) == 1;
      }
    }
    s
  }

  function SetImageScript(immediate: bool): (s: seq<Request>)
    ensures SingleBatch(s)
    ensures forall n :: n > ActualImageIndex ==> ScriptInRange(s, n)
    ensures forall k :: 0 <= k < |s| ==> !s[k].FadeInAllLayers?
    ensures forall k :: 0 <= k < |s| && (s[k].FadeInLayer? || s[k].FadeOutLayer?) ==> s[k].index == ActualImageIndex
    ensures FinishTransitionImmediately in s <==> immediate
    ensures LastTouch(s, ActualImageIndex) >= 0
    ensures s[LastTouch(s, ActualImageIndex)] == FadeInLayer(ActualImageIndex)
    ensures FadeOutLayer(ActualImageIndex) in s[..LastTouch(s, ActualImageIndex)]
    ensures LastSettling(s) >= 0 && (s[LastSettling(s)].FinishTransitionImmediately? <==> immediate)
  {
    var s := [BeginBatch] + FadeOutBranches() + FadeInIfValid(ActualImageIndex)
             + (if immediate then [FinishTransitionImmediately] else []) + [EndBatch];
    assert immediate ==> s == [BeginBatch, FadeOutLayer(2), FadeInLayer(2), FinishTransitionImmediately, EndBatch];
    assert !immediate ==> s == [BeginBatch, FadeOutLayer(2), FadeInLayer(2), EndBatch];
    assert Touches(s[2], ActualImageIndex);
    assert forall m :: 2 < m < |s| ==> !Touches(s[m], ActualImageIndex);
    assert LastTouch(s, ActualImageIndex) == 2;
    assert s[..2][1] == FadeOutLayer(2);
    s
  }

  function FailureScript(): (s: seq<Request>)
    ensures SingleBatch(s)
    ensures forall n :: n > ActualImageIndex ==> ScriptInRange(s, n)
    ensures forall k :: 0 <= k < |s| ==> !s[k].FadeInAllLayers? && !s[k].FadeInLayer?
    ensures forall k :: 0 <= k < |s| && s[k].FadeOutLayer? ==> s[k].index == ActualImageIndex
    ensures LastTouch(s, ActualImageIndex) >= 0 && s[LastTouch(s, ActualImageIndex)] == FadeOutLayer(ActualImageIndex)
    ensures FinishTransitionImmediately !in s
  {
    [BeginBatch] + FadeOutBranches() + [EndBatch]
  }

  /** Turn every layer on, the actual image off, and finish at once, in one batch. */
  function ResetFade(c: Compositor): (c': Compositor)
    requires Wf(c) && |c.layerOn| > ActualImageIndex
    ensures Wf(c') && c'.layers == c.layers && c'.duration == c.duration
    ensures c'.batchDepth == c.batchDepth
    ensures forall j :: 0 <= j < |c'.layerOn| ==> c'.layerOn[j] == (j != ActualImageIndex)
    ensures c'.settled
  {
    var s := ResetFadeScript();
    assert ScriptInRange(s, |c.layerOn|);
    RunBatchDepth(c, s);
    SingleBatchBalanced(s);
    RunSettled(c, s);
    assert forall j :: 0 <= j < |c.layerOn| ==> Run(c, s).layerOn[j] == (j != ActualImageIndex) by {
      forall j | 0 <= j < |c.layerOn|
        ensures Run(c, s).layerOn[j] == (j != ActualImageIndex)
      {
        RunLayerOn(c, s, j);
      }
    }
    Run(c, s)
  }

  /** Fade out the branches and fade in the actual image in one batch, finishing at once if asked. */
  function ShowActualImage(c: Compositor, immediate: bool): (c': Compositor)
    requires Wf(c) && |c.layerOn| > ActualImageIndex
    ensures Wf(c') && c'.layers == c.layers && c'.duration == c.duration
    ensures c'.batchDepth == c.batchDepth
    ensures forall j :: 0 <= j < |c'.layerOn| ==> c'.layerOn[j] == (j == ActualImageIndex || c.layerOn[j])
    ensures c'.settled == immediate
  {
    var s := SetImageScript(immediate);
    assert ScriptInRange(s, |c.layerOn|);
    RunBatchDepth(c, s);
    SingleBatchBalanced(s);
    RunSettled(c, s);
    assert forall j :: 0 <= j < |c.layerOn| ==> Run(c, s).layerOn[j] == (j == ActualImageIndex || c.layerOn[j]) by {
      forall j | 0 <= j < |c.layerOn|
        ensures Run(c, s).layerOn[j] == (j == ActualImageIndex || c.layerOn[j])
      {
        RunLayerOn(c, s, j);
      }
    }
    Run(c, s)
  }

  /** Fade out the branches in one batch. */
  function HideActualImage(c: Compositor): (c': Compositor)
    requires Wf(c) && |c.layerOn| > ActualImageIndex
    ensures Wf(c') && c'.layers == c.layers && c'.duration == c.duration
    ensures c'.batchDepth == c.batchDepth
    ensures forall j :: 0 <= j < |c'.layerOn| ==> c'.layerOn[j] == (j != ActualImageIndex && c.layerOn[j])
    ensures !c'.settled
  {
    var s := FailureScript();
    assert ScriptInRange(s, |c.layerOn|);
    RunBatchDepth(c, s);
    SingleBatchBalanced(s);
    RunSettled(c, s);
    assert forall j :: 0 <= j < |c.layerOn| ==> Run(c, s).layerOn[j] == (j != ActualImageIndex && c.layerOn[j]) by {
      forall j | 0 <= j < |c.layerOn|
        ensures Run(c, s).layerOn[j] == (j != ActualImageIndex && c.layerOn[j])
      {
        RunLayerOn(c, s, j);
      }
    }
    Run(c, s)
  }

  // ---------------------------------------------------------------------------------------
  // Construction and state transitions

  /** Build the hierarchy: lay out the slots, set the duration, wrap for overlay rounding, reset the fade. */
  function Build(b: Builder): (h: Hierarchy)
    ensures Valid(h)
    ensures NumberOfLayers(h) == NumLayers(b)
    ensures forall j :: 0 <= j < NumberOfLayers(h) ==> h.fade.layers[j] == SlotContent(b, j)
    ensures !HasImage(h)
    ensures InitialFade(h)
    ensures h.fade.duration == b.fadeDuration
    ensures h.roundingParams == b.roundingParams
    ensures h.overlayRounding.Some? <==> RoundsOverlay(b.roundingParams)
    ensures h.overlayRounding.Some? ==> h.overlayRounding == b.roundingParams
  {
    var layers := InitialLayers(b);
    var fade := SetTransitionDuration(NewCompositor(layers), b.fadeDuration);
    var h := Hierarchy(fade, b.roundingParams, OverlayRoundingFor(b.roundingParams));
    h.(fade := ResetFade(h.fade))
  }

  /** Point the actual-image wrapper at `t`, keeping the decorators above it. */
  function WithActualTarget(h: Hierarchy, t: Node): (h': Hierarchy)
    requires Valid(h)
    ensures Valid(h') && ActualTarget(h') == t
    ensures SameOutsideActualTarget(h, h')
    ensures h'.fade.layerOn == h.fade.layerOn && h'.fade.settled == h.fade.settled
  {
    var l := Locate(h.fade.layers[ActualImageIndex]);
    LocatePlug(Located(l.hops, Forwarding(t)));
    h.(fade := SetDrawable(h.fade, ActualImageIndex, Plug(l.hops, Forwarding(t))))
  }

  /** Forget the image and return to the initial fade pattern at once. */
  function Reset(h: Hierarchy): (h': Hierarchy)
    requires Valid(h)
    ensures Valid(h') && !HasImage(h') && InitialFade(h')
    ensures SameOutsideActualTarget(h, h')
  {
    var h1 := WithActualTarget(h, EmptyImage);
    h1.(fade := ResetFade(h1.fade))
  }

  /**
   * Show `d` (leaf-rounded) as the actual image: fade the branches out and the actual image
   * in, in one batch, finishing at once when `immediate`. Progress is ignored. A null image
   * fails before anything changes.
   */
  function SetImage(h: Hierarchy, d: Node, progress: real, immediate: bool): (r: Result<Hierarchy>)
    requires Valid(h)
    ensures r.Err? <==> d == Empty
    ensures r.Err? ==> r.error == NullPointer
    ensures r.Ok? ==> Valid(r.value) && SameOutsideActualTarget(h, r.value)
    ensures r.Ok? ==> ActualTarget(r.value) == LeafRound(h.roundingParams, d)
    ensures r.Ok? ==> forall j :: 0 <= j < NumberOfLayers(h) ==>
      r.value.fade.layerOn[j] == (j == ActualImageIndex || h.fade.layerOn[j])
    ensures r.Ok? ==> r.value.fade.settled == immediate
  {
    var rounded := LeafRound(h.roundingParams, d);
    if rounded == Empty then Err(NullPointer)
    else
      var h1 := WithActualTarget(h, rounded);
      Ok(h1.(fade := ShowActualImage(h1.fade, immediate)))
  }

  /** Show failure: fade out the branches in one batch; the throwable is ignored. */
  function SetFailure(h: Hierarchy, throwable: Throwable): (h': Hierarchy)
    requires Valid(h)
    ensures Valid(h') && h'.fade.layers == h.fade.layers && ActualTarget(h') == ActualTarget(h)
    ensures SameOutsideActualTarget(h, h')
    ensures forall j :: 0 <= j < NumberOfLayers(h) ==>
      h'.fade.layerOn[j] == (j != ActualImageIndex && h.fade.layerOn[j])
    ensures !h'.fade.settled
  {
    h.(fade := HideActualImage(h.fade))
  }

  /** Show retry: exactly the transition of failure; the throwable is ignored. */
  function SetRetry(h: Hierarchy, throwable: Throwable): (h': Hierarchy)
    requires Valid(h)
    ensures Valid(h')
    ensures h' == SetFailure(h, throwable)
  {
    h.(fade := HideActualImage(h.fade))
  }

  // ---------------------------------------------------------------------------------------
  // Layer access through the locator

  /** Does the located parent of slot `i` have a scale-type node? */
  predicate HasScaleTypeAt(h: Hierarchy, i: int)
    requires 0 <= i < |h.fade.layers|
  {
    ParentIsScaleType(Locate(h.fade.layers[i]))
  }

  /** A slot has a scale-type node exactly when it holds one directly or under a matrix node. */
  lemma HasScaleTypeShape(h: Hierarchy, i: int)
    requires 0 <= i < |h.fade.layers|
    ensures HasScaleTypeAt(h, i) <==>
      h.fade.layers[i].Scaled? || (h.fade.layers[i].Matrix? && h.fade.layers[i].child.Scaled?)
  {
  }

  /**
   * Set the content of slot `i` keeping its scale type and rounding: a null drawable clears
   * the whole slot, anything else is leaf-rounded and becomes the located parent's child.
   */
  function SetChildAt(h: Hierarchy, i: int, d: Node): (h': Hierarchy)
    requires Wf(h.fade) && 0 <= i < |h.fade.layers|
    ensures Wf(h'.fade) && |h'.fade.layers| == |h.fade.layers|
    ensures forall j :: 0 <= j < |h.fade.layers| && j != i ==> h'.fade.layers[j] == h.fade.layers[j]
    ensures h'.fade.layerOn == h.fade.layerOn && h'.fade.settled == h.fade.settled
    ensures h'.fade.batchDepth == h.fade.batchDepth && h'.fade.duration == h.fade.duration
    ensures h'.roundingParams == h.roundingParams && h'.overlayRounding == h.overlayRounding
    ensures d == Empty ==> h'.fade.layers[i] == Empty && !HasScaleTypeAt(h', i)
    ensures d != Empty ==> h'.fade.layers[i] == Plug(Locate(h.fade.layers[i]).hops, LeafRound(h.roundingParams, d))
    ensures d != Empty && HasScaleTypeAt(h, i) ==>
      && HasScaleTypeAt(h', i)
      && Locate(h'.fade.layers[i]).hops == Locate(h.fade.layers[i]).hops
      && Locate(h'.fade.layers[i]).child == LeafRound(h.roundingParams, d)
    ensures d != Empty && Stops(Located(Locate(h.fade.layers[i]).hops, LeafRound(h.roundingParams, d))) ==>
      Locate(h'.fade.layers[i]) == Located(Locate(h.fade.layers[i]).hops, LeafRound(h.roundingParams, d))
  {
    if d == Empty then
      h.(fade := SetDrawable(h.fade, i, Empty))
    else
      var rounded := LeafRound(h.roundingParams, d);
      h.(fade := SetDrawable(h.fade, i, ReplaceChild(h.fade.layers[i], rounded)))
  }

  // ---------------------------------------------------------------------------------------
  // Mutation

  function SetFadeDuration(h: Hierarchy, durationMs: int): (h': Hierarchy)
    requires Valid(h)
    ensures Valid(h') && GetFadeDuration(h') == durationMs
    ensures h'.fade.layers == h.fade.layers && h'.fade.layerOn == h.fade.layerOn
    ensures h'.fade.settled == h.fade.settled
    ensures h'.roundingParams == h.roundingParams && h'.overlayRounding == h.overlayRounding
  {
    h.(fade := SetTransitionDuration(h.fade, durationMs))
  }

  function GetFadeDuration(h: Hierarchy): int {
    h.fade.duration
  }

  /** The scale type of the actual image, or None when its branch has no scale-type node. */
  function GetActualImageScaleType(h: Hierarchy): (s: Option<ScaleType>)
    requires Valid(h)
    ensures s.Some? <==> HasScaleTypeAt(h, ActualImageIndex)
    ensures s.Some? ==> s.value == LocatedScaleHop(h.fade.layers[ActualImageIndex]).scaleType
  {
    if !HasScaleTypeAt(h, ActualImageIndex) then None
    else Some(LocatedScaleHop(EnsureScaleType(h.fade.layers[ActualImageIndex])).scaleType)
  }

  /** The focus point of the actual image, or None when there is no scale-type node or no focus point. */
  function GetActualImageFocusPoint(h: Hierarchy): (f: Option<FocusPoint>)
    requires Valid(h)
    ensures !HasScaleTypeAt(h, ActualImageIndex) ==> f.None?
    ensures HasScaleTypeAt(h, ActualImageIndex) ==> f == LocatedScaleHop(h.fade.layers[ActualImageIndex]).focusPoint
  {
    if !HasScaleTypeAt(h, ActualImageIndex) then None
    else LocatedScaleHop(EnsureScaleType(h.fade.layers[ActualImageIndex])).focusPoint
  }

  /**
   * Set the actual image's scale type, inserting a scale-type node above the wrapper if there
   * is none. A null scale type fails before anything changes.
   */
  function SetActualImageScaleType(h: Hierarchy, scaleType: Option<ScaleType>): (r: Result<Hierarchy>)
    requires Valid(h)
    ensures r.Err? <==> scaleType.None?
    ensures r.Err? ==> r.error == NullPointer
    ensures r.Ok? ==> Valid(r.value) && GetActualImageScaleType(r.value) == scaleType
    ensures r.Ok? ==> GetActualImageFocusPoint(r.value) == GetActualImageFocusPoint(h)
    ensures r.Ok? ==> ActualTarget(r.value) == ActualTarget(h)
    ensures r.Ok? ==> |r.value.fade.layers| == |h.fade.layers|
    ensures r.Ok? ==> forall j :: 0 <= j < |h.fade.layers| && j != ActualImageIndex ==>
      r.value.fade.layers[j] == h.fade.layers[j]
    ensures r.Ok? ==> r.value.fade.layerOn == h.fade.layerOn && r.value.fade.settled == h.fade.settled
    ensures r.Ok? ==> r.value.roundingParams == h.roundingParams
    ensures r.Ok? ==> r.value.fade.duration == h.fade.duration && r.value.overlayRounding == h.overlayRounding
    ensures r.Ok? ==> (r.value.fade.layers[ActualImageIndex] ==
      Plug(HopsAboveScaleType(h.fade.layers[ActualImageIndex]) + [ScaleHop(scaleType.value, GetActualImageFocusPoint(h))],
           Locate(h.fade.layers[ActualImageIndex]).child))
  {
    if scaleType.None? then Err(NullPointer)
    else
      var n := EnsureScaleType(h.fade.layers[ActualImageIndex]);
      var focus := LocatedScaleHop(n).focusPoint;
      Ok(h.(fade := SetDrawable(h.fade, ActualImageIndex, UpdateLocatedScaleType(n, scaleType.value, focus))))
  }

  /**
   * Set the actual image's focus point, inserting a FIT_XY scale-type node if there is none.
   * A null focus point fails before anything changes.
   */
  function SetActualImageFocusPoint(h: Hierarchy, focusPoint: Option<FocusPoint>): (r: Result<Hierarchy>)
    requires Valid(h)
    ensures r.Err? <==> focusPoint.None?
    ensures r.Err? ==> r.error == NullPointer
    ensures r.Ok? ==> Valid(r.value) && GetActualImageFocusPoint(r.value) == focusPoint
    ensures r.Ok? ==> GetActualImageScaleType(r.value) ==
                      (if HasScaleTypeAt(h, ActualImageIndex) then GetActualImageScaleType(h) else Some(FitXY))
    ensures r.Ok? ==> ActualTarget(r.value) == ActualTarget(h)
    ensures r.Ok? ==> |r.value.fade.layers| == |h.fade.layers|
    ensures r.Ok? ==> forall j :: 0 <= j < |h.fade.layers| && j != ActualImageIndex ==>
      r.value.fade.layers[j] == h.fade.layers[j]
    ensures r.Ok? ==> r.value.fade.layerOn == h.fade.layerOn && r.value.fade.settled == h.fade.settled
    ensures r.Ok? ==> r.value.roundingParams == h.roundingParams
    ensures r.Ok? ==> r.value.fade.duration == h.fade.duration && r.value.overlayRounding == h.overlayRounding
    ensures r.Ok? ==> (r.value.fade.layers[ActualImageIndex] ==
      Plug(HopsAboveScaleType(h.fade.layers[ActualImageIndex]) + [ScaleHop(GetActualImageScaleType(r.value).value, focusPoint)],
           Locate(h.fade.layers[ActualImageIndex]).child))
  {
    if focusPoint.None? then Err(NullPointer)
    else
      var n := EnsureScaleType(h.fade.layers[ActualImageIndex]);
      var scale := LocatedScaleHop(n).scaleType;
      Ok(h.(fade := SetDrawable(h.fade, ActualImageIndex, UpdateLocatedScaleType(n, scale, focusPoint))))
  }

  /**
   * Set overlay `index`. Fails unless the index names an overlay slot; on success only slot
   * `6 + index` changes.
   */
  function SetOverlayImageAt(h: Hierarchy, index: int, d: Node): (r: Result<Hierarchy>)
    requires Valid(h)
    ensures r.Err? <==> !(index >= 0 && OverlayImagesIndex + index < NumberOfLayers(h))
    ensures r.Err? ==> r.error == IllegalArgument
    ensures r.Ok? ==> Valid(r.value) && |r.value.fade.layers| == |h.fade.layers|
    ensures r.Ok? ==> forall j :: 0 <= j < |h.fade.layers| && j != OverlayImagesIndex + index ==>
      r.value.fade.layers[j] == h.fade.layers[j]
    ensures r.Ok? ==> r.value.fade.layerOn == h.fade.layerOn && r.value.fade.settled == h.fade.settled
    ensures r.Ok? ==> r.value.roundingParams == h.roundingParams
    ensures r.Ok? ==> r.value.fade.duration == h.fade.duration && r.value.overlayRounding == h.overlayRounding
    ensures r.Ok? && d == Empty ==>
      r.value.fade.layers[OverlayImagesIndex + index] == Empty
      && !HasScaleTypeAt(r.value, OverlayImagesIndex + index)
    ensures r.Ok? && d != Empty ==>
      r.value.fade.layers[OverlayImagesIndex + index]
      == ReplaceChild(h.fade.layers[OverlayImagesIndex + index], LeafRound(h.roundingParams, d))
    ensures r.Ok? && d != Empty && HasScaleTypeAt(h, OverlayImagesIndex + index) ==>
      && HasScaleTypeAt(r.value, OverlayImagesIndex + index)
      && Locate(r.value.fade.layers[OverlayImagesIndex + index]).hops == Locate(h.fade.layers[OverlayImagesIndex + index]).hops
      && Locate(r.value.fade.layers[OverlayImagesIndex + index]).child == LeafRound(h.roundingParams, d)
  {
    if !(index >= 0 && OverlayImagesIndex + index < NumberOfLayers(h)) then Err(IllegalArgument)
    else Ok(SetChildAt(h, OverlayImagesIndex + index, d))
  }

  /** Set the first overlay; every hierarchy has one, so this never fails. */
  function SetOverlayImage(h: Hierarchy, d: Node): (r: Result<Hierarchy>)
    requires Valid(h)
    ensures r.Ok?
    ensures r == SetOverlayImageAt(h, 0, d)
  {
    SetOverlayImageAt(h, 0, d)
  }

  /** Update leaf rounding under the located parent of a slot. */
  function RoundAtParent(n: Node, p: Option<RoundingParams>): (r: Node)
    ensures Locate(r).hops == Locate(n).hops
    ensures Locate(r).child == UpdateLeafRounding(Locate(n).child, p)
    ensures ReflectsRounding(LeafBelow(r), p)
  {
    var l := Locate(n);
    var c := UpdateLeafRounding(l.child, p);
    LocatePlug(Located(l.hops, c));
    LeafBelowPlug(l.hops, c);
    Plug(l.hops, c)
  }

  /** Decorators the locator passes are transparent to the leaf position. */
  lemma {:induction false} LeafBelowPlug(hops: seq<Hop>, c: Node)
    ensures LeafBelow(Plug(hops, c)) == LeafBelow(c)
    decreases |hops|
  {
    if hops != [] {
      LeafBelowPlug(hops[1..], c);
    }
  }

  /**
   * Set the rounding params: update the composite rounding wrapper and then the leaf rounding
   * under the located parent of every slot. Fade state and decorator chains are untouched.
   */
  function SetRoundingParams(h: Hierarchy, p: Option<RoundingParams>): (h': Hierarchy)
    requires Valid(h)
    ensures Valid(h') && GetRoundingParams(h') == p
    ensures h'.overlayRounding.Some? <==> RoundsOverlay(p)
    ensures h'.overlayRounding.Some? ==> h'.overlayRounding == p
    ensures h'.fade.layerOn == h.fade.layerOn && h'.fade.settled == h.fade.settled
    ensures h'.fade.duration == h.fade.duration
    ensures |h'.fade.layers| == |h.fade.layers|
    ensures forall i :: 0 <= i < |h.fade.layers| ==>
      Locate(h'.fade.layers[i]).hops == Locate(h.fade.layers[i]).hops
    ensures forall i :: 0 <= i < |h.fade.layers| ==>
      Locate(h'.fade.layers[i]).child == UpdateLeafRounding(Locate(h.fade.layers[i]).child, p)
    ensures forall i :: 0 <= i < |h.fade.layers| ==> ReflectsRounding(LeafBelow(h'.fade.layers[i]), p)
    ensures HasImage(h') == HasImage(h)
  {
    var n := |h.fade.layers|;
    var layers := seq(n, i requires 0 <= i < n => RoundAtParent(h.fade.layers[i], p));
    h.(roundingParams := p, overlayRounding := OverlayRoundingFor(p), fade := h.fade.(layers := layers))
  }

  function GetRoundingParams(h: Hierarchy): Option<RoundingParams> {
    h.roundingParams
  }
}
