/**
 * The fixed slot layout of the hierarchy and the construction of its layers from a builder.
 *
 * Slot 2 holds the actual-image branch; overlays start at slot 6; slots 0, 1, 3, 4 and 5 are
 * reserved for branches this code never creates and stay empty.
 */
module Layout {
  import opened Wrappers
  import opened Drawables

  const ActualImageIndex: int := 2
  const OverlayImagesIndex: int := 6

  /** The configuration a hierarchy is built from. A null drawable is `Empty`. */
  datatype Builder = Builder(
    roundingParams: Option<RoundingParams>,
    overlays: Option<seq<Node>>,
    pressedStateOverlay: Node,
    actualImageScaleType: Option<ScaleType>,
    actualImageFocusPoint: Option<FocusPoint>,
    fadeDuration: int)

  /** Number of overlay slots: the list's length, at least one, plus one for a pressed-state overlay. */
  function NumOverlays(b: Builder): nat {
    var listed := if b.overlays.Some? then |b.overlays.value| else 1;
    var atLeastOne := if listed == 0 then 1 else listed;
    atLeastOne + (if b.pressedStateOverlay != Empty then 1 else 0)
  }

  function NumLayers(b: Builder): (n: int)
    ensures n >= OverlayImagesIndex + 1
    ensures b.overlays.None? ==>
      n == OverlayImagesIndex + 1 + (if b.pressedStateOverlay != Empty then 1 else 0)
    ensures b.overlays.Some? ==>
      n == OverlayImagesIndex + (if |b.overlays.value| == 0 then 1 else |b.overlays.value|)
           + (if b.pressedStateOverlay != Empty then 1 else 0)
  {
    OverlayImagesIndex + NumOverlays(b)
  }

  /** Where the pressed-state overlay goes: after the listed overlays, or after one reserved slot. */
  function PressedSlot(b: Builder): (j: int)
    ensures b.pressedStateOverlay != Empty ==> OverlayImagesIndex <= j < NumLayers(b)
  {
    OverlayImagesIndex + (if b.overlays.Some? then |b.overlays.value| else 1)
  }

  /** The actual-image branch: the forwarding wrapper over the transparent image, maybe scaled. */
  function ActualImageBranch(b: Builder): (n: Node)
    ensures b.actualImageScaleType.None? ==> n == Forwarding(EmptyImage)
    ensures b.actualImageScaleType.Some? ==>
      n == Scaled(b.actualImageScaleType.value, b.actualImageFocusPoint, Forwarding(EmptyImage))
  {
    MaybeWrapWithScaleType(Forwarding(EmptyImage), b.actualImageScaleType, b.actualImageFocusPoint)
  }

  /**
   * An overlay branch: leaf rounding first, then the scale-type wrapping, which is a no-op
   * because the constructor builds every overlay branch without a scale type.
   */
  function BuildBranch(p: Option<RoundingParams>, n: Node): (r: Node)
    ensures r == LeafRound(p, n)
  {
    MaybeWrapWithScaleType(LeafRound(p, n), None, None)
  }

  /** Reference layout: what slot `j` of a freshly built hierarchy holds. */
  function SlotContent(b: Builder, j: int): Node {
    if j == ActualImageIndex then ActualImageBranch(b)
    else if b.overlays.Some? && OverlayImagesIndex <= j < OverlayImagesIndex + |b.overlays.value| then
      BuildBranch(b.roundingParams, b.overlays.value[j - OverlayImagesIndex])
    else if b.pressedStateOverlay != Empty && j == PressedSlot(b) then
      BuildBranch(b.roundingParams, b.pressedStateOverlay)
    else Empty
  }

  function InitialLayers(b: Builder): seq<Node> {
    seq(NumLayers(b), j requires 0 <= j < NumLayers(b) => SlotContent(b, j))
  }

  /** Slot `j` once the actual-image branch and the first `count` listed overlays are written. */
  function FilledSoFar(b: Builder, count: int, j: int): Node
    requires b.overlays.Some? && 0 <= count <= |b.overlays.value|
  {
    if j == ActualImageIndex then ActualImageBranch(b)
    else if OverlayImagesIndex <= j < OverlayImagesIndex + count then
      BuildBranch(b.roundingParams, b.overlays.value[j - OverlayImagesIndex])
    else Empty
  }

  /** Construction of the layer array, written the way the constructor fills it. */
  method BuildLayers(b: Builder) returns (layers: seq<Node>)
    ensures |layers| == NumLayers(b)
    ensures forall j :: 0 <= j < |layers| ==> layers[j] == SlotContent(b, j)
    ensures forall j :: 0 <= j < OverlayImagesIndex && j != ActualImageIndex ==> layers[j] == Empty
    ensures layers[ActualImageIndex] == ActualImageBranch(b)
    ensures b.overlays.Some? ==> forall k :: 0 <= k < |b.overlays.value| ==>
      layers[OverlayImagesIndex + k] == LeafRound(b.roundingParams, b.overlays.value[k])
    ensures b.pressedStateOverlay != Empty ==>
      layers[PressedSlot(b)] == LeafRound(b.roundingParams, b.pressedStateOverlay)
  {
    var numLayers := NumLayers(b);
    layers := seq(numLayers, _ => Empty);
    layers := layers[ActualImageIndex := ActualImageBranch(b)];
    if NumOverlays(b) > 0 {
      var index := 0;
      if b.overlays.Some? {
        var overlays := b.overlays.value;
        while index < |overlays|
          invariant 0 <= index <= |overlays|
          invariant |layers| == numLayers
          invariant forall j :: 0 <= j < numLayers ==> layers[j] == FilledSoFar(b, index, j)
        {
          layers := layers[OverlayImagesIndex + index := BuildBranch(b.roundingParams, overlays[index])];
          index := index + 1;
        }
      } else {
        index := 1; // one overlay slot is reserved
      }
      if b.pressedStateOverlay != Empty {
        layers := layers[OverlayImagesIndex + index := BuildBranch(b.roundingParams, b.pressedStateOverlay)];
      }
    }
  }

  /**
   * With an empty (not null) overlay list and a pressed-state overlay, the reserved slot is
   * not skipped: the pressed-state overlay takes slot 6, which is overlay index 0, and slot 7
   * stays empty.
   */
  lemma EmptyOverlayListWithPressedState(b: Builder)
    requires b.overlays == Some([]) && b.pressedStateOverlay != Empty
    ensures NumLayers(b) == OverlayImagesIndex + 2
    ensures SlotContent(b, OverlayImagesIndex) == LeafRound(b.roundingParams, b.pressedStateOverlay)
    ensures SlotContent(b, OverlayImagesIndex + 1) == Empty
  {
  }

  /** With a null overlay list, slot 6 is reserved and empty, and a pressed-state overlay takes slot 7. */
  lemma NullOverlayListReservesSlot(b: Builder)
    requires b.overlays.None?
    ensures SlotContent(b, OverlayImagesIndex) == Empty
    ensures b.pressedStateOverlay != Empty ==>
      SlotContent(b, OverlayImagesIndex + 1) == LeafRound(b.roundingParams, b.pressedStateOverlay)
  {
  }
}
