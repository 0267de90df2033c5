# Drawee hierarchy — a Dafny model

This project models the layered image hierarchy of a simplified Fresco drawee
(`GenericDraweeHierarchy`): a fade compositor holding a fixed array of layer slots, an
actual-image slot whose content is swapped through a forwarding wrapper, display-state
transitions (`reset`, `setImage`, `setFailure`, `setRetry`) expressed as batched fade
requests, a parent locator that walks a slot's decorator chain, and the setters built on it
(overlay images, actual-image scale type and focus point, rounding params, fade duration).

Everything is a pure function over immutable values:

- `Drawables` — the node datatype (`Empty` for a null child, `EmptyImage` for the
  hierarchy's private transparent drawable, `Leaf` for caller drawables, and the `Matrix`,
  `Scaled`, `Rounded`, `Forwarding` decorators), scale types, focus points, rounding params,
  and stand-ins for the wrapping helpers (see "Stand-ins" below).
- `Fade` — the compositor: layer contents, a per-layer requested on/off target, a batch
  depth, a "settled" flag (the transition was finished immediately and no request followed)
  and the transition duration. Requests are data (`Request`), run in order by `Run`, and a
  reference semantics is proved: each layer ends at the target set by the last request that
  touches it (`RunLayerOn`), the settled flag is decided by the last request that decides it
  (`RunSettled`), and a single batch leaves the batch depth unchanged (`RunBatchDepth`,
  `SingleBatchBalanced`).
- `Locator` — the parent locator as a decomposition of a slot's node into the decorator hops
  taken plus the child under the located parent; `Plug` rebuilds the node.
- `Layout` — slot constants (actual image at 2, overlays from 6), the builder configuration,
  the layer count and the construction of the layer array.
- `DraweeHierarchy` — the hierarchy state, its invariant `Valid`, the fade scripts, the
  state transitions and the setters and getters.
- `HierarchyProperties` — lemmas relating several operations.

`Valid(h)` is the object invariant every built hierarchy has and every operation keeps: at
least seven slots, no batch left open, slots 0, 1, 3, 4 and 5 empty, and the located child of
slot 2 being the forwarding wrapper. The operations require it in place of the Java object's
construction history.

`setFailure`/`setRetry` fade out only layer 2, because no placeholder, failure, retry or
progress branch is ever created (those slots stay reserved and empty). The locator unwraps at
most one matrix node and then at most one scale-type node; it does not loop. An out-of-range
overlay index fails with an illegal-argument error, the `checkArgument` precondition.

## Stand-ins

The compositor, the decorator drawables and the wrapping helpers are not part of this model;
their bodies here are minimal stand-ins and the hierarchy's properties are stated in terms of
them: `LeafRound` wraps a `Leaf` in `Rounded` when the params ask for per-leaf (bitmap)
rounding and returns anything else unchanged, so it does not look below a decorated caller drawable such as `Forwarding(Leaf(1))`, whereas `UpdateLeafRounding` does (a later `setRoundingParams` with the same params then rounds that leaf); `MaybeWrapWithScaleType` adds a scale-type node
for a non-null drawable and scale type; `OverlayRoundingFor` gives the composite rounding
wrapper exactly for overlay-colour params; `UpdateLeafRounding` walks down through matrix,
scale-type and forwarding nodes to the leaf position, updates a rounded leaf in place (reset
to neutral params when leaf rounding is off) and rounds a bare leaf when it is on;
`NewCompositor` starts with every layer off.

## Model

| member | source | states |
|---|---|---|
| Layout.NumLayers | drawee/src/main/java/com/facebook/drawee/generic/GenericDraweeHierarchy.java:107-118 | the layer count is 6 plus the overlay count (at least one, 1 for a null list) plus one for a pressed-state overlay, so at least 7 |
| Layout.PressedSlot | drawee/src/main/java/com/facebook/drawee/generic/GenericDraweeHierarchy.java:129-140 | the pressed-state overlay's slot lies among the overlay slots, inside the layer array |
| Layout.ActualImageBranch | drawee/src/main/java/com/facebook/drawee/generic/GenericDraweeHierarchy.java:122-127 | slot 2 is the forwarding wrapper over the transparent image, under a scale-type node exactly when a scale type is configured |
| Layout.BuildBranch | drawee/src/main/java/com/facebook/drawee/generic/GenericDraweeHierarchy.java:172-179 | an overlay branch (always built without a scale type) is the leaf-rounded drawable |
| Layout.BuildLayers | drawee/src/main/java/com/facebook/drawee/generic/GenericDraweeHierarchy.java:117-141 | the constructor's array has the computed length, slots 0, 1, 3, 4, 5 empty, the actual branch at 2, listed overlay k at 6+k and the pressed-state overlay at its slot, matching the reference layout at every index |
| Layout.EmptyOverlayListWithPressedState | drawee/src/main/java/com/facebook/drawee/generic/GenericDraweeHierarchy.java:107-140 | with an empty overlay list and a pressed-state overlay there are 8 slots, the pressed-state overlay takes slot 6 and slot 7 stays empty |
| Layout.NullOverlayListReservesSlot | drawee/src/main/java/com/facebook/drawee/generic/GenericDraweeHierarchy.java:129-140 | with a null overlay list slot 6 is reserved empty and a pressed-state overlay takes slot 7 |
| Locator.UnwrapScaleType | drawee/src/main/java/com/facebook/drawee/generic/GenericDraweeHierarchy.java:281-283 | the second step unwraps at most one scale-type node and rebuilds to its input |
| Locator.Locate | drawee/src/main/java/com/facebook/drawee/generic/GenericDraweeHierarchy.java:276-285 | the located parent decomposes the slot's node (hops plus child rebuild it), at most one matrix then at most one scale-type hop, stopping at any other node; the parent is a scale-type node exactly when the slot holds a scale-type node or a matrix over one |
| Locator.LocatePlug | drawee/src/main/java/com/facebook/drawee/generic/GenericDraweeHierarchy.java:276-285 | rebuilding from hops at which the walk stops and locating again gives back the same hops and child |
| Locator.LocateIsDecomposition | drawee/src/main/java/com/facebook/drawee/generic/GenericDraweeHierarchy.java:276-285 | the locator's result is the unique stopping decomposition of the slot's node |
| Locator.ReplaceChild | drawee/src/main/java/com/facebook/drawee/generic/GenericDraweeHierarchy.java:297 | the new node is the same decorator hops rebuilt over the new child, whatever that child is; when the walk stops there the locator finds exactly those hops and child, and a scale-type parent is always kept |
| Locator.EnsureScaleType | drawee/src/main/java/com/facebook/drawee/generic/GenericDraweeHierarchy.java:305-312 | afterwards the located parent is a scale-type node over the unchanged child; an existing one is kept as is, otherwise a FIT_XY node without focus point is inserted below the previous parent |
| Locator.UpdateLocatedScaleType | drawee/src/main/java/com/facebook/drawee/generic/GenericDraweeHierarchy.java:332-342 | the located scale-type node gets the new type and focus point; the hops above it and the child below it are unchanged |
| DraweeHierarchy.ResetFadeScript | drawee/src/main/java/com/facebook/drawee/generic/GenericDraweeHierarchy.java:185-199 | reset's fade requests form one batch within the layers; the last request touching each layer is a fade-out exactly for layer 2 (a fade-in for every other layer), and the last request deciding the settled flag is the immediate finish |
| DraweeHierarchy.ResetFade | drawee/src/main/java/com/facebook/drawee/generic/GenericDraweeHierarchy.java:185-195 | afterwards every layer is requested on except layer 2, the transition is settled and the batch depth is back where it was |
| DraweeHierarchy.SetImageScript | drawee/src/main/java/com/facebook/drawee/generic/GenericDraweeHierarchy.java:227-239 | setImage's requests form one batch touching only layer 2, fading it out before the final fade-in; the last request deciding the settled flag is the immediate finish exactly when immediate |
| DraweeHierarchy.ShowActualImage | drawee/src/main/java/com/facebook/drawee/generic/GenericDraweeHierarchy.java:232-238 | layer 2 ends requested on, every other layer keeps its request, settled exactly when immediate, batch depth restored |
| DraweeHierarchy.FailureScript | drawee/src/main/java/com/facebook/drawee/generic/GenericDraweeHierarchy.java:243-254 | failure's requests form one batch whose last request touching layer 2 is its fade-out, touching no other layer and never finishing the transition |
| DraweeHierarchy.HideActualImage | drawee/src/main/java/com/facebook/drawee/generic/GenericDraweeHierarchy.java:243-254 | layer 2 ends requested off, every other layer keeps its request, the transition is pending, batch depth restored |
| DraweeHierarchy.Build | drawee/src/main/java/com/facebook/drawee/generic/GenericDraweeHierarchy.java:98-159 | a built hierarchy is valid, has the reference layout, shows no image, has the initial fade pattern, the configured duration and rounding, and a composite rounding wrapper exactly for overlay-colour rounding, carrying the builder's params |
| DraweeHierarchy.WithActualTarget | drawee/src/main/java/com/facebook/drawee/generic/GenericDraweeHierarchy.java:181-183 | the wrapper forwards to the new target; the decorators above it, the other slots and the fade state are unchanged |
| DraweeHierarchy.Reset | drawee/src/main/java/com/facebook/drawee/generic/GenericDraweeHierarchy.java:221-225 | afterwards there is no image and the initial fade pattern holds; nothing outside the wrapper's target changes |
| DraweeHierarchy.SetImage | drawee/src/main/java/com/facebook/drawee/generic/GenericDraweeHierarchy.java:227-239 | fails with a null-pointer error exactly for a null drawable; otherwise the wrapper forwards to the leaf-rounded drawable, layer 2 is requested on, the others keep their requests, settled exactly when immediate, nothing else changes |
| DraweeHierarchy.SetFailure | drawee/src/main/java/com/facebook/drawee/generic/GenericDraweeHierarchy.java:242-247 | layer contents and the wrapper's target are unchanged, layer 2 is requested off, the others keep their requests |
| DraweeHierarchy.SetRetry | drawee/src/main/java/com/facebook/drawee/generic/GenericDraweeHierarchy.java:249-254 | retry is exactly the failure transition |
| DraweeHierarchy.HasScaleTypeShape | drawee/src/main/java/com/facebook/drawee/generic/GenericDraweeHierarchy.java:314-318 | a slot has a scale-type node exactly when it holds one directly or under a matrix node |
| DraweeHierarchy.SetChildAt | drawee/src/main/java/com/facebook/drawee/generic/GenericDraweeHierarchy.java:287-298 | only slot i changes; a null drawable empties the slot so it has no scale type; otherwise the slot is its old decorator hops rebuilt over the leaf-rounded drawable, so a scale-type node is kept |
| DraweeHierarchy.SetFadeDuration | drawee/src/main/java/com/facebook/drawee/generic/GenericDraweeHierarchy.java:322-330 | the fade duration reads back as set; layers and fade requests are unchanged |
| DraweeHierarchy.GetActualImageScaleType | drawee/src/main/java/com/facebook/drawee/generic/GenericDraweeHierarchy.java:344-349 | a scale type is returned exactly when the actual-image slot has a scale-type node, and it is that located node's type |
| DraweeHierarchy.GetActualImageFocusPoint | drawee/src/main/java/com/facebook/drawee/generic/GenericDraweeHierarchy.java:351-356 | no focus point is returned without a scale-type node; otherwise it is the located scale-type node's focus point |
| DraweeHierarchy.SetActualImageScaleType | drawee/src/main/java/com/facebook/drawee/generic/GenericDraweeHierarchy.java:338-342 | a null scale type fails before any change; otherwise slot 2 is its hops above the scale-type node (all its hops when there was none) plus one scale node with the new type and the old focus point, over the unchanged child, so the type reads back as set; every other slot is kept; fade requests, duration and both rounding settings are unchanged |
| DraweeHierarchy.SetActualImageFocusPoint | drawee/src/main/java/com/facebook/drawee/generic/GenericDraweeHierarchy.java:332-336 | a null focus point fails before any change; otherwise slot 2 is its hops above the scale-type node (all its hops when there was none) plus one scale node with the new focus point, over the unchanged child; the scale type is kept, or is FIT_XY when the node was inserted; every other slot is kept; fade requests, duration and both rounding settings are unchanged |
| DraweeHierarchy.SetOverlayImageAt | drawee/src/main/java/com/facebook/drawee/generic/GenericDraweeHierarchy.java:369-382 | fails with an illegal-argument error exactly when the index is negative or 6 plus it is not a slot; otherwise only slot 6+index changes: cleared with no scale type for null, otherwise the leaf-rounded drawable replaces the located parent's child and an existing scale-type node is kept; fade requests, duration and both rounding settings are unchanged |
| DraweeHierarchy.SetOverlayImage | drawee/src/main/java/com/facebook/drawee/generic/GenericDraweeHierarchy.java:384-387 | the same as setting overlay 0, which never fails |
| DraweeHierarchy.RoundAtParent | drawee/src/main/java/com/facebook/drawee/generic/GenericDraweeHierarchy.java:393-395 | updating rounding under a slot's located parent keeps the hops and leaves the leaf position reflecting the params |
| DraweeHierarchy.SetRoundingParams | drawee/src/main/java/com/facebook/drawee/generic/GenericDraweeHierarchy.java:389-402 | the params read back as set; a composite wrapper exists exactly for overlay-colour params; every slot keeps its decorator hops and its located child is that child with the leaf rounding updated, so its leaf reflects the params; fade requests and duration are unchanged, and so is whether an image is set |
| HierarchyProperties.ResetIdempotent | drawee/src/main/java/com/facebook/drawee/generic/GenericDraweeHierarchy.java:221-225 | resetting twice gives the same state as resetting once |
| HierarchyProperties.BuildIsReset | drawee/src/main/java/com/facebook/drawee/generic/GenericDraweeHierarchy.java:181-225 | a freshly built hierarchy is already in its reset state |
| HierarchyProperties.ResetAfterSetImage | drawee/src/main/java/com/facebook/drawee/generic/GenericDraweeHierarchy.java:221-239 | reset after setting any image gives the same state as reset without it |
| HierarchyProperties.ResetAfterFailure | drawee/src/main/java/com/facebook/drawee/generic/GenericDraweeHierarchy.java:221-247 | reset after a failure gives the same state as reset without it |
| HierarchyProperties.FailureIsRetry | drawee/src/main/java/com/facebook/drawee/generic/GenericDraweeHierarchy.java:242-254 | failure and retry give the same state whatever the throwables |
| HierarchyProperties.SetImageIgnoresProgress | drawee/src/main/java/com/facebook/drawee/generic/GenericDraweeHierarchy.java:227-239 | the progress argument has no effect |
| HierarchyProperties.SetImageHasImage | drawee/src/main/java/com/facebook/drawee/generic/GenericDraweeHierarchy.java:404-407 | after setImage with any caller drawable, hasImage holds |
| HierarchyProperties.SetRoundingParamsIdempotent | drawee/src/main/java/com/facebook/drawee/generic/GenericDraweeHierarchy.java:389-396 | setting the same rounding params twice gives the same state as once |
| HierarchyProperties.ScaleTypeThenFocusPoint | drawee/src/main/java/com/facebook/drawee/generic/GenericDraweeHierarchy.java:332-356 | after setting a scale type and then a focus point both read back |
| HierarchyProperties.ClearThenSetOverlay | drawee/src/main/java/com/facebook/drawee/generic/GenericDraweeHierarchy.java:287-298 | an overlay slot cleared and then set holds exactly the leaf-rounded drawable |
| HierarchyProperties.OneOverlaySlot | drawee/src/main/java/com/facebook/drawee/generic/GenericDraweeHierarchy.java:376-382 | with one listed overlay and no pressed-state overlay there are 7 slots, overlay indices 1 and 5 are rejected and index 0 is accepted |

## Left out

- The compositor's alpha interpolation, animation timing, invalidation and fade listener (`setOnFadeListener`, drawee/src/main/java/com/facebook/drawee/generic/GenericDraweeHierarchy.java:409-411): time- and float-driven, and the compositor is not part of this model; only requested targets, batch depth, the settled flag and the duration are kept.
- `setControllerOverlay`, `getBounds`, `getTopLevelDrawable` and the root drawable (drawee/src/main/java/com/facebook/drawee/generic/GenericDraweeHierarchy.java:216-219, 256-264): rendering pass-throughs.
- Colour filters (`setActualImageColorFilter`, the builder's actual-image colour filter) and `getActualImageBounds` (drawee/src/main/java/com/facebook/drawee/generic/GenericDraweeHierarchy.java:127, 167, 358-366): graphics state that no other operation reads.
- The resources handle, `mutate()` calls and tracing sections (drawee/src/main/java/com/facebook/drawee/generic/GenericDraweeHierarchy.java:99-102, 153, 156-158, 230): no observable effect on the modelled state.
- The compositor's state before the constructor's reset: it is fully overwritten by the reset except the duration, which is set just before.
- The null-pointer failure documented for `getScaleTypeDrawableAtIndex` on an empty slot (drawee/src/main/java/com/facebook/drawee/generic/GenericDraweeHierarchy.java:301-303): the method is only used on slot 2, which always holds the wrapper.
- DraweeHierarchy.SetRoundingParams: the promise `HasImage(h') == HasImage(h)` rests on the stand-in `LeafRound`, which leaves the private transparent image unrounded; that image is a colour drawable (drawee/src/main/java/com/facebook/drawee/generic/GenericDraweeHierarchy.java:89), and whether the real leaf-rounding helper wraps it is not part of this model.
- DraweeHierarchy.SetOverlayImageAt: Java's `OVERLAY_IMAGES_INDEX + index` (drawee/src/main/java/com/facebook/drawee/generic/GenericDraweeHierarchy.java:377-381) is 32-bit arithmetic, so an index of `Integer.MAX_VALUE - 5` or more wraps to a negative slot that passes the check; the model's unbounded `int` rejects such an index with `IllegalArgument`, and what the compositor then does with a negative slot is not part of this model.
- The view, the global image-loader supplier and the attribute inflater: view plumbing, process-wide state, and inflation with hard-coded inputs whose only branch is unreachable.
