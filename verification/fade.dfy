/**
 * The fade compositor: a fixed array of layer slots, each with a requested on/off state,
 * plus batch mode, a "transition settled" flag and a transition duration.
 *
 * Alpha interpolation over time is not modelled: `layerOn` is the target each layer fades
 * towards, and `settled` says whether the current targets have been reached without animation
 * (true after finishing the transition immediately, false after any new fade request).
 */
module Fade {
  import opened Drawables

  /** One call the hierarchy makes on the compositor. */
  datatype Request =
    | BeginBatch
    | EndBatch
    | FadeInLayer(index: int)
    | FadeOutLayer(index: int)
    | FadeInAllLayers
    | FinishTransitionImmediately

  datatype Compositor = Compositor(
    layers: seq<Node>,
    layerOn: seq<bool>,
    batchDepth: int,
    settled: bool,
    duration: int)

  /** One on/off entry per layer slot. */
  predicate Wf(c: Compositor) {
    |c.layers| == |c.layerOn|
  }

  /** A new compositor over `layers`: every layer off, no batch open, duration zero. */
  function NewCompositor(layers: seq<Node>): (c: Compositor)
    ensures Wf(c) && c.layers == layers && c.batchDepth == 0
  {
    Compositor(layers, seq(|layers|, _ => false), 0, true, 0)
  }

  /** Per-layer requests must name an existing layer. */
  predicate InRange(r: Request, n: int) {
    (r.FadeInLayer? || r.FadeOutLayer?) ==> 0 <= r.index < n
  }

  predicate ScriptInRange(s: seq<Request>, n: int) {
    forall k :: 0 <= k < |s| ==> InRange(s[k], n)
  }

  /** Does request `r` set the target of layer `j`? */
  predicate Touches(r: Request, j: int) {
    || (r.FadeInLayer? && r.index == j)
    || (r.FadeOutLayer? && r.index == j)
    || r.FadeInAllLayers?
  }

  /** Does request `r` decide whether the transition is settled? */
  predicate Settles(r: Request) {
    r.FadeInLayer? || r.FadeOutLayer? || r.FadeInAllLayers? || r.FinishTransitionImmediately?
  }

  /** The effect of one request. */
  function Step(c: Compositor, r: Request): (c': Compositor)
    requires Wf(c) && InRange(r, |c.layerOn|)
    ensures Wf(c') && c'.layers == c.layers && c'.duration == c.duration
    ensures |c'.layerOn| == |c.layerOn|
    ensures forall j :: 0 <= j < |c.layerOn| && !Touches(r, j) ==> c'.layerOn[j] == c.layerOn[j]
    ensures forall j :: 0 <= j < |c.layerOn| && Touches(r, j) ==> c'.layerOn[j] == !r.FadeOutLayer?
    ensures c'.settled == if Settles(r) then r.FinishTransitionImmediately? else c.settled
  {
    match r
    case BeginBatch => c.(batchDepth := c.batchDepth + 1)
    case EndBatch => c.(batchDepth := c.batchDepth - 1)
    case FadeInLayer(i) => c.(layerOn := c.layerOn[i := true], settled := false)
    case FadeOutLayer(i) => c.(layerOn := c.layerOn[i := false], settled := false)
    case FadeInAllLayers => c.(layerOn := seq(|c.layerOn|, _ => true), settled := false)
    case FinishTransitionImmediately => c.(settled := true)
  }

  /** The effect of a script of requests, issued in order. */
  function Run(c: Compositor, s: seq<Request>): (c': Compositor)
    requires Wf(c) && ScriptInRange(s, |c.layerOn|)
    ensures Wf(c') && c'.layers == c.layers && c'.duration == c.duration
    ensures |c'.layerOn| == |c.layerOn|
    decreases |s|
  {
    if s == [] then c else Run(Step(c, s[0]), s[1..])
  }

  /** Set the duration of later transitions. */
  function SetTransitionDuration(c: Compositor, ms: int): (c': Compositor)
    ensures c'.duration == ms
    ensures c'.layers == c.layers && c'.layerOn == c.layerOn
    ensures c'.batchDepth == c.batchDepth && c'.settled == c.settled
  {
    c.(duration := ms)
  }

  /** Replace the content of slot `i`; the fade state is untouched. */
  function SetDrawable(c: Compositor, i: int, n: Node): (c': Compositor)
    requires Wf(c) && 0 <= i < |c.layers|
    ensures Wf(c') && |c'.layers| == |c.layers| && c'.layers[i] == n
    ensures forall j :: 0 <= j < |c.layers| && j != i ==> c'.layers[j] == c.layers[j]
    ensures c'.layerOn == c.layerOn && c'.batchDepth == c.batchDepth
    ensures c'.settled == c.settled && c'.duration == c.duration
  {
    c.(layers := c.layers[i := n])
  }

  // ---------------------------------------------------------------------------------------
  // Reference semantics of a script: the last request wins, batches only count.

  /** Index of the last request in `s` that sets the target of layer `j`, or -1. */
  function LastTouch(s: seq<Request>, j: int): (k: int)
    ensures -1 <= k < |s|
    ensures k >= 0 ==> Touches(s[k], j)
    ensures forall m :: k < m < |s| ==> !Touches(s[m], j)
    decreases |s|
  {
    if s == [] then -1
    else if Touches(s[|s| - 1], j) then |s| - 1
    else LastTouch(s[..|s| - 1], j)
  }

  /** Index of the last request in `s` that decides the settled flag, or -1. */
  function LastSettling(s: seq<Request>): (k: int)
    ensures -1 <= k < |s|
    ensures k >= 0 ==> Settles(s[k])
    ensures forall m :: k < m < |s| ==> !Settles(s[m])
    decreases |s|
  {
    if s == [] then -1
    else if Settles(s[|s| - 1]) then |s| - 1
    else LastSettling(s[..|s| - 1])
  }

  /** Batches opened minus batches closed. */
  function BatchDelta(s: seq<Request>): int
    decreases |s|
  {
    if s == [] then 0
    else BatchDelta(s[..|s| - 1]) + (match s[|s| - 1]
                                      case BeginBatch => 1
                                      case EndBatch => -1
                                      case _ => 0)
  }

  /** A script that opens one batch first, closes it last, and opens or closes nothing between. */
  predicate SingleBatch(s: seq<Request>) {
    && |s| >= 2
    && s[0] == BeginBatch
    && s[|s| - 1] == EndBatch
    && forall k :: 0 < k < |s| - 1 ==> s[k] != BeginBatch && s[k] != EndBatch
  }

  lemma {:induction false} RunSnoc(c: Compositor, s: seq<Request>, r: Request)
    requires Wf(c) && ScriptInRange(s, |c.layerOn|) && InRange(r, |c.layerOn|)
    ensures ScriptInRange(s + [r], |c.layerOn|)
    ensures Run(c, s + [r]) == Step(Run(c, s), r)
    decreases |s|
  {
    if s != [] {
      assert (s + [r])[1..] == s[1..] + [r];
      RunSnoc(Step(c, s[0]), s[1..], r);
    }
  }

  /** A layer ends at the target its last request set, or keeps its target if none did. */
  lemma {:induction false} RunLayerOn(c: Compositor, s: seq<Request>, j: int)
    requires Wf(c) && ScriptInRange(s, |c.layerOn|) && 0 <= j < |c.layerOn|
    ensures Run(c, s).layerOn[j] ==
      if LastTouch(s, j) < 0 then c.layerOn[j] else !s[LastTouch(s, j)].FadeOutLayer?
    decreases |s|
  {
    if s != [] {
      var init := s[..|s| - 1];
      assert s == init + [s[|s| - 1]];
      assert ScriptInRange(init, |c.layerOn|);
      RunSnoc(c, init, s[|s| - 1]);
      RunLayerOn(c, init, j);
    }
  }

  /** The settled flag is decided by the last request that decides it. */
  lemma {:induction false} RunSettled(c: Compositor, s: seq<Request>)
    requires Wf(c) && ScriptInRange(s, |c.layerOn|)
    ensures Run(c, s).settled ==
      if LastSettling(s) < 0 then c.settled else s[LastSettling(s)].FinishTransitionImmediately?
    decreases |s|
  {
    if s != [] {
      var init := s[..|s| - 1];
      assert s == init + [s[|s| - 1]];
      assert ScriptInRange(init, |c.layerOn|);
      RunSnoc(c, init, s[|s| - 1]);
      RunSettled(c, init);
    }
  }

  /** The batch depth moves by the number of batches opened minus closed. */
  lemma {:induction false} RunBatchDepth(c: Compositor, s: seq<Request>)
    requires Wf(c) && ScriptInRange(s, |c.layerOn|)
    ensures Run(c, s).batchDepth == c.batchDepth + BatchDelta(s)
    decreases |s|
  {
    if s != [] {
      var init := s[..|s| - 1];
      assert s == init + [s[|s| - 1]];
      assert ScriptInRange(init, |c.layerOn|);
      RunSnoc(c, init, s[|s| - 1]);
      RunBatchDepth(c, init);
    }
  }

  /** A single batch leaves the batch depth where it found it. */
  lemma {:induction false} SingleBatchBalanced(s: seq<Request>)
    requires SingleBatch(s)
    ensures BatchDelta(s) == 0
  {
    assert s[..1] == [BeginBatch];
    assert s[..1][..0] == [];
    var k := 1;
    while k < |s| - 1
      invariant 1 <= k <= |s| - 1
      invariant BatchDelta(s[..k]) == 1
      decreases |s| - k
    {
      assert s[..k + 1][..k] == s[..k];
      k := k + 1;
    }
    assert s[..|s|][..|s| - 1] == s[..|s| - 1];
    assert s[..|s|] == s;
  }
}
