/**
 * The rendering side of src/AREngine.ts: the frame clock that turns
 * animation-frame timestamps into clamped deltas, the append-only list of
 * per-frame hooks run in order, the two hooks the engine registers (`render`
 * and `update_ar`), the model-tree swap of `replaceScene`, the source
 * orientation rule and the single shared instance.
 *
 * three.js, AR.js and the DOM are opaque: a hook's observable effects are
 * recorded in a ghost trace of `ArEvent`s, and the scene graph is a
 * sequence of children of which only the model roots are distinguished.
 */
module Ar {
  import opened Wrappers

  /** Largest delta handed to the hooks, in milliseconds. */
  const MaxDeltaMsec: real := 200.0

  /** Delta assumed for the first frame: one frame at 60 Hz. */
  const DefaultFrameMsec: real := 1000.0 / 60.0

  // ---------------------------------------------------------------------------
  // Frame clock
  // ---------------------------------------------------------------------------

  /**
   * The time the delta is measured from. `last` is 0.0 until a frame has
   * been seen: JavaScript's `||` treats the unset variable and 0 alike, so a
   * frame stamped 0 also makes the next one start afresh.
   */
  function PreviousTime(lastMsec: real, nowMsec: real): real
  {
    if lastMsec == 0.0 then nowMsec - DefaultFrameMsec else lastMsec
  }

  /** The delta of a frame at `nowMsec`, in milliseconds. */
  function FrameDelta(lastMsec: real, nowMsec: real): (d: real)
    ensures d <= MaxDeltaMsec
    ensures d <= nowMsec - PreviousTime(lastMsec, nowMsec)
    ensures d == MaxDeltaMsec || d == nowMsec - PreviousTime(lastMsec, nowMsec)
    ensures lastMsec == 0.0 ==> d == DefaultFrameMsec
  {
    var elapsed := nowMsec - PreviousTime(lastMsec, nowMsec);
    if elapsed < MaxDeltaMsec then elapsed else MaxDeltaMsec
  }

  /** The deltas of successive frames at `nows`, starting from `lastMsec`. */
  function Deltas(lastMsec: real, nows: seq<real>): (ds: seq<real>)
    ensures |ds| == |nows|
    decreases |nows|
  {
    if nows == [] then [] else [FrameDelta(lastMsec, nows[0])] + Deltas(nows[0], nows[1..])
  }

  function SumMsec(ds: seq<real>): real
    decreases |ds|
  {
    if ds == [] then 0.0 else ds[0] + SumMsec(ds[1..])
  }

  /** However long a stall, no frame hands the hooks more than 0.2 s. */
  lemma {:induction false} DeltasBounded(lastMsec: real, nows: seq<real>)
    ensures forall i :: 0 <= i < |nows| ==> Deltas(lastMsec, nows)[i] / 1000.0 <= 0.2
    decreases |nows|
  {
    if nows != [] {
      DeltasBounded(nows[0], nows[1..]);
      var ds := Deltas(lastMsec, nows);
      forall i | 0 <= i < |nows|
        ensures ds[i] / 1000.0 <= 0.2
      {
        if i > 0 {
          assert ds[i] == Deltas(nows[0], nows[1..])[i - 1];
        }
      }
    }
  }

  /**
   * Clamping only loses time: over frames whose timestamps are never 0, the
   * hooks are handed in all at most the time between the first frame's
   * reference point and the last frame.
   */
  lemma {:induction false} DeltasNeverGainTime(lastMsec: real, nows: seq<real>)
    requires nows != []
    requires forall i :: 0 <= i < |nows| - 1 ==> nows[i] != 0.0
    ensures SumMsec(Deltas(lastMsec, nows)) <= nows[|nows| - 1] - PreviousTime(lastMsec, nows[0])
    decreases |nows|
  {
    if |nows| > 1 {
      var rest := nows[1..];
      DeltasNeverGainTime(nows[0], rest);
      assert PreviousTime(nows[0], rest[0]) == nows[0];
      assert rest[|rest| - 1] == nows[|nows| - 1];
    }
  }

  /** The closure variable `lastTimeMsec` of the animation loop. */
  class FrameClock {
    var lastTimeMsec: real

    constructor ()
      ensures lastTimeMsec == 0.0
    {
      lastTimeMsec := 0.0;
    }

    /** Measures one frame: returns its delta and remembers its time. */
    method Tick(nowMsec: real) returns (deltaMsec: real)
      modifies this
      ensures deltaMsec == FrameDelta(old(lastTimeMsec), nowMsec)
      ensures lastTimeMsec == nowMsec
    {
      lastTimeMsec := if lastTimeMsec == 0.0 then nowMsec - DefaultFrameMsec else lastTimeMsec;
      deltaMsec := if nowMsec - lastTimeMsec < MaxDeltaMsec then nowMsec - lastTimeMsec else MaxDeltaMsec;
      lastTimeMsec := nowMsec;
    }
  }

  /**
   * Measures frames at `nows` in turn: the deltas are exactly `Deltas`, and
   * the clock is left at the last frame's time.
   */
  method TickAll(clock: FrameClock, nows: seq<real>) returns (ds: seq<real>)
    modifies clock
    ensures ds == Deltas(old(clock.lastTimeMsec), nows)
    ensures clock.lastTimeMsec == if nows == [] then old(clock.lastTimeMsec) else nows[|nows| - 1]
  {
    ds := [];
    var i := 0;
    while i < |nows|
      invariant i <= |nows|
      invariant ds + Deltas(clock.lastTimeMsec, nows[i..]) == Deltas(old(clock.lastTimeMsec), nows)
      invariant clock.lastTimeMsec == if i == 0 then old(clock.lastTimeMsec) else nows[i - 1]
    {
      assert nows[i..][1..] == nows[i + 1..];
      var d := clock.Tick(nows[i]);
      assert ds + ([d] + Deltas(nows[i], nows[i + 1..])) == (ds + [d]) + Deltas(nows[i], nows[i + 1..]);
      ds := ds + [d];
      i := i + 1;
    }
    assert nows[i..] == [];
  }

  // ---------------------------------------------------------------------------
  // Hooks
  // ---------------------------------------------------------------------------

  /** The 3D content a Change3DScene can install (opaque `ARScene` objects). */
  datatype ArScene = TestScene | TestScene2

  /**
   * The hooks the engine registers: `render` from setupRenderer, and one
   * `update_ar` per startAR call, bound to the camera source that call made.
   */
  datatype Hook = RenderHook | UpdateArHook(source: nat)

  datatype ArEvent =
    | HookCalled(hook: Hook, deltaSec: real)
    | Animated(tree: ArScene, deltaSec: real)  // arScene.animate(delta_sec)
    | RenderNotified(deltaSec: real)           // delegate.onRender(renderer, delta_sec)
    | Drawn                                    // renderer.render(scene, camera)
    | TrackerUpdated(source: nat)              // arToolkitContext.update(video)
    | FrameCaptured(source: nat)               // delegate.onFrameCaptured(video_element)

  /** Position of an event within one hook call. */
  function Stage(e: ArEvent): nat
  {
    match e
    case Animated(_, _) => 0
    case RenderNotified(_) => 1
    case Drawn => 2
    case TrackerUpdated(_) => 3
    case FrameCaptured(_) => 4
    case HookCalled(_, _) => 5
  }

  /**
   * The part of the engine's state the hooks read. Camera sources are
   * numbered in creation order; `readySources` are those AR.js reports ready
   * and `videoSources` those whose `update_ar` holds a video element.
   */
  datatype FrameView = FrameView(
    hasCamera: bool,
    arScene: Option<ArScene>,
    onRender: bool,
    readySources: set<nat>,
    videoSources: set<nat>,
    onFrameCaptured: bool)

  /**
   * One call of `render`: nothing without a camera; otherwise animate the
   * current model, tell the delegate, then draw, in that order.
   */
  function RenderEvents(v: FrameView, deltaSec: real): (ev: seq<ArEvent>)
    ensures forall i, j :: 0 <= i < j < |ev| ==> Stage(ev[i]) < Stage(ev[j])
    ensures !v.hasCamera ==> ev == []
    ensures v.hasCamera ==>
      && |ev| > 0 && ev[|ev| - 1] == Drawn
      && (v.arScene.Some? ==> Animated(v.arScene.value, deltaSec) in ev)
      && (forall e :: e in ev && e.Animated? ==> v.arScene == Some(e.tree) && e.deltaSec == deltaSec)
      && (RenderNotified(deltaSec) in ev <==> v.onRender)
    ensures forall e :: e in ev ==> e.Animated? || e.RenderNotified? || e.Drawn?
  {
    if !v.hasCamera then []
    else
      (if v.arScene.Some? then [Animated(v.arScene.value, deltaSec)] else [])
      + (if v.onRender then [RenderNotified(deltaSec)] else [])
      + [Drawn]
  }

  /**
   * One call of the `update_ar` bound to `source`: nothing until that source
   * is ready; otherwise feed the tracker from it, then pass its video element
   * on when it is known and the delegate takes it.
   */
  function UpdateArEvents(v: FrameView, source: nat): (ev: seq<ArEvent>)
    ensures source !in v.readySources ==> ev == []
    ensures source in v.readySources ==>
      && |ev| > 0 && ev[0] == TrackerUpdated(source)
      && (FrameCaptured(source) in ev <==> source in v.videoSources && v.onFrameCaptured)
      && |ev| <= 2
    ensures forall e :: e in ev ==> e == TrackerUpdated(source) || e == FrameCaptured(source)
  {
    if source !in v.readySources then []
    else
      [TrackerUpdated(source)]
      + (if source in v.videoSources && v.onFrameCaptured then [FrameCaptured(source)] else [])
  }

  /** What one call of a hook does; no hook calls another. */
  function HookEvents(h: Hook, v: FrameView, deltaSec: real): (ev: seq<ArEvent>)
    ensures forall e :: e in ev ==> !e.HookCalled?
  {
    match h
    case RenderHook => RenderEvents(v, deltaSec)
    case UpdateArHook(source) => UpdateArEvents(v, source)
  }

  /** Whether some registered `update_ar` is bound to a ready source. */
  predicate TrackerReady(hooks: seq<Hook>, ready: set<nat>)
  {
    exists i :: 0 <= i < |hooks| && hooks[i].UpdateArHook? && hooks[i].source in ready
  }

  /** One frame: every hook, in list order, called with the same delta. */
  function FrameEvents(hooks: seq<Hook>, v: FrameView, deltaSec: real): seq<ArEvent>
    decreases |hooks|
  {
    if hooks == [] then []
    else
      var last := hooks[|hooks| - 1];
      FrameEvents(hooks[..|hooks| - 1], v, deltaSec) + [HookCalled(last, deltaSec)] + HookEvents(last, v, deltaSec)
  }

  /** A trace that ends with a frame over one more hook: that hook runs after the others. */
  lemma FrameEventsStep(before: seq<ArEvent>, hooks: seq<Hook>, i: nat, v: FrameView, deltaSec: real)
    requires i < |hooks|
    ensures before + FrameEvents(hooks[..i], v, deltaSec) + [HookCalled(hooks[i], deltaSec)] + HookEvents(hooks[i], v, deltaSec)
      == before + FrameEvents(hooks[..i + 1], v, deltaSec)
    ensures TrackerReady(hooks[..i + 1], v.readySources)
      <==> TrackerReady(hooks[..i], v.readySources) || (hooks[i].UpdateArHook? && hooks[i].source in v.readySources)
  {
    assert hooks[..i + 1][..i] == hooks[..i];
    assert hooks[..i + 1] == hooks[..i] + [hooks[i]];
  }

  /** The hook calls of a trace, in order. */
  function Calls(ev: seq<ArEvent>): seq<ArEvent>
    decreases |ev|
  {
    if ev == [] then []
    else Calls(ev[..|ev| - 1]) + (if ev[|ev| - 1].HookCalled? then [ev[|ev| - 1]] else [])
  }

  lemma {:induction false} CallsAppend(a: seq<ArEvent>, b: seq<ArEvent>)
    ensures Calls(a + b) == Calls(a) + Calls(b)
    decreases |b|
  {
    if b == [] {
      assert a + b == a;
    } else {
      var b' := b[..|b| - 1];
      var tail := if b[|b| - 1].HookCalled? then [b[|b| - 1]] else [];
      assert (a + b)[..|a + b| - 1] == a + b';
      assert (a + b)[|a + b| - 1] == b[|b| - 1];
      CallsAppend(a, b');
      calc {
        Calls(a + b);
        Calls(a + b') + tail;
        (Calls(a) + Calls(b')) + tail;
        Calls(a) + (Calls(b') + tail);
        Calls(a) + Calls(b);
      }
    }
  }

  lemma CallsOne(e: ArEvent)
    ensures Calls([e]) == if e.HookCalled? then [e] else []
  {
    assert [e][..0] == [];
  }

  lemma {:induction false} NoCalls(ev: seq<ArEvent>)
    requires forall e :: e in ev ==> !e.HookCalled?
    ensures Calls(ev) == []
    decreases |ev|
  {
    if ev != [] {
      assert ev[|ev| - 1] in ev;
      NoCalls(ev[..|ev| - 1]);
    }
  }

  /** The calls a frame makes: each registered hook once, in order, with one delta. */
  function CallsOf(hooks: seq<Hook>, deltaSec: real): (calls: seq<ArEvent>)
    ensures |calls| == |hooks|
    ensures forall i :: 0 <= i < |hooks| ==> calls[i] == HookCalled(hooks[i], deltaSec)
  {
    seq(|hooks|, i requires 0 <= i < |hooks| => HookCalled(hooks[i], deltaSec))
  }

  /** Every registered hook runs exactly once per frame, in list order, with the same delta. */
  lemma {:induction false} FrameCallsEveryHookInOrder(hooks: seq<Hook>, v: FrameView, deltaSec: real)
    ensures Calls(FrameEvents(hooks, v, deltaSec)) == CallsOf(hooks, deltaSec)
    decreases |hooks|
  {
    if hooks != [] {
      var init := hooks[..|hooks| - 1];
      var last := hooks[|hooks| - 1];
      var body := HookEvents(last, v, deltaSec);
      FrameCallsEveryHookInOrder(init, v, deltaSec);
      CallsAppend(FrameEvents(init, v, deltaSec) + [HookCalled(last, deltaSec)], body);
      CallsAppend(FrameEvents(init, v, deltaSec), [HookCalled(last, deltaSec)]);
      NoCalls(body);
      CallsOne(HookCalled(last, deltaSec));
      assert CallsOf(hooks, deltaSec) == CallsOf(init, deltaSec) + [HookCalled(last, deltaSec)];
    }
  }

  // ---------------------------------------------------------------------------
  // Orientation
  // ---------------------------------------------------------------------------

  /**
   * `getSourceOrientation`: "" without a source, otherwise "landscape" when
   * the video is wider than tall and "portrait" when not (a square video is
   * portrait). `video` holds the source's video width and height.
   */
  function SourceOrientation(video: Option<(int, int)>): (o: string)
    ensures video.None? ==> o == ""
    ensures video.Some? ==> (o == "landscape" <==> video.value.0 > video.value.1)
    ensures video.Some? ==> (o == "portrait" <==> video.value.0 <= video.value.1)
  {
    match video
    case None => ""
    case Some((width, height)) => if width > height then "landscape" else "portrait"
  }

  // ---------------------------------------------------------------------------
  // Scene graph
  // ---------------------------------------------------------------------------

  /** A child of the three.js scene: a model root made by `replaceScene`, or anything else. */
  datatype SceneChild = ModelRoot(id: nat, tree: ArScene) | OtherChild(id: nat)

  /** three.js `remove`: takes out the first occurrence, if any (see `RemoveChildFirst`). */
  function RemoveChild(children: seq<SceneChild>, c: SceneChild): (r: seq<SceneChild>)
    ensures multiset(r) == multiset(children) - multiset{c}
    decreases |children|
  {
    if children == [] then []
    else
      assert children == [children[0]] + children[1..];
      if children[0] == c then children[1..]
      else [children[0]] + RemoveChild(children[1..], c)
  }

  /**
   * Removing a child whose first occurrence is at `k` cuts out exactly that
   * one and keeps the rest in order; with no occurrence (`k` the length),
   * nothing changes.
   */
  lemma {:induction false} RemoveChildFirst(children: seq<SceneChild>, c: SceneChild, k: nat)
    requires k <= |children| && c !in children[..k]
    requires k < |children| ==> children[k] == c
    ensures k < |children| ==> RemoveChild(children, c) == children[..k] + children[k + 1..]
    ensures k == |children| ==> RemoveChild(children, c) == children
    decreases k
  {
    if k > 0 {
      var rest := children[1..];
      assert children[0] in children[..k];
      assert rest[..k - 1] == children[1..k];
      RemoveChildFirst(rest, c, k - 1);
      assert children[..k] == [children[0]] + rest[..k - 1];
      assert children == [children[0]] + rest;
    }
  }

  /** `n` new non-model nodes, numbered from `first`. */
  function OtherNodes(first: nat, n: nat): (nodes: seq<SceneChild>)
    ensures |nodes| == n
    ensures forall i :: 0 <= i < n ==> nodes[i] == OtherChild(first + i)
    ensures forall c :: c in nodes ==> c.OtherChild? && first <= c.id < first + n
  {
    if n == 0 then [] else OtherNodes(first, n - 1) + [OtherChild(first + n - 1)]
  }

  /** The scene graph holds at most the current model root, once, and no root newer than the counter. */
  ghost predicate RootsConsistent(children: seq<SceneChild>, base: Option<SceneChild>, nextId: nat)
  {
    && (forall c :: c in children && c.ModelRoot? ==> base == Some(c))
    && (base.Some? ==> base.value.ModelRoot? && base.value.id < nextId && multiset(children)[base.value] <= 1)
  }

  /**
   * Swapping the model tree keeps the graph consistent: afterwards exactly
   * one model root is in the scene, the new one, holding the new tree, and
   * every other child is still there.
   */
  lemma SwapKeepsOneRoot(children: seq<SceneChild>, base: Option<SceneChild>, nextId: nat, tree: ArScene)
    requires RootsConsistent(children, base, nextId)
    ensures var kept := if base.Some? then RemoveChild(children, base.value) else children;
      var after := kept + [ModelRoot(nextId, tree)];
      && RootsConsistent(after, Some(ModelRoot(nextId, tree)), nextId + 1)
      && multiset(after)[ModelRoot(nextId, tree)] == 1
      && (forall c :: c in children && !c.ModelRoot? ==> c in after)
  {
    var root := ModelRoot(nextId, tree);
    var kept := if base.Some? then RemoveChild(children, base.value) else children;
    var after := kept + [root];
    forall c | c in children
      ensures c != root
    {
      if c.ModelRoot? {
        assert base == Some(c);
      }
    }
    forall c | c in kept
      ensures c in children && (base.Some? ==> c != base.value)
    {
      assert multiset(kept)[c] > 0;
    }
    forall c | c in children && !c.ModelRoot?
      ensures c in after
    {
      assert base.Some? ==> c != base.value;
      assert multiset(kept)[c] > 0;
    }
    assert root !in children;
    assert multiset(children)[root] == 0;
    assert multiset(kept)[root] == 0;
  }

  // ---------------------------------------------------------------------------
  // Engine
  // ---------------------------------------------------------------------------

  /** The engine's observer and which of its optional members it defines. */
  datatype AREngineDelegate = AREngineDelegate(onRender: bool, onMarkerFound: bool, onFrameCaptured: bool)

  /** `AREngine` of src/AREngine.ts. */
  class AREngine {
    var children: seq<SceneChild>      // this.scene's children
    var visible: bool                  // this.scene.visible
    var baseNode: Option<SceneChild>
    var arScene: Option<ArScene>
    var hasRenderer: bool
    var hasCamera: bool
    var delegate: Option<AREngineDelegate>
    var hooks: seq<Hook>               // renderingLoopHooks
    var readySources: set<nat>         // sources whose arToolkitSource.ready is set
    var videoSources: set<nat>         // sources whose update_ar has its video_element
    var nextSourceId: nat              // identity of the next ArToolkitSource
    var nextNodeId: nat                // identity of the next new Object3D
    ghost var events: seq<ArEvent>

    /** The scene graph holds at most the current model root. */
    ghost predicate Valid()
      reads this
    {
      RootsConsistent(children, baseNode, nextNodeId)
    }

    /** Only camera sources already made can be ready or have a video element. */
    ghost predicate SourcesMade()
      reads this`readySources, this`videoSources, this`nextSourceId
    {
      && (forall s :: s in readySources ==> s < nextSourceId)
      && (forall s :: s in videoSources ==> s < nextSourceId)
    }

    function View(): FrameView
      reads this`hasCamera, this`arScene, this`delegate, this`readySources, this`videoSources
    {
      FrameView(hasCamera, arScene, delegate.Some? && delegate.value.onRender,
                readySources, videoSources, delegate.Some? && delegate.value.onFrameCaptured)
    }

    /** A new engine: an empty, visible scene and no hooks. */
    constructor ()
      ensures Valid()
      ensures children == [] && visible && baseNode == None && arScene == None
      ensures !hasRenderer && !hasCamera && delegate == None && hooks == []
      ensures SourcesMade()
      ensures readySources == {} && videoSources == {} && nextSourceId == 0 && events == []
    {
      children := [];
      visible := true;
      baseNode := None;
      arScene := None;
      hasRenderer := false;
      hasCamera := false;
      delegate := None;
      hooks := [];
      readySources := {};
      videoSources := {};
      nextSourceId := 0;
      nextNodeId := 0;
      events := [];
    }

    /**
     * Replaces the displayed model: the previous base node leaves the scene,
     * a new one holding the tree of `tree` joins it, and `tree` becomes the
     * current ARScene.
     */
    method ReplaceScene(tree: ArScene)
      requires Valid()
      modifies this`children, this`baseNode, this`arScene, this`nextNodeId
      ensures Valid()
      ensures baseNode == Some(ModelRoot(old(nextNodeId), tree)) && arScene == Some(tree)
      ensures children ==
        (if old(baseNode).Some? then RemoveChild(old(children), old(baseNode).value) else old(children))
        + [baseNode.value]
      ensures multiset(children)[baseNode.value] == 1
      ensures forall c :: c in children && c.ModelRoot? ==> c == baseNode.value
      ensures forall c :: c in old(children) && !c.ModelRoot? ==> c in children
    {
      SwapKeepsOneRoot(children, baseNode, nextNodeId, tree);
      if baseNode.Some? {
        children := RemoveChild(children, baseNode.value);
      }
      var root := ModelRoot(nextNodeId, tree);
      nextNodeId := nextNodeId + 1;
      baseNode := Some(root);
      children := children + [root];
      arScene := Some(tree);
    }

    /** Adds `n` new opaque nodes (lights, helpers, cameras) to the scene. */
    method AddOtherChildren(n: nat)
      requires Valid()
      modifies this`children, this`nextNodeId
      ensures Valid()
      ensures nextNodeId == old(nextNodeId) + n
      ensures children == old(children) + OtherNodes(old(nextNodeId), n)
    {
      var added := OtherNodes(nextNodeId, n);
      assert baseNode.Some? ==> multiset(added)[baseNode.value] == 0;
      children := children + added;
      nextNodeId := nextNodeId + n;
    }

    /**
     * Sets up rendering into the element named by the caller; `mountFound`
     * says whether it exists. Without it nothing changes and no clock is
     * started; otherwise the renderer and camera exist, a light and the
     * three axis arrows join the scene, `render` is appended to the hooks,
     * and the returned clock drives `Animate`.
     */
    method SetupRenderer(mountFound: bool) returns (clock: FrameClock?)
      requires Valid()
      modifies this`hasRenderer, this`hasCamera, this`hooks, this`children, this`nextNodeId
      ensures Valid()
      ensures !mountFound ==>
        && clock == null && hooks == old(hooks) && children == old(children)
        && hasRenderer == old(hasRenderer) && hasCamera == old(hasCamera)
      ensures mountFound ==>
        && clock != null && fresh(clock) && clock.lastTimeMsec == 0.0
        && hooks == old(hooks) + [RenderHook] && hasRenderer && hasCamera
        && children == old(children) + OtherNodes(old(nextNodeId), 4)
    {
      if !mountFound {
        return null;
      }
      hasRenderer := true;
      hasCamera := true;
      AddOtherChildren(4);
      hooks := hooks + [RenderHook];
      clock := new FrameClock();
    }

    /**
     * Starts AR tracking: a new camera joins the scene, a new camera source
     * is made, neither ready nor with a video element yet, and an `update_ar`
     * bound to it is appended to the hooks.
     */
    method StartAR() returns (source: nat)
      requires Valid() && SourcesMade()
      modifies this`hasCamera, this`hooks, this`children, this`nextNodeId, this`nextSourceId
      ensures Valid() && SourcesMade()
      ensures source == old(nextSourceId) && nextSourceId == source + 1
      ensures source !in readySources && source !in videoSources
      ensures hasCamera && hooks == old(hooks) + [UpdateArHook(source)]
      ensures children == old(children) + [OtherChild(old(nextNodeId))]
    {
      hasCamera := true;
      AddOtherChildren(1);
      source := nextSourceId;
      nextSourceId := nextSourceId + 1;
      hooks := hooks + [UpdateArHook(source)];
    }

    /** The init callback of camera source `source` stores its video element for its `update_ar`. */
    method OnSourceInit(source: nat)
      requires SourcesMade() && source < nextSourceId
      modifies this`videoSources
      ensures SourcesMade()
      ensures videoSources == old(videoSources) + {source}
    {
      videoSources := videoSources + {source};
    }

    /** AR.js reports camera source `source` ready. */
    method OnSourceReady(source: nat)
      requires SourcesMade() && source < nextSourceId
      modifies this`readySources
      ensures SourcesMade()
      ensures readySources == old(readySources) + {source}
    {
      readySources := readySources + {source};
    }

    /** The `render` closure. */
    method Render(deltaSec: real)
      modifies this`events
      ensures events == old(events) + RenderEvents(View(), deltaSec)
    {
      if hasCamera {
        if arScene.Some? {
          events := events + [Animated(arScene.value, deltaSec)];
        }
        if delegate.Some? && delegate.value.onRender {
          events := events + [RenderNotified(deltaSec)];
        }
        events := events + [Drawn];
      }
    }

    /** The `update_ar` closure of `source`; it also makes the scene visible once that source is ready. */
    method UpdateAr(source: nat)
      modifies this`events, this`visible
      ensures events == old(events) + UpdateArEvents(View(), source)
      ensures visible == (old(visible) || source in readySources)
    {
      if source in readySources {
        events := events + [TrackerUpdated(source)];
        if source in videoSources && delegate.Some? && delegate.value.onFrameCaptured {
          events := events + [FrameCaptured(source)];
        }
        visible := true;
      }
    }

    /** Calls the closure registered as `h`: the call is recorded, then the closure runs. */
    method RunHook(h: Hook, deltaSec: real)
      modifies this`events, this`visible
      ensures events == old(events) + [HookCalled(h, deltaSec)] + HookEvents(h, View(), deltaSec)
      ensures visible == (old(visible) || (h.UpdateArHook? && h.source in readySources))
    {
      events := events + [HookCalled(h, deltaSec)];
      match h {
        case RenderHook => Render(deltaSec);
        case UpdateArHook(source) => UpdateAr(source);
      }
    }

    /** `renderingLoopHooks.forEach`: every registered hook, in order, with the same delta. */
    method RunHooks(deltaSec: real)
      modifies this`events, this`visible
      ensures events == old(events) + FrameEvents(hooks, View(), deltaSec)
      ensures visible == (old(visible) || TrackerReady(hooks, readySources))
    {
      ghost var v := View();
      ghost var before := events;
      for i := 0 to |hooks|
        invariant View() == v
        invariant events == before + FrameEvents(hooks[..i], v, deltaSec)
        invariant visible == (old(visible) || TrackerReady(hooks[..i], readySources))
      {
        FrameEventsStep(before, hooks, i, v, deltaSec);
        RunHook(hooks[i], deltaSec);
        assert View() == v;
      }
      assert hooks[..|hooks|] == hooks;
    }

    /**
     * One animation frame at `nowMsec`: measure the clamped delta, then call
     * every registered hook, in order, with it in seconds.
     */
    method Animate(clock: FrameClock, nowMsec: real)
      modifies clock, this`events, this`visible
      ensures clock.lastTimeMsec == nowMsec
      ensures events == old(events)
        + FrameEvents(hooks, View(), FrameDelta(old(clock.lastTimeMsec), nowMsec) / 1000.0)
      ensures visible == (old(visible) || TrackerReady(hooks, readySources))
    {
      var deltaMsec := clock.Tick(nowMsec);
      RunHooks(deltaMsec / 1000.0);
    }
  }

  /** The static `instance` slot behind `AREngine.getSingleton`. */
  class AREngineInstance {
    var instance: AREngine?

    constructor ()
      ensures instance == null
    {
      instance := null;
    }

    /** The first call creates the engine; every call returns that same engine. */
    method GetSingleton() returns (engine: AREngine)
      modifies this
      ensures old(instance) != null ==> engine == old(instance)
      ensures old(instance) == null ==> fresh(engine) && engine.Valid() && engine.SourcesMade() && engine.hooks == []
      ensures instance == engine
    {
      if instance == null {
        instance := new AREngine();
      }
      engine := instance;
    }
  }
}
