/**
 * The scene host of src/GameEngine.ts: exactly one current scene, ticked by
 * `Update`, and replaced by `ChangeScene` through a fixed protocol: the
 * outgoing scene's `end`, the swap, the incoming scene's `init`, then the
 * delegate's `onSceneChanged`. Absent optional members are skipped.
 *
 * The protocol is recorded in a ghost trace of `SceneEvent`s.
 */
module Game {
  import opened Wrappers
  import opened Scenes
  import Cv

  /** The engine's observer and whether it defines `onSceneChanged`. */
  datatype GameEngineDelegate = GameEngineDelegate(onSceneChanged: bool)

  predicate Notifies(d: Option<GameEngineDelegate>)
  {
    d.Some? && d.value.onSceneChanged
  }

  datatype SceneEvent =
    | Ended(scene: Scene)     // the outgoing scene's end()
    | Swapped(scene: Scene)   // this.scene = next_scene
    | Inited(scene: Scene)    // the incoming scene's init()
    | Notified(scene: Scene)  // delegate.onSceneChanged(next_scene)

  /** Position of an event within one scene change. */
  function Stage(e: SceneEvent): nat
  {
    match e
    case Ended(_) => 0
    case Swapped(_) => 1
    case Inited(_) => 2
    case Notified(_) => 3
  }

  /**
   * The protocol of one `changeScene(to)` while `from` is current, with
   * `notify` saying whether the delegate hears of it. What it guarantees is
   * stated by `TransitionProtocol`.
   */
  function TransitionEvents(from: Scene, to: Scene, notify: bool): seq<SceneEvent>
  {
    (if HasEnd(from) then [Ended(from)] else [])
    + [Swapped(to)]
    + (if HasInit(to) then [Inited(to)] else [])
    + (if notify then [Notified(to)] else [])
  }

  /**
   * One scene change runs end, swap, init and notify strictly in that order.
   * The swap always happens; `end` exactly when the outgoing scene defines
   * it, `init` exactly when the incoming one does, and the notification
   * exactly when the delegate listens; nothing else happens.
   */
  lemma TransitionProtocol(from: Scene, to: Scene, notify: bool)
    ensures var ev := TransitionEvents(from, to, notify);
      && (forall i, j :: 0 <= i < j < |ev| ==> Stage(ev[i]) < Stage(ev[j]))
      && Swapped(to) in ev
      && (Ended(from) in ev <==> HasEnd(from))
      && (Inited(to) in ev <==> HasInit(to))
      && (Notified(to) in ev <==> notify)
      && (forall e :: e in ev ==> e in [Ended(from), Swapped(to), Inited(to), Notified(to)])
  {
  }

  /** The scene a scene's `update` returns when it requests a change. */
  function Requested(s: Scene): Scene
    reads Objects(s)
    requires RequestsChange(s)
  {
    match s
    case Timer(_) => Change3D
    case OpenCV(o) => o.nextScene.value
  }

  /** `GameEngine` of src/GameEngine.ts. */
  class GameEngine {
    var scene: Scene
    var delegate: Option<GameEngineDelegate>
    ghost var trace: seq<SceneEvent>

    /** A new engine holds an EmptyScene and has no delegate. */
    constructor ()
      ensures scene == Empty && delegate == None && trace == []
    {
      scene := Empty;
      delegate := None;
      trace := [];
    }

    /** Makes a fresh TimerScene current. */
    method Init(cv: Cv.CvEngine)
      modifies this`scene, this`trace, cv`userProcessor
      ensures scene.Timer? && fresh(scene.timer) && scene.timer.sceneTime == 0.0
      ensures trace == old(trace) + TransitionEvents(old(scene), scene, Notifies(delegate))
      ensures cv.userProcessor == if old(scene).OpenCV? then None else old(cv.userProcessor)
    {
      var t := new TimerScene();
      ChangeScene(Timer(t), cv);
    }

    /**
     * One tick: the current scene's `update`, if it has one, and a change to
     * the scene it returns, if any.
     */
    method Update(durationSec: real, cv: Cv.CvEngine)
      modifies this`scene, this`trace, cv`userProcessor, Objects(scene)
      ensures !old(RequestsChange(scene)) ==>
        && scene == old(scene)
        && trace == old(trace)
        && cv.userProcessor == old(cv.userProcessor)
      ensures old(RequestsChange(scene)) ==>
        && scene == old(Requested(scene))
        && trace == old(trace) + TransitionEvents(old(scene), scene, Notifies(delegate))
        && cv.userProcessor == (if scene.OpenCV? then Some(Cv.EdgeFilter)
                                else if old(scene).OpenCV? then None
                                else old(cv.userProcessor))
      ensures old(scene).Timer? ==>
        var t := old(scene).timer;
        && t.onTimerUpdated == old(t.onTimerUpdated)
        && (old(t.sceneTime) >= TimerDurationSec ==>
              t.sceneTime == old(t.sceneTime) && t.timerUpdatedCalls == old(t.timerUpdatedCalls))
        && (old(t.sceneTime) < TimerDurationSec ==>
              && t.sceneTime == old(t.sceneTime) + durationSec
              && t.timerUpdatedCalls == old(t.timerUpdatedCalls) + (if t.onTimerUpdated then 1 else 0))
      ensures old(scene).OpenCV? ==>
        var o := old(scene).filter;
        o.nextScene == old(o.nextScene)
    {
      var next: Option<Scene>;
      match scene {
        case Empty =>
          next := None;
        case Timer(t) =>
          next := t.Update(durationSec);
        case Change3D =>
          next := None;
        case OpenCV(o) =>
          next := o.Update(durationSec);
      }
      if next.Some? {
        ChangeScene(next.value, cv);
      }
    }

    /** The transition protocol; `next` becomes current. */
    method ChangeScene(next: Scene, cv: Cv.CvEngine)
      modifies this`scene, this`trace, cv`userProcessor
      ensures scene == next
      ensures trace == old(trace) + TransitionEvents(old(scene), next, Notifies(delegate))
      ensures cv.userProcessor == if next.OpenCV? then Some(Cv.EdgeFilter)
                                  else if old(scene).OpenCV? then None
                                  else old(cv.userProcessor)
    {
      ghost var from := scene;
      ghost var ended: seq<SceneEvent> := [];
      match scene {
        case OpenCV(o) =>
          o.End(cv);
          ended := [Ended(scene)];
        case _ =>
      }
      scene := next;
      ghost var inited: seq<SceneEvent> := [];
      match next {
        case OpenCV(o) =>
          o.Init(cv);
          inited := [Inited(next)];
        case _ =>
      }
      ghost var notified: seq<SceneEvent> := [];
      if Notifies(delegate) {
        notified := [Notified(next)];
      }
      assert ended + [Swapped(next)] + inited + notified == TransitionEvents(from, next, Notifies(delegate));
      trace := trace + (ended + [Swapped(next)] + inited + notified);
    }
  }

  // ---------------------------------------------------------------------------
  // Runs of scene changes
  // ---------------------------------------------------------------------------

  /** The trace of changing from `from` to each of `tos` in turn. */
  function Run(from: Scene, tos: seq<Scene>, notify: bool): seq<SceneEvent>
    decreases |tos|
  {
    if tos == [] then [] else TransitionEvents(from, tos[0], notify) + Run(tos[0], tos[1..], notify)
  }

  /** The scenes carried by the events of one stage, in trace order. */
  function At(ev: seq<SceneEvent>, stage: nat): seq<Scene>
    decreases |ev|
  {
    if ev == [] then []
    else (if Stage(ev[0]) == stage then [ev[0].scene] else []) + At(ev[1..], stage)
  }

  lemma {:induction false} AtAppend(a: seq<SceneEvent>, b: seq<SceneEvent>, stage: nat)
    ensures At(a + b, stage) == At(a, stage) + At(b, stage)
    decreases |a|
  {
    if a == [] {
      assert a + b == b;
    } else {
      var head := if Stage(a[0]) == stage then [a[0].scene] else [];
      assert (a + b)[0] == a[0];
      assert (a + b)[1..] == a[1..] + b;
      AtAppend(a[1..], b, stage);
      calc {
        At(a + b, stage);
        head + At(a[1..] + b, stage);
        head + (At(a[1..], stage) + At(b, stage));
        (head + At(a[1..], stage)) + At(b, stage);
        At(a, stage) + At(b, stage);
      }
    }
  }

  /** Conditions on a trace under which concatenating it keeps the protocol's local order. */
  ghost predicate LocallyOrdered(ev: seq<SceneEvent>)
  {
    && (forall i :: 0 <= i < |ev| && ev[i].Ended? ==> i + 1 < |ev| && ev[i + 1].Swapped?)
    && (forall i :: 0 <= i < |ev| && ev[i].Inited? ==> 0 < i && ev[i - 1] == Swapped(ev[i].scene))
    && (forall i :: 0 <= i < |ev| && ev[i].Notified? ==>
          0 < i && ev[i - 1] in [Swapped(ev[i].scene), Inited(ev[i].scene)])
  }

  lemma TransitionLocallyOrdered(from: Scene, to: Scene, notify: bool)
    ensures LocallyOrdered(TransitionEvents(from, to, notify))
    ensures !TransitionEvents(from, to, notify)[|TransitionEvents(from, to, notify)| - 1].Ended?
    ensures TransitionEvents(from, to, notify)[0] in [Ended(from), Swapped(to)]
  {
  }

  lemma {:induction false} LocallyOrderedAppend(a: seq<SceneEvent>, b: seq<SceneEvent>)
    requires LocallyOrdered(a) && LocallyOrdered(b)
    requires a != [] ==> !a[|a| - 1].Ended?
    requires b != [] ==> b[0].Ended? || b[0].Swapped?
    ensures LocallyOrdered(a + b)
  {
    var ev := a + b;
    forall i | 0 <= i < |ev| && ev[i].Ended?
      ensures i + 1 < |ev| && ev[i + 1].Swapped?
    {
      if i < |a| {
        assert a[i].Ended?;
        assert ev[i + 1] == a[i + 1];
      } else {
        assert ev[i] == b[i - |a|];
      }
    }
    forall i | 0 <= i < |ev| && ev[i].Inited?
      ensures 0 < i && ev[i - 1] == Swapped(ev[i].scene)
    {
      if i < |a| {
        assert ev[i] == a[i];
      } else {
        assert ev[i] == b[i - |a|];
        assert ev[i - 1] == b[i - |a| - 1];
      }
    }
    forall i | 0 <= i < |ev| && ev[i].Notified?
      ensures 0 < i && ev[i - 1] in [Swapped(ev[i].scene), Inited(ev[i].scene)]
    {
      if i < |a| {
        assert ev[i] == a[i];
      } else {
        assert ev[i] == b[i - |a|];
        assert ev[i - 1] == b[i - |a| - 1];
      }
    }
  }

  /**
   * Over any run of scene changes the scenes become current in the order
   * requested, and a delegate hears of each change exactly once, in order.
   */
  lemma {:induction false} RunSwapsInOrder(from: Scene, tos: seq<Scene>, notify: bool)
    ensures At(Run(from, tos, notify), 1) == tos
    ensures At(Run(from, tos, notify), 3) == if notify then tos else []
    decreases |tos|
  {
    if tos != [] {
      var head := TransitionEvents(from, tos[0], notify);
      var rest := Run(tos[0], tos[1..], notify);
      assert Run(from, tos, notify) == head + rest;
      RunSwapsInOrder(tos[0], tos[1..], notify);
      AtOfTransition(from, tos[0], notify);
      AtAppend(head, rest, 1);
      AtAppend(head, rest, 3);
      assert tos == [tos[0]] + tos[1..];
    }
  }

  /**
   * Over any run of scene changes every `end` is immediately followed by
   * the swap, so it completes before the next scene's `init`, and every
   * `init` and notification follows the swap to the scene it names.
   */
  lemma {:induction false} RunLocallyOrdered(from: Scene, tos: seq<Scene>, notify: bool)
    ensures LocallyOrdered(Run(from, tos, notify))
    ensures tos != [] ==> Run(from, tos, notify)[0] in [Ended(from), Swapped(tos[0])]
    decreases |tos|
  {
    if tos != [] {
      var head := TransitionEvents(from, tos[0], notify);
      var rest := Run(tos[0], tos[1..], notify);
      assert Run(from, tos, notify) == head + rest;
      RunLocallyOrdered(tos[0], tos[1..], notify);
      TransitionLocallyOrdered(from, tos[0], notify);
      LocallyOrderedAppend(head, rest);
    }
  }

  lemma AtOfTransition(from: Scene, to: Scene, notify: bool)
    ensures At(TransitionEvents(from, to, notify), 1) == [to]
    ensures At(TransitionEvents(from, to, notify), 3) == if notify then [to] else []
  {
    var e := if HasEnd(from) then [Ended(from)] else [];
    var i := if HasInit(to) then [Inited(to)] else [];
    var n := if notify then [Notified(to)] else [];
    assert TransitionEvents(from, to, notify) == e + [Swapped(to)] + i + n;
    AtAppend(e + [Swapped(to)] + i, n, 1);
    AtAppend(e + [Swapped(to)], i, 1);
    AtAppend(e, [Swapped(to)], 1);
    AtAppend(e + [Swapped(to)] + i, n, 3);
    AtAppend(e + [Swapped(to)], i, 3);
    AtAppend(e, [Swapped(to)], 3);
  }
}
