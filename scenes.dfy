/**
 * The game scenes: the GameScene contract and EmptyScene of
 * src/GameEngine.ts, TimerScene, OpenCVScene, and the name of
 * Change3DScene (its actions are in module Change3DScene).
 *
 * A scene is a `Scene` value; the two scenes with state of their own are
 * classes the value points to. Which optional GameScene members a scene
 * class defines is given by `HasInit`, `HasUpdate` and `HasEnd`.
 */
module Scenes {
  import opened Wrappers
  import Cv

  /** Seconds a TimerScene runs before it hands off. */
  const TimerDurationSec: real := 3.0

  datatype Scene =
    | Empty
    | Timer(timer: TimerScene)
    | Change3D
    | OpenCV(filter: OpenCVScene)

  /** `name()`: every scene class reports its own name. */
  function Name(s: Scene): (n: string)
    ensures n == "Empty" <==> s.Empty?
    ensures n == "Timer" <==> s.Timer?
    ensures n == "Change3DScene" <==> s.Change3D?
    ensures n == "OpenCVScene" <==> s.OpenCV?
  {
    match s
    case Empty => "Empty"
    case Timer(_) => "Timer"
    case Change3D => "Change3DScene"
    case OpenCV(_) => "OpenCVScene"
  }

  /** Only OpenCVScene defines `init` and `end`. */
  predicate HasInit(s: Scene)
  {
    s.OpenCV?
  }

  predicate HasEnd(s: Scene)
  {
    s.OpenCV?
  }

  /** Change3DScene defines no `update`. */
  predicate HasUpdate(s: Scene)
  {
    !s.Change3D?
  }

  /** The objects holding a scene's own state. */
  function Objects(s: Scene): set<object>
  {
    match s
    case Timer(t) => {t}
    case OpenCV(o) => {o}
    case _ => {}
  }

  /**
   * Whether the scene's `update`, called now, returns a replacement scene.
   * Empty's update always returns null; Change3DScene has no update.
   */
  predicate RequestsChange(s: Scene)
    reads Objects(s)
  {
    match s
    case Timer(t) => Remaining(t.sceneTime) <= 0.0
    case OpenCV(o) => o.nextScene.Some?
    case _ => false
  }

  /** `TimerScene.remainingTime()` as a function of the elapsed scene time. */
  function Remaining(sceneTime: real): (r: real)
    ensures r >= 0.0
    ensures r == 0.0 <==> sceneTime >= TimerDurationSec
    ensures sceneTime < TimerDurationSec ==> r == TimerDurationSec - sceneTime
  {
    if TimerDurationSec - sceneTime > 0.0 then TimerDurationSec - sceneTime else 0.0
  }

  /** TimerScene of src/GameScenes/TimerScene.ts. */
  class TimerScene {
    var sceneTime: real
    var onTimerUpdated: bool          // a listener is installed
    ghost var timerUpdatedCalls: nat  // times the listener was called

    constructor ()
      ensures sceneTime == 0.0 && Remaining(sceneTime) == TimerDurationSec
      ensures !onTimerUpdated && timerUpdatedCalls == 0
    {
      sceneTime := 0.0;
      onTimerUpdated := false;
      timerUpdatedCalls := 0;
    }

    function RemainingTime(): real
      reads this
    {
      Remaining(sceneTime)
    }

    /**
     * Once 3 s have accumulated, hands off to a Change3DScene and changes
     * nothing; before that, accumulates the tick and tells the listener.
     */
    method Update(durationSec: real) returns (next: Option<Scene>)
      modifies this`sceneTime, this`timerUpdatedCalls
      ensures old(sceneTime) >= TimerDurationSec ==>
        && next == Some(Change3D)
        && sceneTime == old(sceneTime)
        && timerUpdatedCalls == old(timerUpdatedCalls)
      ensures old(sceneTime) < TimerDurationSec ==>
        && next == None
        && sceneTime == old(sceneTime) + durationSec
        && timerUpdatedCalls == old(timerUpdatedCalls) + (if onTimerUpdated then 1 else 0)
    {
      if RemainingTime() <= 0.0 {
        return Some(Change3D);
      }
      sceneTime := sceneTime + durationSec;
      if onTimerUpdated {
        timerUpdatedCalls := timerUpdatedCalls + 1;
      }
      return None;
    }
  }

  /** Outcome of feeding a sequence of ticks to a TimerScene. */
  datatype TimerOutcome =
    | Waiting(sceneTime: real)            // every tick returned null
    | HandedOff(index: nat, sceneTime: real)  // tick `index` returned the Change3DScene

  /** Sum of a sequence of tick durations. */
  function Sum(ds: seq<real>): real
    decreases |ds|
  {
    if ds == [] then 0.0 else ds[0] + Sum(ds[1..])
  }

  /** Ticks `ds` fed one by one to a TimerScene at `sceneTime`, up to the first handoff. */
  function TimerRun(sceneTime: real, ds: seq<real>): TimerOutcome
    decreases |ds|
  {
    if ds == [] then Waiting(sceneTime)
    else if Remaining(sceneTime) <= 0.0 then HandedOff(0, sceneTime)
    else match TimerRun(sceneTime + ds[0], ds[1..])
      case Waiting(t) => Waiting(t)
      case HandedOff(k, t) => HandedOff(k + 1, t)
  }

  /**
   * The timer hands off on tick `k` exactly when the time accumulated by the
   * ticks before `k` has reached 3 s while every earlier prefix stayed
   * below: the tick that crosses 3 s still returns null, and the handoff
   * comes on the next one, with the scene time left where it was.
   */
  lemma {:induction false} TimerRunHandsOff(sceneTime: real, ds: seq<real>)
    ensures TimerRun(sceneTime, ds).HandedOff? <==>
      exists k :: 0 <= k < |ds| && sceneTime + Sum(ds[..k]) >= TimerDurationSec
    ensures TimerRun(sceneTime, ds).HandedOff? ==>
      var k := TimerRun(sceneTime, ds).index;
      && k < |ds|
      && TimerRun(sceneTime, ds).sceneTime == sceneTime + Sum(ds[..k]) >= TimerDurationSec
      && forall j :: 0 <= j < k ==> sceneTime + Sum(ds[..j]) < TimerDurationSec
    ensures TimerRun(sceneTime, ds).Waiting? ==>
      TimerRun(sceneTime, ds).sceneTime == sceneTime + Sum(ds)
    decreases |ds|
  {
    if ds == [] {
    } else if Remaining(sceneTime) <= 0.0 {
      assert ds[..0] == [];
    } else {
      var rest := ds[1..];
      TimerRunHandsOff(sceneTime + ds[0], rest);
      forall j | 0 <= j < |ds|
        ensures sceneTime + Sum(ds[..j]) == if j == 0 then sceneTime else (sceneTime + ds[0]) + Sum(rest[..j - 1])
      {
        if j > 0 {
          assert ds[..j][1..] == rest[..j - 1];
        }
      }
      assert ds[..|ds|] == ds;
      assert ds == [ds[0]] + rest;
      match TimerRun(sceneTime + ds[0], rest)
      case Waiting(t) =>
      case HandedOff(k, t) =>
        assert sceneTime + Sum(ds[..k + 1]) >= TimerDurationSec;
        forall j | 0 <= j < k + 1
          ensures sceneTime + Sum(ds[..j]) < TimerDurationSec
        {
          if j > 0 {
            assert (sceneTime + ds[0]) + Sum(rest[..j - 1]) < TimerDurationSec;
          }
        }
    }
  }

  /** An outcome seen `n` ticks later: a handoff index moves on by `n`. */
  function Later(o: TimerOutcome, n: nat): (r: TimerOutcome)
    ensures r.sceneTime == o.sceneTime
    ensures r.Waiting? <==> o.Waiting?
    ensures o.HandedOff? ==> r.index == o.index + n
  {
    match o
    case Waiting(t) => Waiting(t)
    case HandedOff(k, t) => HandedOff(k + n, t)
  }

  /**
   * Feeds the ticks `ds` to `t` one `update` at a time, stopping at the first
   * one that returns the Change3DScene: the outcome is exactly `TimerRun`,
   * and the listener is called once for every tick that returned null.
   */
  method UpdateAll(t: TimerScene, ds: seq<real>) returns (outcome: TimerOutcome)
    modifies t`sceneTime, t`timerUpdatedCalls
    ensures outcome == TimerRun(old(t.sceneTime), ds)
    ensures t.sceneTime == outcome.sceneTime
    ensures t.timerUpdatedCalls == old(t.timerUpdatedCalls)
      + (if t.onTimerUpdated then (if outcome.HandedOff? then outcome.index else |ds|) else 0)
  {
    var i := 0;
    while i < |ds|
      invariant i <= |ds|
      invariant TimerRun(old(t.sceneTime), ds) == Later(TimerRun(t.sceneTime, ds[i..]), i)
      invariant t.timerUpdatedCalls == old(t.timerUpdatedCalls) + (if t.onTimerUpdated then i else 0)
    {
      assert ds[i..][1..] == ds[i + 1..];
      var next := t.Update(ds[i]);
      if next.Some? {
        return HandedOff(i, t.sceneTime);
      }
      assert Later(TimerRun(t.sceneTime, ds[i + 1..]), 1 + i) == Later(Later(TimerRun(t.sceneTime, ds[i + 1..]), 1), i);
      i := i + 1;
    }
    assert ds[i..] == [];
    return Waiting(t.sceneTime);
  }

  /** OpenCVScene of src/GameScenes/OpenCVScene.ts (its filters are opaque processors). */
  class OpenCVScene {
    var nextScene: Option<Scene>

    constructor ()
      ensures nextScene == None
    {
      nextScene := None;
    }

    /** Starts in edge-filter mode. */
    method Init(cv: Cv.CvEngine)
      modifies cv`userProcessor
      ensures cv.userProcessor == Some(Cv.EdgeFilter)
    {
      UseEdgeFilter(cv);
    }

    method UseEdgeFilter(cv: Cv.CvEngine)
      modifies cv`userProcessor
      ensures cv.userProcessor == Some(Cv.EdgeFilter)
    {
      cv.SetFrameProcessor(Cv.EdgeFilter);
    }

    method UseAnimeFilter(cv: Cv.CvEngine)
      modifies cv`userProcessor
      ensures cv.userProcessor == Some(Cv.AnimeFilter)
    {
      cv.SetFrameProcessor(Cv.AnimeFilter);
    }

    /** Returns the pending request: nothing until `Next` has been called. */
    method Update(durationSec: real) returns (next: Option<Scene>)
      ensures next == nextScene
      ensures next.Some? <==> RequestsChange(OpenCV(this))
    {
      next := nextScene;
    }

    /** Clean-up: the engine's processor slot is left empty. */
    method End(cv: Cv.CvEngine)
      modifies cv`userProcessor
      ensures cv.userProcessor == None
    {
      cv.ClearFrameProcessor();
    }

    /** Requests a switch to a Change3DScene at the next update. */
    method Next()
      modifies this`nextScene
      ensures nextScene == Some(Change3D)
    {
      nextScene := Some(Change3D);
    }
  }
}
