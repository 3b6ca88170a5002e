/**
 * The vision pipeline of src/CvEngine.ts: a rate limiter over integer
 * millisecond time, and the OpenCV engine that reads a video frame into an
 * image handle, optionally preprocesses it, hands it to the single installed
 * frame processor and deletes it.
 *
 * OpenCV itself is opaque: an image handle is a number drawn from an
 * allocator, and what the engine does with handles is recorded in a ghost
 * trace of `FrameEvent`s.
 */
module Cv {
  import opened Wrappers

  /** Interval of the limiter shared by every frame pass (milliseconds). */
  const FrameIntervalMsec: int := 500

  /** Size of the offscreen canvas after `Init`. */
  const InputWidth: int := 1024
  const InputHeight: int := 768

  /** Size of a freshly created canvas element (HTML Living Standard, the canvas element). */
  const DefaultCanvasWidth: int := 300
  const DefaultCanvasHeight: int := 150

  // ---------------------------------------------------------------------------
  // Rate limiting
  // ---------------------------------------------------------------------------

  /** A call at `now` runs its callback when at least `interval` ms have passed since `last`. */
  predicate Due(interval: int, last: int, now: int)
  {
    now - last >= interval
  }

  /**
   * The times, among `calls`, at which a limiter whose last firing was at
   * `last` runs its callback: the trace semantics of repeated `Execute`.
   */
  function Firings(interval: int, last: int, calls: seq<int>): (fired: seq<int>)
    ensures |fired| <= |calls|
    decreases |calls|
  {
    if calls == [] then []
    else if Due(interval, last, calls[0]) then [calls[0]] + Firings(interval, calls[0], calls[1..])
    else Firings(interval, last, calls[1..])
  }

  /** Each of `fs` is at least `interval` after the one before it (the first, after `last`). */
  predicate Spaced(interval: int, last: int, fs: seq<int>)
  {
    && (|fs| > 0 ==> fs[0] - last >= interval)
    && forall i :: 0 < i < |fs| ==> fs[i] - fs[i - 1] >= interval
  }

  /** Successive firings of a limiter are spaced by its interval. */
  lemma {:induction false} FiringsSpaced(interval: int, last: int, calls: seq<int>)
    ensures Spaced(interval, last, Firings(interval, last, calls))
    decreases |calls|
  {
    if calls != [] {
      if Due(interval, last, calls[0]) {
        var rest := Firings(interval, calls[0], calls[1..]);
        FiringsSpaced(interval, calls[0], calls[1..]);
        var fs := [calls[0]] + rest;
        assert Firings(interval, last, calls) == fs;
        forall i | 1 < i < |fs|
          ensures fs[i] - fs[i - 1] >= interval
        {
          assert fs[i] == rest[i - 1] && fs[i - 1] == rest[i - 2];
        }
      } else {
        FiringsSpaced(interval, last, calls[1..]);
      }
    }
  }

  /** With a non-negative interval, any two firings are at least `interval` apart. */
  lemma FiringsApart(interval: int, last: int, calls: seq<int>, i: nat, j: nat)
    requires interval >= 0
    requires i < j < |Firings(interval, last, calls)|
    ensures Firings(interval, last, calls)[j] - Firings(interval, last, calls)[i] >= interval
    decreases j - i
  {
    var fs := Firings(interval, last, calls);
    FiringsSpaced(interval, last, calls);
    assert fs[j] - fs[j - 1] >= interval;
    if i < j - 1 {
      FiringsApart(interval, last, calls, i, j - 1);
    }
  }

  /** A limiter only ever fires at a time at which it was called. */
  lemma {:induction false} FiringsAreCalls(interval: int, last: int, calls: seq<int>)
    ensures forall f :: f in Firings(interval, last, calls) ==> f in calls
    decreases |calls|
  {
    if calls != [] {
      if Due(interval, last, calls[0]) {
        FiringsAreCalls(interval, calls[0], calls[1..]);
      } else {
        FiringsAreCalls(interval, last, calls[1..]);
      }
    }
  }

  /**
   * The shared limiter (500 ms, last execution 0) called at 0, 100, 400 and
   * 600 ms fires only at 600: the call at 0 is not due, because nothing
   * marks the limiter as never having fired.
   */
  lemma FiringsAtSampleTimes()
    ensures Firings(FrameIntervalMsec, 0, [0, 100, 400, 600]) == [600]
  {
    var calls := [0, 100, 400, 600];
    assert calls[1..] == [100, 400, 600];
    assert calls[1..][1..] == [400, 600];
    assert calls[1..][1..][1..] == [600];
    assert Firings(500, 600, []) == [];
  }

  /**
   * A fresh limiter fires on its first call exactly when that call comes at
   * least `interval` ms after time 0, which every real clock reading does.
   */
  lemma FirstCallFires(interval: int, calls: seq<int>)
    requires calls != []
    ensures Firings(interval, 0, calls) != [] && Firings(interval, 0, calls)[0] == calls[0]
      <==> calls[0] >= interval
  {
    if calls[0] < interval {
      FiringsSpaced(interval, 0, calls[1..]);
    }
  }

  /**
   * The shared limiter called at `t0`, 100, 400 and 600 ms later, with `t0`
   * a clock reading of at least 500: the first call fires, and so does the
   * last, 600 ms after it; the two in between are swallowed.
   */
  lemma FiringsFromClockTime(t0: int)
    requires t0 >= FrameIntervalMsec
    ensures Firings(FrameIntervalMsec, 0, [t0, t0 + 100, t0 + 400, t0 + 600]) == [t0, t0 + 600]
  {
    var calls := [t0, t0 + 100, t0 + 400, t0 + 600];
    assert calls[1..] == [t0 + 100, t0 + 400, t0 + 600];
    assert calls[1..][1..] == [t0 + 400, t0 + 600];
    assert calls[1..][1..][1..] == [t0 + 600];
    assert Firings(500, t0, [t0 + 600]) == [t0 + 600];
    assert Firings(500, t0, calls[1..]) == [t0 + 600];
  }

  /** `RateLimiter` of src/CvEngine.ts: runs a callback at most once per `interval` ms. */
  class RateLimiter {
    var lastExecutionTime: int
    const interval: int

    constructor (intervalMillisec: int)
      ensures interval == intervalMillisec && lastExecutionTime == 0
    {
      interval := intervalMillisec;
      lastExecutionTime := 0;
    }

    /** Whether a call at `now` would run its callback. */
    predicate Allows(now: int)
      reads this
    {
      Due(interval, lastExecutionTime, now)
    }

    /**
     * A call at `now`; `fired` says whether the callback runs. The caller runs
     * it (see `CvEngine.ProcessVideoFrame`); the callback does not touch the
     * limiter, so recording `now` here rather than after it returns leaves the
     * same state.
     */
    method Execute(now: int) returns (fired: bool)
      modifies this`lastExecutionTime
      ensures fired == old(Allows(now))
      ensures lastExecutionTime == if fired then now else old(lastExecutionTime)
    {
      fired := Allows(now);
      if fired {
        lastExecutionTime := now;
      }
    }
  }

  /**
   * Calls `l` at each of `calls` in turn and collects the times at which its
   * callback ran: exactly `Firings`, with the limiter left at the last one.
   */
  method ExecuteAll(l: RateLimiter, calls: seq<int>) returns (fired: seq<int>)
    modifies l`lastExecutionTime
    ensures fired == Firings(l.interval, old(l.lastExecutionTime), calls)
    ensures l.lastExecutionTime == if fired == [] then old(l.lastExecutionTime) else fired[|fired| - 1]
  {
    fired := [];
    var i := 0;
    while i < |calls|
      invariant i <= |calls|
      invariant fired + Firings(l.interval, l.lastExecutionTime, calls[i..])
        == Firings(l.interval, old(l.lastExecutionTime), calls)
      invariant l.lastExecutionTime == if fired == [] then old(l.lastExecutionTime) else fired[|fired| - 1]
    {
      assert calls[i..][1..] == calls[i + 1..];
      var f := l.Execute(calls[i]);
      if f {
        assert fired + ([calls[i]] + Firings(l.interval, calls[i], calls[i + 1..]))
          == (fired + [calls[i]]) + Firings(l.interval, calls[i], calls[i + 1..]);
        fired := fired + [calls[i]];
      }
      i := i + 1;
    }
    assert calls[i..] == [];
  }

  // ---------------------------------------------------------------------------
  // Frame pass
  // ---------------------------------------------------------------------------

  /** The frame processors the scenes install: the edge filter and the anime filter. */
  datatype Processor = EdgeFilter | AnimeFilter

  /** What the engine does with OpenCV and its delegate, in order. */
  datatype FrameEvent =
    | Read(handle: nat)                         // cv.imread of the offscreen canvas
    | Preprocessed(input: nat, output: nat)     // delegate.preprocessFrame replaced the handle
    | Processed(processor: Processor, handle: nat)
    | Deleted(handle: nat)                      // img.delete()
    | ContextMissing                            // getContext('2d') failed; logged

  /** Position of an event within one frame pass. */
  function Stage(e: FrameEvent): nat
  {
    match e
    case Read(_) => 0
    case Preprocessed(_, _) => 1
    case Processed(_, _) => 2
    case Deleted(_) => 3
    case ContextMissing => 4
  }

  /**
   * One firing pass of the callback handed to the limiter: `contextOk` is
   * whether getContext('2d') succeeded, `h` the handle cv.imread returns, and
   * `pre` the handle the delegate's preprocessFrame returns when it has one.
   */
  function FramePass(contextOk: bool, processor: Option<Processor>, preprocess: bool, h: nat, pre: nat)
    : (ev: seq<FrameEvent>)
    ensures forall i, j :: 0 <= i < j < |ev| ==> Stage(ev[i]) < Stage(ev[j])
    ensures !contextOk ==> forall e :: e in ev ==> !e.Read? && !e.Processed? && !e.Deleted?
    ensures contextOk ==>
      var current := if preprocess then pre else h;
      && |ev| >= 2
      && ev[0] == Read(h)
      && ev[|ev| - 1] == Deleted(current)
      && (Preprocessed(h, pre) in ev <==> preprocess)
      && (forall e :: e in ev && e.Processed? ==> processor.Some? && e == Processed(processor.value, current))
      && (processor.Some? ==> Processed(processor.value, current) in ev)
    ensures contextOk && processor.None? && !preprocess ==> ev == [Read(h), Deleted(h)]
    ensures contextOk && preprocess && pre != h ==> Deleted(h) !in ev
  {
    if !contextOk then
      [ContextMissing]
    else
      var current := if preprocess then pre else h;
      [Read(h)]
      + (if preprocess then [Preprocessed(h, pre)] else [])
      + (if processor.Some? then [Processed(processor.value, current)] else [])
      + [Deleted(current)]
  }

  /** The optional capabilities of the engine's delegate. */
  datatype CvEngineDelegate = CvEngineDelegate(onInitialized: bool, preprocessFrame: bool)

  predicate Preprocesses(d: Option<CvEngineDelegate>)
  {
    d.Some? && d.value.preprocessFrame
  }

  predicate NotifiesInitialized(d: Option<CvEngineDelegate>)
  {
    d.Some? && d.value.onInitialized
  }

  /** `CvEngine` of src/CvEngine.ts, with the module-wide limiter as a field. */
  class CvEngine {
    var delegate: Option<CvEngineDelegate>
    var canvasWidth: int
    var canvasHeight: int
    var runtimeCallbackSet: bool   // cv.onRuntimeInitialized installed
    var initialized: bool
    var userProcessor: Option<Processor>
    var nextHandle: nat            // allocator behind cv.imread
    const limiter: RateLimiter
    ghost var events: seq<FrameEvent>
    ghost var initNotices: seq<bool>  // each delegate.onInitialized call, with `initialized` at that moment

    constructor ()
      ensures fresh(limiter)
      ensures limiter.interval == FrameIntervalMsec && limiter.lastExecutionTime == 0
      ensures delegate == None && userProcessor == None
      ensures !initialized && !runtimeCallbackSet
      ensures canvasWidth == DefaultCanvasWidth && canvasHeight == DefaultCanvasHeight
      ensures events == [] && initNotices == []
    {
      delegate := None;
      canvasWidth, canvasHeight := DefaultCanvasWidth, DefaultCanvasHeight;
      runtimeCallbackSet := false;
      initialized := false;
      userProcessor := None;
      nextHandle := 0;
      limiter := new RateLimiter(FrameIntervalMsec);
      events := [];
      initNotices := [];
    }

    /** Installs the runtime-ready callback and sizes the offscreen canvas. */
    method Init()
      modifies this`runtimeCallbackSet, this`canvasWidth, this`canvasHeight
      ensures runtimeCallbackSet
      ensures canvasWidth == InputWidth && canvasHeight == InputHeight
    {
      runtimeCallbackSet := true;
      canvasWidth := InputWidth;
      canvasHeight := InputHeight;
    }

    /**
     * The callback `Init` installs, run by the OpenCV runtime once it is
     * ready: the delegate hears of it while `initialized` is still the old
     * value, and only then does the engine start accepting frames.
     */
    method OnRuntimeInitialized()
      requires runtimeCallbackSet
      modifies this`initialized, this`initNotices
      ensures initialized
      ensures initNotices == old(initNotices)
        + (if NotifiesInitialized(delegate) then [old(initialized)] else [])
    {
      if NotifiesInitialized(delegate) {
        initNotices := initNotices + [initialized];
      }
      initialized := true;
    }

    /** Installing a processor replaces whatever was installed. */
    method SetFrameProcessor(p: Processor)
      modifies this`userProcessor
      ensures userProcessor == Some(p)
    {
      userProcessor := Some(p);
    }

    method ClearFrameProcessor()
      modifies this`userProcessor
      ensures userProcessor == None
    {
      userProcessor := None;
    }

    /**
     * The frame pass of `ProcessVideoFrame`: copy the video into the canvas,
     * read it, preprocess, process, delete.
     */
    method Capture(contextOk: bool, pre: nat)
      modifies this`nextHandle, this`events
      ensures nextHandle == if contextOk then old(nextHandle) + 1 else old(nextHandle)
      ensures events == old(events)
        + FramePass(contextOk, userProcessor, Preprocesses(delegate), old(nextHandle), pre)
    {
      if contextOk {
        var img := nextHandle;
        nextHandle := nextHandle + 1;
        events := events + [Read(img)];
        if Preprocesses(delegate) {
          events := events + [Preprocessed(img, pre)];
          img := pre;
        }
        if userProcessor.Some? {
          events := events + [Processed(userProcessor.value, img)];
        }
        events := events + [Deleted(img)];
      } else {
        events := events + [ContextMissing];
      }
    }

    /**
     * Called for every captured video frame at time `now`. Nothing happens,
     * and the limiter is not consulted, until the runtime is ready; then a
     * pass runs whenever the limiter allows it. A pass whose context is
     * missing still counts as a firing.
     */
    method ProcessVideoFrame(now: int, contextOk: bool, pre: nat)
      modifies this`nextHandle, this`events, limiter`lastExecutionTime
      ensures !old(initialized) ==>
        && events == old(events)
        && nextHandle == old(nextHandle)
        && limiter.lastExecutionTime == old(limiter.lastExecutionTime)
      ensures old(initialized) ==>
        var fired := old(limiter.Allows(now));
        && limiter.lastExecutionTime == (if fired then now else old(limiter.lastExecutionTime))
        && nextHandle == old(nextHandle) + (if fired && contextOk then 1 else 0)
        && events == old(events)
          + (if fired then FramePass(contextOk, userProcessor, Preprocesses(delegate), old(nextHandle), pre)
             else [])
    {
      if !initialized {
        return;
      }
      var fired := limiter.Execute(now);
      if fired {
        Capture(contextOk, pre);
      }
    }
  }
}
