# Scene state machine and frame scheduling of an AR.js / OpenCV web demo

This project is a Dafny model of the core of a small browser application. The application shows a camera feed with AR.js markers and three.js models, and it runs OpenCV filters on the video frames. The core modelled here has three parts.

- **The scene host** (`GameEngine`). It holds exactly one current scene and ticks it. When the scene's `update` returns a replacement, the host runs a fixed protocol: the outgoing scene's `end`, the swap, the incoming scene's `init`, then the delegate's `onSceneChanged`. A member that is absent is skipped.
- **The three concrete scenes.**
  - `TimerScene` counts three seconds and then hands off to a `Change3DScene`.
  - `Change3DScene` goes back to a fresh `TimerScene` only when `back` is called. Its `model1` and `model2` swap the displayed 3D model.
  - `OpenCVScene` installs a frame processor in `init`, clears it in `end`, and requests a change through `next`.
- **The two engines.**
  - `CvEngine` throttles video frames through a 500 ms rate limiter. Each firing pass reads one image, preprocesses it at most once, processes it at most once and deletes the current handle.
  - `AREngine` runs a frame clock that clamps the delta at 200 ms. It keeps an append-only list of hooks, calls every hook once per frame, guards the `render` hook and each `update_ar` hook (one per `startAR` call, bound to the camera source that call made), swaps the model root in `replaceScene`, and decides the source orientation.

The model is made of modules, one per source file or group of files:

| module | file | models |
|---|---|---|
| `Wrappers` | `wrappers.dfy` | `Option`, which stands for `T \| null` and for optional members. |
| `Cv` | `cv_engine.dfy` | `src/CvEngine.ts` |
| `Scenes` | `scenes.dfy` | The `GameScene` contract and `EmptyScene` of `src/GameEngine.ts`, plus `TimerScene`, `OpenCVScene` and the name of `Change3DScene`. They share one module because `TimerScene.update` returns a `Change3DScene` and the `Scene` type refers to both classes. |
| `Game` | `game_engine.dfy` | `GameEngine` |
| `Ar` | `ar_engine.dfy` | `src/AREngine.ts` |
| `Change3DScene` | `change3d_scene.dfy` | `back`, `model1` and `model2` |

How the source's constructs map to the model:

- The classes whose fields change in place stay classes: `GameEngine`, `TimerScene`, `OpenCVScene`, `RateLimiter`, `CvEngine`, `AREngine`, and the closure variable `lastTimeMsec` as `FrameClock`. Their methods carry field-level `modifies` clauses. The exception is `GameEngine.Update`, which may change the current scene's own object; its `ensures` say which of that object's fields change and how.
- A scene is a `Scene` value, `Empty | Timer(t) | Change3D | OpenCV(o)`. Which optional members a scene defines is given by `HasInit`, `HasUpdate` and `HasEnd`.
- The external libraries (three.js, AR.js, OpenCV and the DOM) are opaque. Their observable effects are recorded in ghost traces of events:
  - `SceneEvent`: `Ended`, `Swapped`, `Inited` and `Notified`.
  - `FrameEvent`: `Read`, `Preprocessed`, `Processed`, `Deleted` and `ContextMissing`. The calls of the delegate's `onInitialized` are kept apart, in `initNotices`.
  - `ArEvent`: `HookCalled`, `Animated`, `RenderNotified`, `Drawn`, `TrackerUpdated` and `FrameCaptured`. The last two carry the number of the camera source.
- An OpenCV image is a handle number drawn from a counter.
- A frame processor is the tag `EdgeFilter` or `AnimeFilter`.
- The scene graph is a sequence of children, in which only the model roots made by `replaceScene` are told apart.

Time is modelled as follows:

- `Date.now()` becomes an integer millisecond parameter.
- Animation-frame timestamps are `real` milliseconds.
- Scene durations are `real` seconds.
- `lastTimeMsec` is `0.0` while it is unset. JavaScript's `||` treats "unset" and `0` alike, so the model does the same.

The singletons are passed explicitly as parameters. `AREngine.getSingleton` is modelled on its own as the holder class `AREngineInstance`.

Two details of the code shape the model:

- **The limiter's first call.** `lastExecutionTime` starts at 0 rather than at "never", so a fresh limiter's first call fires unless it comes less than `interval` ms after time 0 (`Cv.FirstCallFires`). Real `Date.now()` readings are far past 500, so in practice the first call fires (`Cv.FiringsFromClockTime`); a call at 0 would not (`Cv.FiringsAtSampleTimes`).
- **Releasing the image.** Only the handle current after preprocessing is deleted, and there is no `try`/`finally` (`Cv.FramePass`).

## Model

| member | source | states |
|---|---|---|
| Cv.Firings | src/CvEngine.ts:27-33 | A run of limiter calls fires at most once per call. The firings are the calls at which at least `interval` ms have passed since the last firing. |
| Cv.FiringsSpaced | src/CvEngine.ts:29-31 | The first firing is at least `interval` after the initial `lastExecutionTime`. Each later firing is at least `interval` after the one before it. |
| Cv.FiringsApart | src/CvEngine.ts:29-36 | Any two firings of one limiter, not only neighbouring ones, are at least `interval` ms apart. |
| Cv.FiringsAreCalls | src/CvEngine.ts:27-33 | A limiter fires only at times at which it was called. |
| Cv.FiringsAtSampleTimes | src/CvEngine.ts:19-36 | The shared 500 ms limiter, with `lastExecutionTime` 0, called at 0, 100, 400 and 600 fires only at 600. |
| Cv.FirstCallFires | src/CvEngine.ts:19-31 | With `lastExecutionTime` starting at 0, a fresh limiter fires on its first call exactly when that call comes at least `interval` ms after time 0. |
| Cv.FiringsFromClockTime | src/CvEngine.ts:19-36 | The shared 500 ms limiter called at a clock reading `t0` of at least 500, and again 100, 400 and 600 ms later, fires at `t0` and at `t0 + 600` only. |
| Cv.RateLimiter.constructor | src/CvEngine.ts:19-24 | A new limiter keeps the given interval and has `lastExecutionTime` 0. |
| Cv.RateLimiter.Execute | src/CvEngine.ts:27-33 | The callback runs exactly when `now - lastExecutionTime >= interval`. The timestamp becomes `now` only on a firing call; a skipped call changes nothing. |
| Cv.ExecuteAll | src/CvEngine.ts:27-33 | Calling `execute` at each of a run of times, one after another, runs the callback at exactly the times `Firings` gives, and leaves `lastExecutionTime` at the last of them, or as it was if none fired. |
| Cv.FramePass | src/CvEngine.ts:86-101 | With a context, one image is read first and the current handle is deleted last. `Preprocessed` appears exactly when the delegate preprocesses. The processor runs only when installed, and only on the current handle. When the handle is replaced, the original is not deleted. With no processor and no preprocessing, the pass is exactly read then delete. Without a context, nothing is read, processed or deleted. Events never go back a stage. |
| Cv.CvEngine.constructor | src/CvEngine.ts:36-55 | A new engine has a fresh 500 ms limiter with `lastExecutionTime` 0 and no processor. It is not initialised and has a 300×150 canvas. |
| Cv.CvEngine.Init | src/CvEngine.ts:58-66 | `init` installs the runtime-ready callback and sizes the input canvas to 1024×768. |
| Cv.CvEngine.OnRuntimeInitialized | src/CvEngine.ts:59-62 | The delegate's `onInitialized` is called, when it is defined, while `initialized` still has its old value; the call is recorded in `initNotices` with that value. Only afterwards does `initialized` become true. |
| Cv.CvEngine.SetFrameProcessor | src/CvEngine.ts:68-70 | The slot holds exactly the new processor; the one before it is replaced, not composed with it. |
| Cv.CvEngine.ClearFrameProcessor | src/CvEngine.ts:72-74 | The processor slot is empty. |
| Cv.CvEngine.Capture | src/CvEngine.ts:86-101 | The pass appends exactly `FramePass` to the trace. It allocates one handle when the context exists and none otherwise. |
| Cv.CvEngine.ProcessVideoFrame | src/CvEngine.ts:77-105 | Before initialisation, nothing changes and the limiter is not consulted. After it, the limiter decides, and a firing call appends one `FramePass`. A pass without a context still consumes the rate window. One image handle is used exactly when the call fires and the context exists. |
| Scenes.Name | src/GameScenes/TimerScene.ts:19 | Each scene reports its own name, and only that scene reports it: "Empty", "Timer", "Change3DScene" and "OpenCVScene". |
| Scenes.Remaining | src/GameScenes/TimerScene.ts:8-10 | `max(0, 3 - sceneTime)`. It is never negative, it is 0 exactly when 3 s have passed, and it is `3 - sceneTime` before that. |
| Scenes.TimerScene.constructor | src/GameScenes/TimerScene.ts:5-6 | A new timer has `sceneTime` 0 and hence 3 s remaining, and no listener. |
| Scenes.TimerScene.Update | src/GameScenes/TimerScene.ts:11-18 | Once 3 s have passed, `update` returns a `Change3DScene` and leaves the time and the listener alone. Before that, it adds the tick, calls the listener if one is installed, and returns null. |
| Scenes.TimerRunHandsOff | src/GameScenes/TimerScene.ts:11-18 | Over any run of ticks, the timer hands off on tick `k` exactly when the ticks before `k` add up to at least 3 s and every shorter prefix stays below 3 s. So the hand-off comes on the tick after the one that crosses 3 s, and no tick is lost before it. |
| Scenes.UpdateAll | src/GameScenes/TimerScene.ts:11-18 | Calling `update` with each of a run of ticks, one after another, until one returns the `Change3DScene`, ends exactly as `TimerRun` says, with the scene time it gives. The listener is called once for every tick that returned null. |
| Scenes.OpenCVScene.constructor | src/GameScenes/OpenCVScene.ts:22 | A new scene has no pending request. |
| Scenes.OpenCVScene.Init | src/GameScenes/OpenCVScene.ts:24-26 | `init` installs the edge processor. |
| Scenes.OpenCVScene.UseEdgeFilter | src/GameScenes/OpenCVScene.ts:28-32 | The engine's slot holds the edge processor. |
| Scenes.OpenCVScene.UseAnimeFilter | src/GameScenes/OpenCVScene.ts:34-38 | The engine's slot holds the anime processor, replacing whatever was there. |
| Scenes.OpenCVScene.Update | src/GameScenes/OpenCVScene.ts:115-117 | `update` returns the pending request, and it requests a change exactly when `next` has been called. |
| Scenes.OpenCVScene.End | src/GameScenes/OpenCVScene.ts:120-124 | `end` leaves the processor slot empty. |
| Scenes.OpenCVScene.Next | src/GameScenes/OpenCVScene.ts:127-130 | After `next`, the following `update` returns a `Change3DScene`. |
| Game.TransitionProtocol | src/GameEngine.ts:52-58 | The protocol of one change: end, swap, init, notify, strictly in that order. The swap always happens. `end` happens exactly when the outgoing scene defines it, `init` exactly when the incoming scene defines it, and the notification exactly when the delegate listens. Each happens at most once, and only with those two scenes. |
| Game.GameEngine.constructor | src/GameEngine.ts:23-38 | The engine starts on an `EmptyScene`, with no delegate and an empty trace. |
| Game.GameEngine.Init | src/GameEngine.ts:40-42 | A fresh `TimerScene` with `sceneTime` 0 becomes current through the change protocol. |
| Game.GameEngine.Update | src/GameEngine.ts:44-50 | If the scene requests no change (Empty, `Change3DScene` without `update`, a timer below 3 s, or an `OpenCVScene` without `next`), the scene, the trace and the processor slot stay as they were. Otherwise the engine changes to exactly the scene the `update` returned, through the protocol. A timer below 3 s gains the tick and calls its listener once if it has one; a timer at 3 s keeps its time and listener count. An `OpenCVScene` keeps its pending request. |
| Game.GameEngine.ChangeScene | src/GameEngine.ts:52-58 | The new scene is current and the trace gains exactly `TransitionEvents`. The processor slot is cleared when an `OpenCVScene` ends, and holds the edge processor when one starts. |
| Game.RunSwapsInOrder | src/GameEngine.ts:52-58 | Over any sequence of changes, the scenes become current in the order requested. A listening delegate hears of each of them exactly once, in the same order, and a non-listening one hears of none. |
| Game.RunLocallyOrdered | src/GameEngine.ts:52-58 | Over any sequence of changes, each `end` is immediately followed by the swap. Each `init` comes right after the swap to its scene, and each notification right after that swap or that `init`. |
| Change3DScene.Model1 | src/GameScenes/Change3DScene.ts:12-14 | The AR engine shows the first test model as the only model root. No other child of the scene is lost. |
| Change3DScene.Model2 | src/GameScenes/Change3DScene.ts:16-18 | The same, for the second test model. |
| Change3DScene.Back | src/GameScenes/Change3DScene.ts:20-23 | A fresh `TimerScene` with `sceneTime` 0 becomes current. Leaving a `Change3DScene` ends nothing, inits nothing and leaves the processor slot alone; only the swap and, if the delegate listens, the notification are recorded. |
| Ar.FrameDelta | src/AREngine.ts:112-113 | The delta is `min(200, now - previous)`, where the previous time defaults to `now - 1000/60` while unset or 0. It never exceeds 200 ms or the elapsed time. |
| Ar.DeltasBounded | src/AREngine.ts:113-118 | Over any sequence of frames, no hook is handed more than 0.2 s. |
| Ar.DeltasNeverGainTime | src/AREngine.ts:112-114 | Over frames with non-zero timestamps, the deltas add up to at most the time actually elapsed since the first frame's reference point. |
| Ar.FrameClock.constructor | src/AREngine.ts:109 | The clock starts unset. |
| Ar.FrameClock.Tick | src/AREngine.ts:111-114 | Returns `FrameDelta` of the previous and current time, then records the current frame's time. |
| Ar.TickAll | src/AREngine.ts:110-114 | Measuring a run of frames one after another yields exactly `Deltas`, and leaves the clock at the last frame's time. |
| Ar.RenderEvents | src/AREngine.ts:99-105 | `render` does nothing without a camera. With a camera, it animates the current model, if any, with the delta, then calls `onRender` exactly when the delegate defines it, and draws last. |
| Ar.UpdateArEvents | src/AREngine.ts:260-270 | An `update_ar` does nothing until its own camera source is ready, whatever other sources are. After that, it updates the tracker from that source first, then passes on the frame exactly when that call's video element is known and the delegate takes it. |
| Ar.FrameCallsEveryHookInOrder | src/AREngine.ts:116-119 | In one frame, every registered hook is called exactly once, in list order, with the same delta. |
| Ar.SourceOrientation | src/AREngine.ts:240-258 | "" without a source. Otherwise "landscape" exactly when the video is wider than tall, and "portrait" exactly when it is not; a square video counts as portrait. |
| Ar.RemoveChild | src/AREngine.ts:52-54 | Removing a child takes out one occurrence of it, and nothing else. |
| Ar.RemoveChildFirst | src/AREngine.ts:52-54 | Removing a child cuts out its first occurrence and keeps the other children in order; removing a child that is not there changes nothing. |
| Ar.SwapKeepsOneRoot | src/AREngine.ts:49-60 | After the swap, exactly one model root is in the scene, the new one holding the new tree. All other children remain. |
| Ar.AREngine.constructor | src/AREngine.ts:23-35 | A new engine has an empty, visible scene, no model, no camera and no hooks. |
| Ar.AREngine.ReplaceScene | src/AREngine.ts:49-60 | The previous base node leaves the scene and a fresh root holding the new tree joins it as the only model root. `arScene` is the new tree, and no other child is lost. |
| Ar.AREngine.SetupRenderer | src/AREngine.ts:62-106 | With the mount element missing, nothing is registered and no clock starts. Otherwise the renderer and camera exist, a light and three arrows join the scene, `render` is appended to the hooks, and a clock starts unset. |
| Ar.AREngine.StartAR | src/AREngine.ts:135-277 | A camera exists and joins the scene. A new camera source is made, not yet ready and with no video element, and an `update_ar` bound to it is appended to the hooks. |
| Ar.AREngine.OnSourceInit | src/AREngine.ts:211-223 | The video element of that source is known to its `update_ar`; the others are unchanged. |
| Ar.AREngine.OnSourceReady | src/AREngine.ts:261 | That source counts as ready for its `update_ar`; the others are unchanged. |
| Ar.AREngine.Render | src/AREngine.ts:99-105 | The trace gains exactly `RenderEvents` of the current state. |
| Ar.AREngine.UpdateAr | src/AREngine.ts:260-274 | The trace gains exactly `UpdateArEvents` for that call's source, and the scene is visible once that source is ready. |
| Ar.AREngine.RunHook | src/AREngine.ts:117-118 | Calling a registered hook records the call with its delta, then runs exactly the closure it names. |
| Ar.AREngine.RunHooks | src/AREngine.ts:116-119 | The trace gains every hook's call, in list order, with one delta. The scene is visible afterwards if it was before, or if some registered `update_ar` is bound to a ready source. |
| Ar.AREngine.Animate | src/AREngine.ts:110-123 | One frame: the clock records `now`, and every hook runs once with `FrameDelta / 1000` seconds. |
| Ar.AREngineInstance.GetSingleton | src/AREngine.ts:38-44 | The first call creates the engine; every later call returns that same engine. |

## Left out

- three.js plumbing is not modelled: renderer sizing, projection matrices, window resize handlers, and the geometry of the light and arrows. The light, the arrows and the AR camera are only opaque children of the scene.
- The AR.js start-up is not modelled: `ArToolkitSource`/`ArToolkitContext` construction, `initARContext`, the `canplay` listener, the 2 s `setTimeout`, the `markerFound` listener and the `window.*` globals. These are asynchronous callbacks into an opaque library. Only their effects on `update_ar` are kept, as `OnSourceInit` and `OnSourceReady`.
- The OpenCV filter bodies `edgeDetect`, `animeFilter`, `posterize` and `show` are left out. They call a foreign image library and the DOM, so a processor is an opaque tag. Showing and hiding the output canvas in `show` and `end` is left out for the same reason.
- `requestAnimationFrame` re-arming is left out: `Animate` is one frame, and the browser calls it again.
- `Date.now()`, `cv.imread` and `drawImage` are not modelled. They become parameters (the time, whether the 2D context exists, and the handle that preprocessing returns) and a handle counter.
- `GameEngine.getSingleton` and `CvEngine.getSingleton` are not modelled. They follow the same pattern as `AREngine.getSingleton`, which is, and the engines are passed explicitly.
- The module-level `rate_limiter` is a field of the engine rather than a global. There is only one engine, so the two are the same.
- Floating point is not modelled: `sceneTime` and the deltas are exact reals.
- Exceptions are not modelled. Nothing releases the image if the processor throws, and the model claims no such release.
- `src/GameScene.ts` and `src/TestMain.ts` are not part of this model. They hold demo classes that only log, and a scratch harness.
- Cv.RateLimiter.Execute: records the timestamp before the caller runs the callback. The source records it after the callback returns. The callback never touches the limiter, so the final state is the same.
- Cv.FramePass: a handle that `preprocessFrame` replaces is never deleted, as in the code. Whether the delegate frees it is outside the model.
- Ar.SourceOrientation: the "no source" case cannot arise inside `startAR`, where the source always exists. It is kept because the code tests for it. The code stores the result in `arController.orientatio`, a misspelt property name, so the orientation never reaches the controller's `orientation` option; the model computes the value only.
