# EyeTrackVR (Pimax) capture worker, modelled in Dafny

The capture worker in `EyeTrackApp/camera_pimax.py` runs one eye's capture loop. It watches a
cancellation flag and the configured capture source. It hooks the eye's preview window when
needed. It then waits briefly for a consumer to set the capture-request flag. When a request
comes, it captures the window's picture, shrinks it to 75% and puts `(image, frame_number, fps)`
on the output queue.

The project models this loop. The window hook and the picture capture are operating-system calls,
so each iteration receives five inputs:

- whether cancellation is set;
- the configured source (`None`, `""` or a name);
- whether a consumer sets the request flag during the 20 ms wait;
- whether the hook succeeds;
- whether the capture succeeds.

- `geometry.dfy`, module `WindowGeometry`: pure arithmetic. It covers the eye-window title, the
  borders measured when a window is hooked, the crop that `get_image` applies (with Python's
  slice clamping) and the 75% shrink.
- `camera.dfy`, module `CameraPimax`: the worker's state as a value (`Worker`) and one pure
  function per source routine (`PushImage`, `WiredPicture`, `StepSpec`, `RunSpec`). It also has
  the class `Camera`. Its fields are the ones `Camera` updates in place, and its methods
  `PushImageToQueue`, `GetWiredCameraPicture`, `Step` (one loop iteration) and `Run` (the loop)
  are each proved equal to those functions.
- `properties.dfy`, module `CaptureProperties`: lemmas over one iteration and over any number of
  iterations. These cover the queue invariant, append-only growth, request coalescing, that an
  unconfigured, never-hooked worker queues nothing, rehook on source change, and a full
  connect/deliver/fail/reconnect cycle.

Behaviour of the code as written, which the model follows:

- `CONNECTED` is set on the iteration that hooks the window, which never delivers a frame. A
  delivered frame leaves the status as it was.
- The throwaway capture made while hooking also advances `frame_number`. So a new worker's
  first delivered frame carries number 2, not 1. Every hook uses up one number: frame numbers
  are consecutive between hooks and skip one across a hook (after a rehook at counter n, the
  next frame is n + 2).
- The backpressure warning is given when more than one frame is already waiting (`qsize > 1`),
  not more than two.
- A failed hook, or a failed throwaway capture while hooking, is outside the `try`. It ends the
  loop with an exception (`Raised`) rather than being retried.
- A failed requested capture sets `DISCONNECTED` and leaves the request flag set. So the pending
  request is served after the next rehook.
- An empty or absent source only skips hooking. If a window was hooked earlier, requests are
  still served from it. If none was ever hooked, the capture fails and the worker becomes
  `DISCONNECTED`.

## Model

| member | source | states |
|---|---|---|
| `WindowGeometry.EyeWindowName` | EyeTrackApp/camera_pimax.py:68-73 | the window looked for is "draw Image2" exactly when the index is positive, otherwise "draw Image1" |
| `WindowGeometry.BordersOf` | EyeTrackApp/camera_pimax.py:44-53 | borders are client edge minus window edge; adding them back to the window gives the client rectangle; for a client inside its window, left/top are non-negative and right/bottom non-positive |
| `WindowGeometry.SliceBound` | EyeTrackApp/camera_pimax.py:88 | a slice bound lands in `[0, n]`: unchanged inside the axis, counted from the end when negative, clamped beyond either end |
| `WindowGeometry.SliceLength` | EyeTrackApp/camera_pimax.py:88 | a slice keeps at most the axis length, nothing exactly when its normalised stop is not after its start, and `stop - start` for in-range bounds |
| `WindowGeometry.CroppedSize` | EyeTrackApp/camera_pimax.py:88 | the crop `[1+top, H+bottom) x [1+left, W+right)` is never larger than the bitmap |
| `WindowGeometry.Scaled` | EyeTrackApp/camera_pimax.py:173-175 | a shrunk dimension is the floor of 75% of the original, never larger than it and strictly smaller for a positive dimension |
| `WindowGeometry.FrameSize` | EyeTrackApp/camera_pimax.py:172-176 | the queued picture (crop, then 75%) is never larger than the window bitmap |
| `WindowGeometry.CropOfHookedWindow` | EyeTrackApp/camera_pimax.py:44-88 | for a bitmap of the whole window, the crop is the client area without its first row and first column |
| `CameraPimax.PushImage` | EyeTrackApp/camera_pimax.py:187-196 | the frame is always appended; a warning carrying the old size is given exactly when more than one frame was waiting; the request is cleared; nothing else changes |
| `CameraPimax.WiredPicture` | EyeTrackApp/camera_pimax.py:169-185 | without `should_push` nothing happens; a successful capture advances the counter by one and queues exactly that number and clears the request; a failed capture only sets `DISCONNECTED` |
| `CameraPimax.StepSpec` | EyeTrackApp/camera_pimax.py:125-167 | one iteration: cancellation changes nothing; no source leaves hook state and current source alone; hooking happens exactly when unhooked, disconnected or the source changed, then counts a frame, queues nothing and sets `CONNECTED`; an exception escapes exactly when hooking or its throwaway capture fails; with no request nothing changes; a delivery queues one frame with the next number, clears the request and keeps the status; a failed capture disconnects and keeps the request; only a delivery touches the queue and only a hook sets `CONNECTED` |
| `CameraPimax.Camera.constructor` | EyeTrackApp/camera_pimax.py:98-119 | a new worker is connecting, unhooked, at frame 0, takes the configured source as current, and satisfies the queue invariant |
| `CameraPimax.Camera.PushImageToQueue` | EyeTrackApp/camera_pimax.py:187-196 | the new fields and the warning are those of `PushImage` on the old fields |
| `CameraPimax.Camera.GetWiredCameraPicture` | EyeTrackApp/camera_pimax.py:169-185 | the new fields and the warning are those of `WiredPicture` on the old fields |
| `CameraPimax.Camera.Step` | EyeTrackApp/camera_pimax.py:125-167 | the new fields, the outcome and the warning are those of `StepSpec` on the old fields |
| `CameraPimax.Camera.Run` | EyeTrackApp/camera_pimax.py:124-167 | the loop's final fields and outcome are those of `RunSpec`: iterations run in order until one exits or raises |
| `CaptureProperties.StepKeepsConsistent` | EyeTrackApp/camera_pimax.py:147-178 | one iteration keeps queued frame numbers strictly increasing and at most the counter, and keeps the queue empty and the status not `CONNECTED` until a window is hooked |
| `CaptureProperties.RunKeepsConsistent` | EyeTrackApp/camera_pimax.py:124-178 | the same invariant holds after any number of iterations |
| `CaptureProperties.RunOnlyAppends` | EyeTrackApp/camera_pimax.py:124-196 | over any run the old queue is a prefix of the new one, the frame counter never decreases and a hooked window stays hooked |
| `CaptureProperties.RunDeliversAtMostOnePerRequest` | EyeTrackApp/camera_pimax.py:161-196 | frames queued plus the request still pending never exceed the request pending at the start plus the requests that arrived |
| `CaptureProperties.RunWithoutSourceQueuesNothing` | EyeTrackApp/camera_pimax.py:132-164 | with no source configured and no window ever hooked, no run queues a frame, hooks, counts a frame, changes the current source or becomes `CONNECTED` |
| `CaptureProperties.ChangedSourceRehooksFirst` | EyeTrackApp/camera_pimax.py:135-152 | an iteration that sees a different configured source hooks and does not deliver or queue |
| `CaptureProperties.ReconnectCycle` | EyeTrackApp/camera_pimax.py:124-185 | hook, request, failed capture, rehook, then an iteration with no new request: frames 2 and 4 are queued, the failed request is served after the rehook, and the worker ends `CONNECTED` at counter 4 |

## Left out

- Window hooking and picture capture (FindWindow, GetClientRect, device contexts, PrintWindow,
  GetBitmapBits): these are operating-system calls. Their success is an input of each iteration,
  and only their border and crop arithmetic is kept (`WindowGeometry`).
- A capture succeeds only when a window is hooked and the capture input says so. Without a
  hooked window the source has no handle, and the capture raises inside the `try`.
- `hook_eye_window` is called with the configured source rather than an index. In Python 3 its
  `index > 0` comparison on a string raises. The model takes the hook's success as an input and
  does not model that comparison.
- The pixels: PIL's BGRX conversion, the numpy array and the area resampling of `cv2.resize`. A
  queued frame holds its number and the frame rate; `FrameSize` gives the picture's dimensions
  separately.
- The capture input `imageOk` stands for every failure inside the `try` of
  `get_wired_camera_picture`, not only the window capture. This includes `cv2.resize` refusing
  an empty target size, which happens when the crop keeps fewer than two rows or columns and
  `FrameSize` gives 0. Such a failure sets `DISCONNECTED` and queues nothing, like a failed
  capture. The model does not derive it from `FrameSize`.
- `int(d * 75 / 100)` is floating point in the source; it is modelled as integer division on
  naturals.
- The timed wait of `threading.Event` and the locking of `queue.Queue`: a wait is modelled as
  "the flag was set before or during it".
- The configured source is read once per iteration. The source reads `config.capture_source` five
  times in one iteration: twice in the non-empty test, once in the change test, once as the
  name passed to the hook, and once as the value stored in `current_capture_source`. Another
  thread may change it between these reads. The model does not capture the race between the
  last two reads. There the worker can record a source it never hooked. The next iteration's
  change test then sees no change, so the worker never rehooks to that source.
- The consumer's side (setting the request flag, taking frames off the queue) is not part of this
  model. The modelled queue starts empty when the worker is created, and it only grows.
- Because no frame is ever taken off the modelled queue, `|queue|` over a run counts every frame
  ever put. In a run, every delivery after the second therefore reports backpressure. The
  program warns only when the consumer falls behind. The backpressure result of `PushImage` and
  `StepSpec` is meaningful per step, for whatever queue the step starts from, not over a run.
- `run` loops until cancelled; `Camera.Run` and `RunSpec` follow it for a finite sequence of
  inputs.
- Printed messages: the backpressure warning is returned as the queue size it reports. The other
  messages, the status queue and `set_output_queue` carry no logic and are left out.
- Module-level globals (`hwnd1`, `saveDC1`, the border globals), `width`, `height` and unused
  imports are not part of this model. The borders are shared by every worker, and every
  `hook_window` call overwrites them. So `CropOfHookedWindow`, which takes the borders of the
  captured window itself, describes the crop only when this worker made the last hook. A
  capture after another worker's hook crops with that other window's borders.
