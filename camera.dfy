/** The capture worker of one eye: the loop that hooks the eye's window,
    waits for a consumer's capture request, captures a picture and puts it
    on the output queue. The window hook and the picture capture are
    operations of the operating system; each iteration is told whether they
    succeed. The picture itself is left out: a queued frame is its number
    and the nominal frame rate. */
module CameraPimax {

  datatype Option<+T> = None | Some(value: T)

  /** The connection status the worker reports. */
  datatype CameraState = Connecting | Connected | Disconnected

  /** Nominal frame rate queued with every frame. */
  const Fps: nat := 120

  /** One entry of the output queue, with the picture left out. */
  datatype Frame = Frame(number: nat, fps: nat)

  /** The worker's state as a value: its own fields, the output queue it
      fills and the capture-request flag it clears. */
  datatype Worker = Worker(
    status: CameraState,
    windowsHooked: bool,
    currentSource: Option<string>,
    frameNumber: nat,
    queue: seq<Frame>,
    captureEvent: bool)

  /** What the world decides during one iteration of the loop. */
  datatype Inputs = Inputs(
    cancelled: bool,                // the cancellation flag is set
    captureSource: Option<string>,  // the configured capture source
    requestArrives: bool,           // a consumer sets the capture flag during the wait
    hookOk: bool,                   // hooking the eye window succeeds
    imageOk: bool)                  // capturing the window's picture succeeds

  /** How one iteration ends: the loop goes round again, the worker
      returns because it was cancelled, or an exception escapes the loop. */
  datatype Outcome = Looped | Exited | Raised

  /** The state after one iteration, how it ended, and the queue size
      reported by a backpressure warning, if one was given. */
  datatype StepResult = StepResult(worker: Worker, outcome: Outcome, backpressure: Option<nat>)

  /** The state after a sequence of iterations, and how the last one ended. */
  datatype RunResult = RunResult(worker: Worker, outcome: Outcome)

  /** A new worker: connecting, nothing hooked, no frame yet, and the
      configured source already taken as the current one. */
  function Initial(captureSource: Option<string>, captureEvent: bool): Worker {
    Worker(Connecting, false, captureSource, 0, [], captureEvent)
  }

  /** A capture source is configured: neither absent nor empty. */
  predicate HasSource(source: Option<string>) {
    source != None && source != Some("")
  }

  /** The window must be (re)hooked: it never was, the last capture
      failed, or the configured source is not the one hooked. */
  predicate NeedsHook(w: Worker, source: Option<string>) {
    !w.windowsHooked || w.status == Disconnected || source != w.currentSource
  }

  /** The frames on the queue carry strictly increasing numbers, none above
      the worker's counter; nothing is queued and the worker never counted
      itself connected before a window was hooked. */
  predicate Consistent(w: Worker) {
    (forall i, j :: 0 <= i < j < |w.queue| ==> w.queue[i].number < w.queue[j].number) &&
    (forall i :: 0 <= i < |w.queue| ==> w.queue[i].number <= w.frameNumber) &&
    (!w.windowsHooked ==> w.queue == [] && w.status != Connected)
  }

  /** Putting a frame on the output queue: the frame is always appended,
      a warning carrying the old queue size is given exactly when more
      than one frame was already waiting, and the capture request is
      cleared. Nothing else changes. */
  function PushImage(w: Worker, number: nat, fps: nat): (r: (Worker, Option<nat>))
    ensures r.0.queue == w.queue + [Frame(number, fps)]
    ensures !r.0.captureEvent
    ensures r.1.Some? <==> |w.queue| > 1
    ensures r.1.Some? ==> r.1.value == |w.queue|
    ensures r.0.(queue := w.queue, captureEvent := w.captureEvent) == w
  {
    var backpressure := if |w.queue| > 1 then Some(|w.queue|) else None;
    (w.(queue := w.queue + [Frame(number, fps)], captureEvent := false), backpressure)
  }

  /** The capture step of an iteration. On a hooking iteration it does
      nothing. Otherwise a picture is taken when a window is hooked and the
      capture succeeds, and then the counter goes up by one and exactly one
      frame with the new number is queued; when the capture fails the
      worker becomes disconnected and nothing else changes, so the request
      stays pending. */
  function WiredPicture(w: Worker, shouldPush: bool, imageOk: bool): (r: (Worker, Option<nat>))
    ensures !shouldPush ==> r == (w, None)
    ensures shouldPush && !(w.windowsHooked && imageOk) ==> r == (w.(status := Disconnected), None)
    ensures shouldPush && w.windowsHooked && imageOk ==>
      r.0.frameNumber == w.frameNumber + 1 &&
      r.0.queue == w.queue + [Frame(w.frameNumber + 1, Fps)] &&
      !r.0.captureEvent &&
      r.0.(frameNumber := w.frameNumber, queue := w.queue, captureEvent := w.captureEvent) == w
  {
    if !shouldPush then (w, None)
    else if w.windowsHooked && imageOk then
      PushImage(w.(frameNumber := w.frameNumber + 1), w.frameNumber + 1, Fps)
    else (w.(status := Disconnected), None)
  }

  /** The iteration hooks the window: it is not cancelled, a source is
      configured and the window needs (re)hooking. */
  predicate Hooks(w: Worker, i: Inputs) {
    !i.cancelled && HasSource(i.captureSource) && NeedsHook(w, i.captureSource)
  }

  /** The iteration delivers a frame: it is not cancelled and does not hook,
      a request is pending or arrives during the wait, a window is hooked
      and the capture succeeds. */
  predicate Delivers(w: Worker, i: Inputs) {
    !i.cancelled && !Hooks(w, i) && (w.captureEvent || i.requestArrives) &&
    w.windowsHooked && i.imageOk
  }

  /** One iteration of the capture loop. */
  function StepSpec(w: Worker, i: Inputs): (r: StepResult)
    // A set cancellation flag ends the loop and changes nothing.
    ensures i.cancelled ==> r == StepResult(w, Exited, None)
    // Without a configured source the hook state and current source stay as they were.
    ensures !HasSource(i.captureSource) ==>
      r.worker.windowsHooked == w.windowsHooked && r.worker.currentSource == w.currentSource
    // An exception escapes exactly when hooking fails or its throwaway capture fails.
    ensures r.outcome == Raised <==> Hooks(w, i) && !(i.hookOk && i.imageOk)
    ensures r.outcome == Raised && !i.hookOk ==> r.worker == w
    ensures r.outcome == Raised && i.hookOk ==>
      r.worker == w.(windowsHooked := true, currentSource := i.captureSource)
    // A successful hook counts a frame and marks the worker connected, but queues nothing.
    ensures Hooks(w, i) && i.hookOk && i.imageOk ==>
      r.outcome == Looped && r.backpressure == None &&
      r.worker == w.(status := Connected, windowsHooked := true,
                     currentSource := i.captureSource, frameNumber := w.frameNumber + 1)
    // No request pending and none arriving: nothing changes.
    ensures !i.cancelled && !Hooks(w, i) && !w.captureEvent && !i.requestArrives ==>
      r == StepResult(w, Looped, None)
    // A delivered frame: the next number, exactly one frame queued, the
    // request cleared, status and hook unchanged.
    ensures Delivers(w, i) ==>
      r.outcome == Looped &&
      r.worker.queue == w.queue + [Frame(w.frameNumber + 1, Fps)] &&
      r.worker == w.(frameNumber := w.frameNumber + 1, queue := r.worker.queue, captureEvent := false) &&
      (r.backpressure.Some? <==> |w.queue| > 1)
    // A requested capture that fails disconnects, queues nothing and keeps the request pending.
    ensures !i.cancelled && !Hooks(w, i) && (w.captureEvent || i.requestArrives) && !Delivers(w, i) ==>
      r == StepResult(w.(status := Disconnected, captureEvent := true), Looped, None)
    // Only a delivery touches the queue, and only a hook makes the worker connected.
    ensures r.worker.queue != w.queue ==> Delivers(w, i)
    ensures r.worker.status == Connected && w.status != Connected ==> Hooks(w, i)
  {
    if i.cancelled then StepResult(w, Exited, None)
    else if Hooks(w, i) then
      if !i.hookOk then StepResult(w, Raised, None)
      else
        var hooked := w.(windowsHooked := true, currentSource := i.captureSource);
        if !i.imageOk then StepResult(hooked, Raised, None)
        else
          var (after, _) := WiredPicture(hooked.(frameNumber := w.frameNumber + 1), false, i.imageOk);
          StepResult(after.(status := Connected), Looped, None)
    else
      var requested := w.captureEvent || i.requestArrives;
      if !requested then StepResult(w, Looped, None)
      else
        var (after, backpressure) := WiredPicture(w.(captureEvent := true), true, i.imageOk);
        StepResult(after, Looped, backpressure)
  }

  /** Iterations run one after another until one does not loop again or
      the inputs are used up. */
  function RunSpec(w: Worker, inputs: seq<Inputs>): (r: RunResult)
    decreases |inputs|
  {
    if inputs == [] then RunResult(w, Looped)
    else
      var s := StepSpec(w, inputs[0]);
      if s.outcome == Looped then RunSpec(s.worker, inputs[1..]) else RunResult(s.worker, s.outcome)
  }

  /** The worker object whose loop fills the output queue. */
  class Camera {
    var cameraStatus: CameraState
    var windowsHooked: bool
    var currentCaptureSource: Option<string>
    var frameNumber: nat
    var outputQueue: seq<Frame>
    var captureEvent: bool

    /** The object's fields as a value. */
    function State(): Worker
      reads this
    {
      Worker(cameraStatus, windowsHooked, currentCaptureSource, frameNumber, outputQueue, captureEvent)
    }

    constructor (captureSource: Option<string>, requested: bool)
      ensures State() == Initial(captureSource, requested)
      ensures Consistent(State())
    {
      cameraStatus := Connecting;
      windowsHooked := false;
      currentCaptureSource := captureSource;
      frameNumber := 0;
      outputQueue := [];
      captureEvent := requested;
    }

    /** Appends the frame, warns when more than one frame was waiting, and
        clears the capture request. */
    method PushImageToQueue(number: nat, fps: nat) returns (backpressure: Option<nat>)
      modifies this
      ensures (State(), backpressure) == PushImage(old(State()), number, fps)
    {
      var size := |outputQueue|;
      backpressure := None;
      if size > 1 {
        backpressure := Some(size);
      }
      outputQueue := outputQueue + [Frame(number, fps)];
      captureEvent := false;
    }

    /** Takes, shrinks and queues a picture when asked to; a failed capture
        is caught and leaves the worker disconnected. */
    method GetWiredCameraPicture(shouldPush: bool, imageOk: bool) returns (backpressure: Option<nat>)
      modifies this
      ensures (State(), backpressure) == WiredPicture(old(State()), shouldPush, imageOk)
    {
      backpressure := None;
      if shouldPush {
        // Without a hooked window there is nothing to capture from.
        if windowsHooked && imageOk {
          frameNumber := frameNumber + 1;
          backpressure := PushImageToQueue(frameNumber, Fps);
        } else {
          cameraStatus := Disconnected;
        }
      }
    }

    /** One iteration of the loop. */
    method Step(i: Inputs) returns (outcome: Outcome, backpressure: Option<nat>)
      modifies this
      ensures StepResult(State(), outcome, backpressure) == StepSpec(old(State()), i)
    {
      if i.cancelled {
        return Exited, None;
      }
      var shouldPush := true;
      if HasSource(i.captureSource) {
        if !windowsHooked || cameraStatus == Disconnected || i.captureSource != currentCaptureSource {
          if !i.hookOk {
            return Raised, None;
          }
          windowsHooked := true;
          currentCaptureSource := i.captureSource;
          // The throwaway capture that checks the new hook.
          if !i.imageOk {
            return Raised, None;
          }
          frameNumber := frameNumber + 1;
          shouldPush := false;
        }
      }
      if shouldPush {
        captureEvent := captureEvent || i.requestArrives;
        if !captureEvent {
          return Looped, None;
        }
      }
      backpressure := GetWiredCameraPicture(shouldPush, i.imageOk);
      if !shouldPush {
        cameraStatus := Connected;
      }
      outcome := Looped;
    }

    /** The capture loop, fed one input per iteration; it stops when an
        iteration does not loop again or the inputs run out. */
    method Run(inputs: seq<Inputs>) returns (outcome: Outcome)
      modifies this
      ensures RunResult(State(), outcome) == RunSpec(old(State()), inputs)
    {
      var k := 0;
      outcome := Looped;
      while k < |inputs| && outcome == Looped
        invariant 0 <= k <= |inputs|
        invariant outcome == Looped ==> RunSpec(old(State()), inputs) == RunSpec(State(), inputs[k..])
        invariant outcome != Looped ==> RunSpec(old(State()), inputs) == RunResult(State(), outcome)
        decreases |inputs| - k
      {
        assert inputs[k..][0] == inputs[k] && inputs[k..][1..] == inputs[k + 1..];
        var warning;
        outcome, warning := Step(inputs[k]);
        k := k + 1;
      }
    }
  }
}
