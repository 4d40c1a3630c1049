/** What the capture loop guarantees over one iteration and over any
    number of them. */
module CaptureProperties {
  import opened CameraPimax

  /** Every iteration keeps the queue's frame numbers strictly increasing
      and bounded by the counter, and keeps the queue empty until a window
      is hooked. */
  lemma StepKeepsConsistent(w: Worker, i: Inputs)
    requires Consistent(w)
    ensures Consistent(StepSpec(w, i).worker)
  {
  }

  /** Consistency holds after any number of iterations. */
  lemma {:induction false} RunKeepsConsistent(w: Worker, inputs: seq<Inputs>)
    requires Consistent(w)
    ensures Consistent(RunSpec(w, inputs).worker)
    decreases |inputs|
  {
    if inputs != [] {
      StepKeepsConsistent(w, inputs[0]);
      var s := StepSpec(w, inputs[0]);
      if s.outcome == Looped {
        RunKeepsConsistent(s.worker, inputs[1..]);
      }
    }
  }

  /** Over any number of iterations the queue only grows at its end, the
      frame counter never goes down, and a hooked window stays hooked. */
  lemma {:induction false} RunOnlyAppends(w: Worker, inputs: seq<Inputs>)
    ensures var r := RunSpec(w, inputs).worker;
      |w.queue| <= |r.queue| && r.queue[..|w.queue|] == w.queue &&
      w.frameNumber <= r.frameNumber &&
      (w.windowsHooked ==> r.windowsHooked)
    decreases |inputs|
  {
    if inputs != [] {
      var s := StepSpec(w, inputs[0]);
      if s.outcome == Looped {
        RunOnlyAppends(s.worker, inputs[1..]);
        var r := RunSpec(w, inputs).worker;
        assert r == RunSpec(s.worker, inputs[1..]).worker;
        assert r.queue[..|s.worker.queue|] == s.worker.queue;
        assert s.worker.queue[..|w.queue|] == w.queue;
      }
    }
  }

  /** How many iterations see a consumer's request arrive during the wait. */
  function Arrivals(inputs: seq<Inputs>): nat {
    if inputs == [] then 0
    else (if inputs[0].requestArrives then 1 else 0) + Arrivals(inputs[1..])
  }

  /** 1 when a capture request is pending, else 0. */
  function Pending(w: Worker): nat {
    if w.captureEvent then 1 else 0
  }

  /** Requests coalesce: every delivered frame consumes one request, so the
      frames queued over a run, plus the request still pending at its end,
      never exceed the request pending at its start plus the requests that
      arrived. */
  lemma {:induction false} RunDeliversAtMostOnePerRequest(w: Worker, inputs: seq<Inputs>)
    ensures var r := RunSpec(w, inputs).worker;
      |r.queue| + Pending(r) <= |w.queue| + Pending(w) + Arrivals(inputs)
    decreases |inputs|
  {
    if inputs != [] {
      var s := StepSpec(w, inputs[0]);
      assert |s.worker.queue| + Pending(s.worker) <=
             |w.queue| + Pending(w) + (if inputs[0].requestArrives then 1 else 0);
      if s.outcome == Looped {
        RunDeliversAtMostOnePerRequest(s.worker, inputs[1..]);
      }
    }
  }

  /** While no capture source is configured and no window was ever hooked,
      no frame is queued and the worker never becomes connected, whatever
      requests arrive. */
  lemma {:induction false} RunWithoutSourceQueuesNothing(w: Worker, inputs: seq<Inputs>)
    requires !w.windowsHooked && w.status != Connected
    requires forall k :: 0 <= k < |inputs| ==> !HasSource(inputs[k].captureSource)
    ensures var r := RunSpec(w, inputs).worker;
      r.queue == w.queue && !r.windowsHooked && r.status != Connected &&
      r.frameNumber == w.frameNumber && r.currentSource == w.currentSource
    decreases |inputs|
  {
    if inputs != [] {
      var s := StepSpec(w, inputs[0]);
      if s.outcome == Looped {
        assert forall k :: 0 <= k < |inputs[1..]| ==> inputs[1..][k] == inputs[k + 1];
        RunWithoutSourceQueuesNothing(s.worker, inputs[1..]);
      }
    }
  }

  /** A changed source is hooked before any further frame is delivered: the
      iteration that sees the change hooks and does not deliver. */
  lemma ChangedSourceRehooksFirst(w: Worker, i: Inputs)
    requires !i.cancelled && HasSource(i.captureSource) && i.captureSource != w.currentSource
    ensures Hooks(w, i) && !Delivers(w, i)
    ensures StepSpec(w, i).worker.queue == w.queue
  {
  }

  /** Inputs of one uncancelled iteration with the source "camA". */
  function CamA(request: bool, imageOk: bool): Inputs {
    Inputs(false, Some("camA"), request, true, imageOk)
  }

  /** A connect, deliver, fail, reconnect, deliver cycle. The first iteration
      hooks (counter 1, connected, nothing queued); a request then yields
      frame 2; a failed capture disconnects and keeps its request; the next
      iteration hooks again (counter 3); the kept request yields frame 4. */
  lemma ReconnectCycle()
    ensures var inputs := [CamA(false, true), CamA(true, true), CamA(true, false),
                           CamA(false, true), CamA(false, true)];
      var r := RunSpec(Initial(Some("camA"), false), inputs);
      r.outcome == Looped &&
      r.worker.queue == [Frame(2, Fps), Frame(4, Fps)] &&
      r.worker.status == Connected && r.worker.frameNumber == 4 && !r.worker.captureEvent
  {
  }
}
