/**
 * The bookkeeping of str::Renderer (src/renderer.cpp) around one frame: checkResult sorts a
 * Vulkan result into "carry on", "recreate the swapchain" or "throw", and update advances the
 * in-flight frame index modulo the number of frames in flight. Acquiring, recording,
 * submitting and presenting are GPU work; their results come in as parameters.
 */
module Renderers {
  import opened Wrappers
  import opened NatArith

  /** The vk::Result values checkResult tells apart; every other code is `Other`. */
  datatype VkResult = Success | ErrorOutOfDateKHR | SuboptimalKHR | Other(code: int)

  /** What checkResult does with a result. */
  datatype Reaction = Proceed | RecreateSwapchain | Raise(error: Exception)

  /** Results that checkResult lets through, possibly after recreating the swapchain. */
  predicate Tolerated(r: VkResult)
  {
    r == Success || r == ErrorOutOfDateKHR || r == SuboptimalKHR
  }

  /**
   * checkResult: out-of-date and suboptimal recreate the swapchain, success does nothing, and
   * every other result throws std::runtime_error.
   */
  function CheckResult(r: VkResult): (a: Reaction)
    ensures a == Proceed <==> r == Success
    ensures a == RecreateSwapchain <==> r == ErrorOutOfDateKHR || r == SuboptimalKHR
    ensures a == Raise(RuntimeError) <==> !Tolerated(r)
    ensures a.Raise? ==> a.error == RuntimeError
  {
    if r == ErrorOutOfDateKHR || r == SuboptimalKHR then RecreateSwapchain
    else if r != Success then Raise(RuntimeError)
    else Proceed
  }

  /** The frame index after one update: one more, wrapping to 0 at `flight`. */
  function NextFrame(frame: nat, flight: nat): (r: nat)
    requires frame < flight
    ensures r < flight
    ensures r == 0 <==> frame == flight - 1
    ensures r != 0 ==> r == frame + 1
  {
    (frame + 1) % flight
  }

  /** The frame index after k updates from frame 0. */
  function FrameAfter(k: nat, flight: nat): (r: nat)
    requires flight > 0
    ensures r < flight
  {
    if k == 0 then 0 else NextFrame(FrameAfter(k - 1, flight), flight)
  }

  /** Updates cycle through the frames in flight: k updates from 0 land on k mod flight. */
  lemma {:induction false} FrameAfterIsMod(k: nat, flight: nat)
    requires flight > 0
    ensures FrameAfter(k, flight) == k % flight
  {
    if k > 0 {
      FrameAfterIsMod(k - 1, flight);
      ModSucc(k - 1, flight);
    }
  }

  /** The renderer's per-frame state: the in-flight index and the swapchain recreations. */
  class Renderer {
    /** VECS_SETTINGS.max_flight_frames(). */
    const flight: nat
    /** The in-flight frame index, 0 by default. */
    var frame: nat
    /** How many times checkResult has asked the window to rebuild its swapchain. */
    var recreations: nat

    predicate Valid()
      reads this
    {
      frame < flight
    }

    constructor(maxFlightFrames: nat)
      requires maxFlightFrames > 0
      ensures Valid() && flight == maxFlightFrames && frame == 0 && recreations == 0
    {
      flight := maxFlightFrames;
      frame := 0;
      recreations := 0;
    }

    /** checkResult(result): recreate the swapchain, throw, or do nothing. */
    method Check(r: VkResult) returns (o: Outcome)
      modifies this
      ensures o.Fail? <==> !Tolerated(r)
      ensures o.Fail? ==> o.error == RuntimeError
      ensures frame == old(frame)
      ensures recreations == old(recreations) + (if CheckResult(r) == RecreateSwapchain then 1 else 0)
    {
      if r == ErrorOutOfDateKHR || r == SuboptimalKHR {
        recreations := recreations + 1;
        o := Done;
      } else if r != Success {
        o := Fail(RuntimeError);
      } else {
        o := Done;
      }
    }

    /**
     * update: check the acquire result, render, check the present result, then advance the
     * frame. A throw from either check leaves the frame index where it was.
     */
    method Update(acquired: VkResult, presented: VkResult) returns (o: Outcome)
      requires Valid()
      modifies this
      ensures Valid()
      ensures o.Fail? <==> !Tolerated(acquired) || !Tolerated(presented)
      ensures o == Done ==> frame == NextFrame(old(frame), flight)
      ensures o.Fail? ==> frame == old(frame) && o.error == RuntimeError
      ensures recreations == old(recreations)
                             + (if CheckResult(acquired) == RecreateSwapchain then 1 else 0)
                             + (if Tolerated(acquired) && CheckResult(presented) == RecreateSwapchain
                                then 1 else 0)
    {
      o := Check(acquired);
      if o.Fail? {
        return;
      }
      o := Check(presented);
      if o.Fail? {
        return;
      }
      frame := (frame + 1) % flight;
    }
  }
}
