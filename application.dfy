/**
 * Application (src/core/application.cpp): the choice of a physical
 * device by its queue families, the queue-create entries of the logical
 * device, and the per-frame acquire / submit / present handling of
 * drawFrame with its rotation over the frames in flight.
 *
 * A physical device is given by what vkGetPhysicalDeviceQueueFamilyProperties
 * and vkGetPhysicalDeviceSurfaceSupportKHR report for it: one QueueFamily
 * per family index. The selected device is kept as its position in the
 * enumeration order of vkEnumeratePhysicalDevices.
 */
module ApplicationCore {
  import opened Wrappers
  import opened GpuCommands
  import FrameRecording

  /** One queue family: VK_QUEUE_GRAPHICS_BIT in its flags, and whether it can present to the surface. */
  datatype QueueFamily = QueueFamily(graphics: bool, present: bool)

  /** The two capabilities findQueueFamilies looks for. */
  datatype Capability = Graphics | Present

  predicate Supports(f: QueueFamily, c: Capability) {
    if c.Graphics? then f.graphics else f.present
  }

  /** Some family of `fams` has capability `c`. */
  predicate HasCapability(fams: seq<QueueFamily>, c: Capability) {
    exists i :: 0 <= i < |fams| && Supports(fams[i], c)
  }

  /** QueueFamilyIndices (src/core/application.hpp): two optional family indices. */
  datatype QueueFamilyIndices = QueueFamilyIndices(graphicsFamily: Option<nat>, presentFamily: Option<nat>)

  /** QueueFamilyIndices::isComplete. */
  predicate IsComplete(q: QueueFamilyIndices) {
    q.graphicsFamily.Some? && q.presentFamily.Some?
  }

  /** The last index of `fams` whose family has capability `c`; None when there is none. */
  function LastSupporting(fams: seq<QueueFamily>, c: Capability): (r: Option<nat>)
    ensures r.Some? ==> r.value < |fams| && Supports(fams[r.value], c)
    ensures r.Some? ==> forall j :: r.value < j < |fams| ==> !Supports(fams[j], c)
    ensures r.None? <==> !HasCapability(fams, c)
  {
    if |fams| == 0 then None
    else if Supports(fams[|fams| - 1], c) then Some(|fams| - 1)
    else
      var rest := LastSupporting(fams[..|fams| - 1], c);
      assert forall j :: 0 <= j < |fams| - 1 ==> fams[..|fams| - 1][j] == fams[j];
      rest
  }

  /** The indices the scan holds after visiting the families of `scanned`. */
  function Indices(scanned: seq<QueueFamily>): QueueFamilyIndices {
    QueueFamilyIndices(LastSupporting(scanned, Graphics), LastSupporting(scanned, Present))
  }

  /**
   * How many families the scan visits when it has visited `n` of them
   * without completing: it stops right after the first family at which
   * both indices are set, or at the end of the list.
   */
  function ScanFrom(fams: seq<QueueFamily>, n: nat): (k: nat)
    requires n <= |fams|
    ensures n <= k <= |fams|
    ensures k < |fams| ==> IsComplete(Indices(fams[..k]))
    ensures n < |fams| ==> n < k
    ensures forall m :: n < m < k ==> !IsComplete(Indices(fams[..m]))
    decreases |fams| - n
  {
    if n == |fams| then n
    else if IsComplete(Indices(fams[..n + 1])) then n + 1
    else ScanFrom(fams, n + 1)
  }

  /** What findQueueFamilies returns for a device with families `fams`. */
  function QueueFamiliesOf(fams: seq<QueueFamily>): QueueFamilyIndices {
    Indices(fams[..ScanFrom(fams, 0)])
  }

  /** isDeviceSuitable. */
  predicate Suitable(fams: seq<QueueFamily>) {
    IsComplete(QueueFamiliesOf(fams))
  }

  /**
   * The early stop of the scan loses nothing: the indices found are
   * complete exactly when the device has a graphics-capable family and a
   * present-capable family somewhere in its list.
   */
  lemma SuitableIffCapable(fams: seq<QueueFamily>)
    ensures Suitable(fams) <==> HasCapability(fams, Graphics) && HasCapability(fams, Present)
  {
    var k := ScanFrom(fams, 0);
    var q := QueueFamiliesOf(fams);
    if HasCapability(fams, Graphics) && HasCapability(fams, Present) && k == |fams| {
      assert fams[..k] == fams;
    }
    if IsComplete(q) {
      var g := q.graphicsFamily.value;
      var p := q.presentFamily.value;
      assert fams[..k][g] == fams[g] && fams[..k][p] == fams[p];
      assert Supports(fams[g], Graphics) && Supports(fams[p], Present);
    }
  }

  /**
   * The indices found by the scan: each is a family with that capability
   * among those visited, and no later visited family has it.
   */
  lemma QueueFamiliesFacts(fams: seq<QueueFamily>)
    ensures var q := QueueFamiliesOf(fams);
            var k := ScanFrom(fams, 0);
            && (q.graphicsFamily.Some? ==> q.graphicsFamily.value < k && fams[q.graphicsFamily.value].graphics)
            && (q.graphicsFamily.Some? ==> forall j :: q.graphicsFamily.value < j < k ==> !fams[j].graphics)
            && (q.presentFamily.Some? ==> q.presentFamily.value < k && fams[q.presentFamily.value].present)
            && (q.presentFamily.Some? ==> forall j :: q.presentFamily.value < j < k ==> !fams[j].present)
            && (q.graphicsFamily.None? ==> forall j :: 0 <= j < k ==> !fams[j].graphics)
            && (q.presentFamily.None? ==> forall j :: 0 <= j < k ==> !fams[j].present)
  {
    var k := ScanFrom(fams, 0);
    var scanned := fams[..k];
    assert forall j :: 0 <= j < k ==> scanned[j] == fams[j];
    if LastSupporting(scanned, Graphics).None? {
      forall j | 0 <= j < k ensures !fams[j].graphics {
        assert !Supports(scanned[j], Graphics);
      }
    }
    if LastSupporting(scanned, Present).None? {
      forall j | 0 <= j < k ensures !fams[j].present {
        assert !Supports(scanned[j], Present);
      }
    }
  }

  /** One step of the scan: visiting family i extends the indices of the first i families. */
  lemma IndicesStep(fams: seq<QueueFamily>, i: nat)
    requires i < |fams|
    ensures Indices(fams[..i + 1]) ==
            QueueFamilyIndices(if fams[i].graphics then Some(i) else Indices(fams[..i]).graphicsFamily,
                               if fams[i].present then Some(i) else Indices(fams[..i]).presentFamily)
  {
    assert fams[..i + 1][..i] == fams[..i];
  }

  /**
   * findQueueFamilies: visit the families in index order, taking each
   * graphics-capable and each present-capable index as it comes, and
   * stop as soon as both are set.
   */
  method FindQueueFamilies(fams: seq<QueueFamily>) returns (indices: QueueFamilyIndices)
    ensures indices == Indices(fams[..ScanFrom(fams, 0)])
    ensures IsComplete(indices) <==> HasCapability(fams, Graphics) && HasCapability(fams, Present)
  {
    indices := QueueFamilyIndices(None, None);
    var i := 0;
    while i < |fams|
      invariant 0 <= i <= |fams|
      invariant indices == Indices(fams[..i])
      invariant ScanFrom(fams, i) == ScanFrom(fams, 0)
    {
      IndicesStep(fams, i);
      if fams[i].graphics {
        indices := indices.(graphicsFamily := Some(i));
      }
      if fams[i].present {
        indices := indices.(presentFamily := Some(i));
      }
      if IsComplete(indices) {
        SuitableIffCapable(fams);
        return;
      }
      i := i + 1;
    }
    assert fams[..i] == fams;
    SuitableIffCapable(fams);
  }

  /** isDeviceSuitable: complete queue-family indices. */
  method IsDeviceSuitable(fams: seq<QueueFamily>) returns (b: bool)
    ensures b == Suitable(fams)
    ensures b <==> HasCapability(fams, Graphics) && HasCapability(fams, Present)
  {
    var indices := FindQueueFamilies(fams);
    b := indices.graphicsFamily.Some? && indices.presentFamily.Some?;
  }

  /** One vkDeviceQueueCreateInfo: the family, one queue, priority 1.0. */
  datatype QueueCreateInfo = QueueCreateInfo(queueFamilyIndex: nat, queueCount: nat, priority: real)

  /** The elements of the std::set {graphics, present} in its ascending iteration order. */
  function UniqueFamilies(graphics: nat, present: nat): (r: seq<nat>)
    ensures |r| == if graphics == present then 1 else 2
    ensures forall f :: f in r <==> f == graphics || f == present
    ensures forall i, j :: 0 <= i < j < |r| ==> r[i] < r[j]
  {
    if graphics == present then [graphics]
    else if graphics < present then [graphics, present]
    else [present, graphics]
  }

  /**
   * The queue-create entries of createLogicalDevice: one per distinct
   * family, in ascending family order. Reading an unset index with
   * std::optional::value throws std::bad_optional_access.
   */
  method QueueCreateInfos(indices: QueueFamilyIndices) returns (r: Result<seq<QueueCreateInfo>>)
    ensures r.Success? <==> IsComplete(indices)
    ensures r.Failure? ==> r.message == "bad optional access"
    ensures r.Success? ==>
              var g := indices.graphicsFamily.value;
              var p := indices.presentFamily.value;
              && |r.value| == (if g == p then 1 else 2)
              && (set i | 0 <= i < |r.value| :: r.value[i].queueFamilyIndex) == {g, p}
              && (forall i, j :: 0 <= i < j < |r.value| ==> r.value[i].queueFamilyIndex < r.value[j].queueFamilyIndex)
              && (forall i :: 0 <= i < |r.value| ==> r.value[i].queueCount == 1 && r.value[i].priority == 1.0)
  {
    if indices.graphicsFamily.None? || indices.presentFamily.None? {
      return Failure("bad optional access");
    }
    var unique := UniqueFamilies(indices.graphicsFamily.value, indices.presentFamily.value);
    var infos: seq<QueueCreateInfo> := [];
    for i := 0 to |unique|
      invariant |infos| == i
      invariant forall k :: 0 <= k < i ==> infos[k] == QueueCreateInfo(unique[k], 1, 1.0)
    {
      infos := infos + [QueueCreateInfo(unique[i], 1, 1.0)];
    }
    var families := set i | 0 <= i < |infos| :: infos[i].queueFamilyIndex;
    forall f ensures f in families <==> f in unique {
      if f in unique {
        var i :| 0 <= i < |unique| && unique[i] == f;
        assert infos[i].queueFamilyIndex == f;
      }
    }
    return Success(infos);
  }

  /** What vkAcquireNextImageKHR and vkQueuePresentKHR report. */
  datatype SwapchainStatus = Succeeded | Suboptimal | OutOfDate | OtherError

  /** The observable steps of drawFrame, in order. */
  datatype FrameEvent =
    | WaitForFence(slot: nat)
    | AcquireImage(slot: nat)
    | RecreateSwapChain
    | ResetFence(slot: nat)
    | UpdateUniforms(slot: nat)
    | RecordFrame(slot: nat, imageIndex: nat)
    | Submit(slot: nat)
    | PresentImage(slot: nat, imageIndex: nat)

  /** What one drawFrame call does: its steps, its outcome and the new currentFrame and framebufferResized. */
  datatype FrameStep = FrameStep(events: seq<FrameEvent>, outcome: Outcome, currentFrame: nat, framebufferResized: bool)

  /** The acquire result lets the frame go on to be recorded and submitted. */
  predicate Acquired(acquire: SwapchainStatus) {
    acquire.Succeeded? || acquire.Suboptimal?
  }

  /** The present result, or the resize flag, calls for a new swap chain. */
  predicate NeedsRecreate(present: SwapchainStatus, resized: bool) {
    present.OutOfDate? || present.Suboptimal? || resized
  }

  /**
   * drawFrame as a function of the frame slot, the resize flag and what
   * the driver reports: the acquire result, the image index, whether
   * vkBeginCommandBuffer and vkEndCommandBuffer succeed inside
   * recordFrame, whether vkQueueSubmit succeeded and the present result.
   */
  function DrawFrameStep(frame: nat, resized: bool, acquire: SwapchainStatus, imageIndex: nat,
                         beginOk: bool, endOk: bool, submitted: bool, present: SwapchainStatus): (r: FrameStep)
    ensures r.currentFrame == if Acquired(acquire) && r.outcome.Ok? then (frame + 1) % MAX_FRAMES_IN_FLIGHT else frame
    ensures r.framebufferResized ==> resized
  {
    var head := [WaitForFence(frame), AcquireImage(frame)];
    if acquire.OutOfDate? then FrameStep(head + [RecreateSwapChain], Ok, frame, resized)
    else if acquire.OtherError? then FrameStep(head, Fail("failed to acquire swap chain image!"), frame, resized)
    else
      var recording := head + [ResetFence(frame), UpdateUniforms(frame), RecordFrame(frame, imageIndex)];
      var outcome := FrameRecording.RecordOutcome(beginOk, endOk);
      if outcome.Fail? then FrameStep(recording, outcome, frame, resized)
      else
        var recorded := recording + [Submit(frame)];
        if !submitted then FrameStep(recorded, Fail("failed to submit draw command buffer!"), frame, resized)
        else
          var presented := recorded + [PresentImage(frame, imageIndex)];
          var next := (frame + 1) % MAX_FRAMES_IN_FLIGHT;
          if NeedsRecreate(present, resized) then FrameStep(presented + [RecreateSwapChain], Ok, next, false)
          else if present.OtherError? then FrameStep(presented, Fail("failed to present swap chain image!"), frame, resized)
          else FrameStep(presented, Ok, next, resized)
  }

  /** Some step of `events` resets a fence or submits. */
  predicate TouchesFence(events: seq<FrameEvent>) {
    exists i :: 0 <= i < |events| && (events[i].ResetFence? || events[i].Submit?)
  }

  /**
   * An acquire that fails returns before any fence is reset or anything
   * submitted and leaves the slot and the resize flag as they were: an
   * out-of-date image recreates the swap chain and returns normally, any
   * other failure throws.
   */
  lemma AcquireFailureTouchesNothing(frame: nat, resized: bool, acquire: SwapchainStatus, imageIndex: nat,
                                     beginOk: bool, endOk: bool, submitted: bool, present: SwapchainStatus)
    requires !Acquired(acquire)
    ensures var r := DrawFrameStep(frame, resized, acquire, imageIndex, beginOk, endOk, submitted, present);
            && !TouchesFence(r.events)
            && r.currentFrame == frame && r.framebufferResized == resized
            && (acquire.OutOfDate? ==> r.outcome.Ok? && RecreateSwapChain in r.events)
            && (acquire.OtherError? ==> r.outcome == Fail("failed to acquire swap chain image!") && RecreateSwapChain !in r.events)
  {
    var r := DrawFrameStep(frame, resized, acquire, imageIndex, beginOk, endOk, submitted, present);
    if acquire.OutOfDate? {
      assert r.events == [WaitForFence(frame), AcquireImage(frame), RecreateSwapChain];
    } else {
      assert r.events == [WaitForFence(frame), AcquireImage(frame)];
    }
  }

  /**
   * When recordFrame throws, the slot's fence has been reset and nothing
   * is submitted or presented; the slot and the resize flag are left as
   * they were and the exception is recordFrame's.
   */
  lemma RecordingFailureSubmitsNothing(frame: nat, resized: bool, acquire: SwapchainStatus, imageIndex: nat,
                                       beginOk: bool, endOk: bool, submitted: bool, present: SwapchainStatus)
    requires Acquired(acquire) && !(beginOk && endOk)
    ensures var r := DrawFrameStep(frame, resized, acquire, imageIndex, beginOk, endOk, submitted, present);
            && r.events == [WaitForFence(frame), AcquireImage(frame), ResetFence(frame), UpdateUniforms(frame),
                            RecordFrame(frame, imageIndex)]
            && r.outcome == FrameRecording.RecordOutcome(beginOk, endOk) && r.outcome.Fail?
            && r.currentFrame == frame && r.framebufferResized == resized
  {
  }

  /**
   * Once an image is acquired and the frame recorded, the slot's fence is
   * reset, the frame recorded and then submitted on that same slot: no
   * other step resets a fence or submits, and a frame is presented
   * exactly when its submission succeeds.
   */
  lemma AcquiredFrameIsSubmitted(frame: nat, resized: bool, acquire: SwapchainStatus, imageIndex: nat,
                                 beginOk: bool, endOk: bool, submitted: bool, present: SwapchainStatus)
    requires Acquired(acquire) && beginOk && endOk
    ensures var r := DrawFrameStep(frame, resized, acquire, imageIndex, beginOk, endOk, submitted, present);
            && |r.events| >= 6
            && r.events[2] == ResetFence(frame)
            && r.events[4] == RecordFrame(frame, imageIndex)
            && r.events[5] == Submit(frame)
            && (forall i :: 0 <= i < |r.events| && (r.events[i].ResetFence? || r.events[i].Submit?) ==> i == 2 || i == 5)
            && (!submitted ==> r.outcome == Fail("failed to submit draw command buffer!") && |r.events| == 6)
            && (submitted <==> PresentImage(frame, imageIndex) in r.events)
  {
    var r := DrawFrameStep(frame, resized, acquire, imageIndex, beginOk, endOk, submitted, present);
    var recorded := [WaitForFence(frame), AcquireImage(frame), ResetFence(frame), UpdateUniforms(frame),
                     RecordFrame(frame, imageIndex), Submit(frame)];
    if !submitted {
      assert r.events == recorded;
    } else if NeedsRecreate(present, resized) {
      assert r.events == recorded + [PresentImage(frame, imageIndex), RecreateSwapChain];
    } else {
      assert r.events == recorded + [PresentImage(frame, imageIndex)];
    }
  }

  /** After an acquire, the frame is submitted exactly when recording it succeeded. */
  lemma SubmittedIffRecorded(frame: nat, resized: bool, acquire: SwapchainStatus, imageIndex: nat,
                             beginOk: bool, endOk: bool, submitted: bool, present: SwapchainStatus)
    requires Acquired(acquire)
    ensures var r := DrawFrameStep(frame, resized, acquire, imageIndex, beginOk, endOk, submitted, present);
            Submit(frame) in r.events <==> beginOk && endOk
  {
    var r := DrawFrameStep(frame, resized, acquire, imageIndex, beginOk, endOk, submitted, present);
    if beginOk && endOk {
      AcquiredFrameIsSubmitted(frame, resized, acquire, imageIndex, beginOk, endOk, submitted, present);
      assert r.events[5] == Submit(frame);
    } else {
      RecordingFailureSubmitsNothing(frame, resized, acquire, imageIndex, beginOk, endOk, submitted, present);
    }
  }

  /**
   * After a submitted frame is presented: out-of-date, suboptimal or a
   * pending resize recreates the swap chain and clears the flag; any
   * other present failure throws, except that a pending resize turns it
   * into a recreation as well.
   */
  lemma PresentHandling(frame: nat, resized: bool, acquire: SwapchainStatus, imageIndex: nat,
                        beginOk: bool, endOk: bool, submitted: bool, present: SwapchainStatus)
    requires Acquired(acquire) && beginOk && endOk && submitted
    ensures var r := DrawFrameStep(frame, resized, acquire, imageIndex, beginOk, endOk, submitted, present);
            && (RecreateSwapChain in r.events <==> NeedsRecreate(present, resized))
            && (NeedsRecreate(present, resized) ==> !r.framebufferResized && r.outcome.Ok?)
            && (r.outcome.Fail? <==> present.OtherError? && !resized)
            && (r.outcome.Fail? ==> r.outcome.message == "failed to present swap chain image!")
            && (present.Succeeded? && !resized ==> r.outcome.Ok? && RecreateSwapChain !in r.events)
  {
    var r := DrawFrameStep(frame, resized, acquire, imageIndex, beginOk, endOk, submitted, present);
    var presented := [WaitForFence(frame), AcquireImage(frame), ResetFence(frame), UpdateUniforms(frame),
                      RecordFrame(frame, imageIndex), Submit(frame), PresentImage(frame, imageIndex)];
    if NeedsRecreate(present, resized) {
      assert r.events == presented + [RecreateSwapChain];
    } else {
      assert r.events == presented;
    }
  }

  /**
   * The slot stays below MAX_FRAMES_IN_FLIGHT, and the only normal return
   * that does not advance it is the out-of-date acquire.
   */
  lemma FrameSlotStaysInRange(frame: nat, resized: bool, acquire: SwapchainStatus, imageIndex: nat,
                              beginOk: bool, endOk: bool, submitted: bool, present: SwapchainStatus)
    requires frame < MAX_FRAMES_IN_FLIGHT
    ensures var r := DrawFrameStep(frame, resized, acquire, imageIndex, beginOk, endOk, submitted, present);
            && r.currentFrame < MAX_FRAMES_IN_FLIGHT
            && (r.outcome.Ok? && r.currentFrame == frame ==> acquire.OutOfDate?)
  {
  }

  class Application {
    /** The chosen device as its position in the enumeration; None is VK_NULL_HANDLE. */
    var physicalDevice: Option<nat>
    var currentFrame: nat
    var framebufferResized: bool
    /** The steps drawFrame has taken so far. */
    var events: seq<FrameEvent>

    /** The frame slot indexes the per-frame objects. */
    predicate Valid()
      reads this
    {
      currentFrame < MAX_FRAMES_IN_FLIGHT
    }

    /** The member initialisers of Application (src/core/application.hpp). */
    constructor()
      ensures physicalDevice == None && currentFrame == 0 && !framebufferResized && events == []
      ensures Valid()
    {
      physicalDevice := None;
      currentFrame := 0;
      framebufferResized := false;
      events := [];
    }

    /**
     * pickPhysicalDevice: no devices throws; otherwise the first suitable
     * device in enumeration order is taken, and if there is none the
     * handle is checked and, being unset, throws.
     */
    method PickPhysicalDevice(devices: seq<seq<QueueFamily>>) returns (r: Outcome)
      modifies this
      ensures currentFrame == old(currentFrame) && framebufferResized == old(framebufferResized) && events == old(events)
      ensures |devices| == 0 ==> r == Fail("failed to find gpus with vulkan support") && physicalDevice == old(physicalDevice)
      ensures |devices| > 0 && (exists i :: 0 <= i < |devices| && Suitable(devices[i])) ==>
                && r.Ok? && physicalDevice.Some?
                && physicalDevice.value < |devices| && Suitable(devices[physicalDevice.value])
                && forall j :: 0 <= j < physicalDevice.value ==> !Suitable(devices[j])
      ensures |devices| > 0 && (forall i :: 0 <= i < |devices| ==> !Suitable(devices[i])) ==>
                && physicalDevice == old(physicalDevice)
                && (r.Ok? <==> old(physicalDevice).Some?)
                && (r.Fail? ==> r.message == "failed to find a suitable gpu")
    {
      if |devices| == 0 {
        return Fail("failed to find gpus with vulkan support");
      }
      var i := 0;
      while i < |devices|
        invariant 0 <= i <= |devices|
        invariant forall j :: 0 <= j < i ==> !Suitable(devices[j])
        invariant physicalDevice == old(physicalDevice)
        invariant currentFrame == old(currentFrame) && framebufferResized == old(framebufferResized) && events == old(events)
      {
        var suitable := IsDeviceSuitable(devices[i]);
        if suitable {
          physicalDevice := Some(i);
          break;
        }
        i := i + 1;
      }
      if physicalDevice.None? {
        return Fail("failed to find a suitable gpu");
      }
      return Ok;
    }

    /** framebufferResizeCallback: only raises the flag. */
    method FramebufferResizeCallback()
      modifies this
      ensures framebufferResized
      ensures physicalDevice == old(physicalDevice) && currentFrame == old(currentFrame) && events == old(events)
    {
      framebufferResized := true;
    }

    /**
     * drawFrame: wait for the slot's fence, acquire an image, and either
     * recreate the swap chain or reset the fence, record (which can
     * throw), submit and present, then move to the next slot.
     */
    method DrawFrame(acquire: SwapchainStatus, imageIndex: nat, beginOk: bool, endOk: bool, submitted: bool,
                     present: SwapchainStatus)
      returns (r: Outcome)
      modifies this
      ensures var step := DrawFrameStep(old(currentFrame), old(framebufferResized), acquire, imageIndex,
                                        beginOk, endOk, submitted, present);
              && events == old(events) + step.events
              && r == step.outcome
              && currentFrame == step.currentFrame
              && framebufferResized == step.framebufferResized
      ensures physicalDevice == old(physicalDevice)
      ensures old(Valid()) ==> Valid()
    {
      var maxFrames := MAX_FRAMES_IN_FLIGHT;
      var frame := currentFrame;
      var head := [WaitForFence(frame), AcquireImage(frame)];
      if acquire.OutOfDate? {
        events := events + (head + [RecreateSwapChain]);
        return Ok;
      } else if !acquire.Succeeded? && !acquire.Suboptimal? {
        events := events + head;
        return Fail("failed to acquire swap chain image!");
      }
      var recording := head + [ResetFence(frame), UpdateUniforms(frame), RecordFrame(frame, imageIndex)];
      var recorded := FrameRecording.RecordOutcome(beginOk, endOk);
      if recorded.Fail? {
        events := events + recording;
        return recorded;
      }
      var submitting := recording + [Submit(frame)];
      if !submitted {
        events := events + submitting;
        return Fail("failed to submit draw command buffer!");
      }
      var presented := submitting + [PresentImage(frame, imageIndex)];
      if present.OutOfDate? || present.Suboptimal? || framebufferResized {
        framebufferResized := false;
        events := events + (presented + [RecreateSwapChain]);
      } else if !present.Succeeded? {
        events := events + presented;
        return Fail("failed to present swap chain image!");
      } else {
        events := events + presented;
      }
      currentFrame := (frame + 1) % maxFrames;
      return Ok;
    }
  }
}
