/**
 * SwapChain (src/renderer/swapchain.cpp): the choice of surface format,
 * present mode, extent and image count from what the surface supports,
 * and the one-per-image views and one-per-view framebuffers.
 *
 * Vulkan enumerants are their numeric values. The driver's answers
 * (vkCreateSwapchainKHR, vkGetSwapchainImagesKHR, vkCreateImageView,
 * vkCreateFramebuffer) are parameters: a creation function returns None
 * where the call fails, and the swap chain's images are given as the
 * list the driver returns.
 */
module SwapChains {
  import opened Wrappers
  import opened MachineInts
  import opened GpuBuffers
  import opened GpuCommands

  const FORMAT_B8G8R8A8_SRGB: nat := 50
  const COLOR_SPACE_SRGB_NONLINEAR: nat := 0
  const PRESENT_MODE_MAILBOX: nat := 1
  const PRESENT_MODE_FIFO: nat := 2

  /** VkSurfaceFormatKHR. */
  datatype SurfaceFormat = SurfaceFormat(format: nat, colorSpace: nat)

  /** The format the swap chain prefers: 8-bit BGRA sRGB in the non-linear sRGB colour space. */
  const PREFERRED_FORMAT: SurfaceFormat := SurfaceFormat(FORMAT_B8G8R8A8_SRGB, COLOR_SPACE_SRGB_NONLINEAR)

  /** The fields of VkSurfaceCapabilitiesKHR the swap chain reads. */
  datatype SurfaceCapabilities = SurfaceCapabilities(
    minImageCount: nat, maxImageCount: nat,
    currentExtent: Extent, minImageExtent: Extent, maxImageExtent: Extent)

  /** SwapChainSupport (src/renderer/swapchain.hpp). */
  datatype SwapChainSupport = SwapChainSupport(capabilities: SurfaceCapabilities,
                                               formats: seq<SurfaceFormat>, presentModes: seq<nat>)

  /** The format chosen from a non-empty list: the preferred one if offered, else the first. */
  function FormatFor(formats: seq<SurfaceFormat>): SurfaceFormat
    requires |formats| > 0
  {
    if PREFERRED_FORMAT in formats then PREFERRED_FORMAT else formats[0]
  }

  /** The present mode chosen: mailbox if offered, else FIFO, which every surface supports. */
  function PresentModeFor(modes: seq<nat>): nat {
    if PRESENT_MODE_MAILBOX in modes then PRESENT_MODE_MAILBOX else PRESENT_MODE_FIFO
  }

  /**
   * chooseSwapSurfaceFormat: scan for the preferred format; without it,
   * element 0, which the source reads unchecked.
   */
  method ChooseSwapSurfaceFormat(availableFormats: seq<SurfaceFormat>) returns (r: SurfaceFormat)
    requires |availableFormats| > 0
    ensures r == FormatFor(availableFormats)
    ensures r in availableFormats
    ensures r != PREFERRED_FORMAT ==> r == availableFormats[0] && PREFERRED_FORMAT !in availableFormats
  {
    for i := 0 to |availableFormats|
      invariant forall j :: 0 <= j < i ==> availableFormats[j] != PREFERRED_FORMAT
    {
      var availableFormat := availableFormats[i];
      if availableFormat.format == FORMAT_B8G8R8A8_SRGB && availableFormat.colorSpace == COLOR_SPACE_SRGB_NONLINEAR {
        return availableFormat;
      }
    }
    return availableFormats[0];
  }

  /** chooseSwapPresentMode: scan for mailbox, else FIFO. */
  method ChooseSwapPresentMode(availablePresentModes: seq<nat>) returns (r: nat)
    ensures r == PresentModeFor(availablePresentModes)
    ensures r == PRESENT_MODE_MAILBOX || r == PRESENT_MODE_FIFO
    ensures r == PRESENT_MODE_MAILBOX <==> PRESENT_MODE_MAILBOX in availablePresentModes
  {
    for i := 0 to |availablePresentModes|
      invariant forall j :: 0 <= j < i ==> availablePresentModes[j] != PRESENT_MODE_MAILBOX
    {
      if availablePresentModes[i] == PRESENT_MODE_MAILBOX {
        return availablePresentModes[i];
      }
    }
    return PRESENT_MODE_FIFO;
  }

  /**
   * std::clamp(v, lo, hi) for lo <= hi. For lo > hi, where std::clamp is
   * undefined, the model picks lo below lo and hi above hi.
   */
  function Clamp(v: nat, lo: nat, hi: nat): (r: nat)
    ensures lo <= hi ==> lo <= r <= hi
    ensures lo <= v <= hi ==> r == v
    ensures r == v || r == lo || r == hi
  {
    if v < lo then lo else if hi < v then hi else v
  }

  /**
   * chooseSwapExtent: the surface's current extent, unless its width is
   * the UINT32_MAX "window decides" value; then the framebuffer size,
   * cast to uint32_t and clamped per axis into the supported range.
   */
  function ChooseSwapExtent(capabilities: SurfaceCapabilities, framebufferWidth: int, framebufferHeight: int): (r: Extent)
    ensures capabilities.currentExtent.width != U32_MAX ==> r == capabilities.currentExtent
    ensures capabilities.currentExtent.width == U32_MAX ==>
              && (r.width == U32(framebufferWidth) || r.width == capabilities.minImageExtent.width || r.width == capabilities.maxImageExtent.width)
              && (r.height == U32(framebufferHeight) || r.height == capabilities.minImageExtent.height || r.height == capabilities.maxImageExtent.height)
  {
    if capabilities.currentExtent.width != U32_MAX then capabilities.currentExtent
    else
      Extent(Clamp(U32(framebufferWidth), capabilities.minImageExtent.width, capabilities.maxImageExtent.width),
             Clamp(U32(framebufferHeight), capabilities.minImageExtent.height, capabilities.maxImageExtent.height))
  }

  /**
   * When the window decides and the surface's range is well formed, the
   * extent lies inside [minImageExtent, maxImageExtent] on both axes, and
   * a framebuffer size already inside that range is kept as it is.
   */
  lemma ChosenExtentInRange(capabilities: SurfaceCapabilities, framebufferWidth: int, framebufferHeight: int)
    requires capabilities.currentExtent.width == U32_MAX
    requires capabilities.minImageExtent.width <= capabilities.maxImageExtent.width
    requires capabilities.minImageExtent.height <= capabilities.maxImageExtent.height
    requires IsU32(capabilities.maxImageExtent.width) && IsU32(capabilities.maxImageExtent.height)
    ensures var r := ChooseSwapExtent(capabilities, framebufferWidth, framebufferHeight);
            && capabilities.minImageExtent.width <= r.width <= capabilities.maxImageExtent.width
            && capabilities.minImageExtent.height <= r.height <= capabilities.maxImageExtent.height
            && (capabilities.minImageExtent.width <= framebufferWidth <= capabilities.maxImageExtent.width ==>
                  r.width == framebufferWidth)
            && (capabilities.minImageExtent.height <= framebufferHeight <= capabilities.maxImageExtent.height ==>
                  r.height == framebufferHeight)
  {
    var lo := capabilities.minImageExtent;
    var hi := capabilities.maxImageExtent;
    if lo.width <= framebufferWidth <= hi.width {
      assert U32(framebufferWidth) == framebufferWidth;
    }
    if lo.height <= framebufferHeight <= hi.height {
      assert U32(framebufferHeight) == framebufferHeight;
    }
  }

  /**
   * The requested image count: one more than the minimum (uint32_t
   * arithmetic), capped at the maximum only when the surface has one
   * (maxImageCount > 0).
   */
  function ImageCount(capabilities: SurfaceCapabilities): nat {
    var imageCount := U32(capabilities.minImageCount + 1);
    if capabilities.maxImageCount > 0 && imageCount > capabilities.maxImageCount then capabilities.maxImageCount
    else imageCount
  }

  /**
   * For a surface whose counts are uint32_t values below UINT32_MAX: with
   * no maximum the count is minImageCount + 1; with a maximum it is the
   * smaller of minImageCount + 1 and the maximum, so a well-formed range
   * (minImageCount <= maxImageCount) contains it.
   */
  lemma ImageCountBounds(capabilities: SurfaceCapabilities)
    requires capabilities.minImageCount < U32_MAX && IsU32(capabilities.maxImageCount)
    ensures var c := ImageCount(capabilities);
            && (capabilities.maxImageCount == 0 ==> c == capabilities.minImageCount + 1)
            && (capabilities.maxImageCount > 0 ==>
                  c == if capabilities.minImageCount + 1 <= capabilities.maxImageCount
                       then capabilities.minImageCount + 1 else capabilities.maxImageCount)
            && (0 < capabilities.maxImageCount && capabilities.minImageCount <= capabilities.maxImageCount ==>
                  capabilities.minImageCount <= c <= capabilities.maxImageCount)
  {
    assert IsU32(capabilities.minImageCount + 1);
  }

  /** The fields of VkSwapchainCreateInfoKHR that come from the choices above. */
  datatype SwapchainRequest = SwapchainRequest(minImageCount: nat, surfaceFormat: SurfaceFormat,
                                               extent: Extent, presentMode: nat)

  /** What createSwapChain asks vkCreateSwapchainKHR for. */
  function RequestFor(support: SwapChainSupport, framebufferWidth: int, framebufferHeight: int): SwapchainRequest
    requires |support.formats| > 0
  {
    SwapchainRequest(ImageCount(support.capabilities), FormatFor(support.formats),
                     ChooseSwapExtent(support.capabilities, framebufferWidth, framebufferHeight),
                     PresentModeFor(support.presentModes))
  }

  /** VkImageViewCreateInfo: a 2D colour view of one image in the swap chain's format. */
  datatype ViewRequest = ViewRequest(image: Handle, format: nat)

  /** VkFramebufferCreateInfo. */
  datatype FramebufferRequest = FramebufferRequest(renderPass: Handle, attachments: seq<Option<Handle>>,
                                                   width: nat, height: nat, layers: nat)

  /** The answers of a creation call to each request in turn. */
  function Attempts<R>(requests: seq<R>, create: R -> Option<Handle>): (r: seq<Option<Handle>>)
    ensures |r| == |requests|
    ensures forall i :: 0 <= i < |r| ==> r[i] == create(requests[i])
  {
    seq(|requests|, i requires 0 <= i < |requests| => create(requests[i]))
  }

  /** The number of leading successes of a run of creation calls. */
  function CreatedPrefix(results: seq<Option<Handle>>): (k: nat)
    ensures k <= |results|
    ensures forall i :: 0 <= i < k ==> results[i].Some?
    ensures k < |results| ==> results[k].None?
  {
    if |results| == 0 then 0
    else
      var k := CreatedPrefix(results[..|results| - 1]);
      assert forall i :: 0 <= i < |results| - 1 ==> results[..|results| - 1][i] == results[i];
      if k == |results| - 1 && results[|results| - 1].Some? then |results| else k
  }

  /** std::vector::resize to n of a vector of handles: kept prefix, new slots null. */
  function Resized(s: seq<Option<Handle>>, n: nat): (r: seq<Option<Handle>>)
    ensures |r| == n
    ensures forall i :: 0 <= i < n ==> r[i] == if i < |s| then s[i] else None
  {
    seq(n, i requires 0 <= i < n => if i < |s| then s[i] else None)
  }

  /** A loop that stores the first k results into `base`, slot by slot. */
  function Filled(results: seq<Option<Handle>>, k: nat, base: seq<Option<Handle>>): (r: seq<Option<Handle>>)
    requires k <= |results| == |base|
    ensures |r| == |results|
    ensures forall i :: 0 <= i < |r| ==> r[i] == if i < k then results[i] else base[i]
  {
    seq(|results|, i requires 0 <= i < |results| => if i < k then results[i] else base[i])
  }

  class SwapChain {
    var swapChain: Option<Handle>
    var swapChainImages: seq<Handle>
    var swapChainImageViews: seq<Option<Handle>>
    var swapChainFramebuffers: seq<Option<Handle>>
    var swapChainImageFormat: nat
    var swapChainExtent: Extent

    constructor()
      ensures swapChain == None && swapChainImages == [] && swapChainImageViews == [] && swapChainFramebuffers == []
    {
      swapChain := None;
      swapChainImages := [];
      swapChainImageViews := [];
      swapChainFramebuffers := [];
      swapChainImageFormat := 0;
      swapChainExtent := Extent(0, 0);
    }

    /** The view requests createImageViews makes, one per image. */
    function ViewRequests(): (r: seq<ViewRequest>)
      reads this
      ensures |r| == |swapChainImages|
      ensures forall i :: 0 <= i < |r| ==> r[i] == ViewRequest(swapChainImages[i], swapChainImageFormat)
    {
      var images := swapChainImages;
      var format := swapChainImageFormat;
      seq(|images|, i requires 0 <= i < |images| => ViewRequest(images[i], format))
    }

    /** The framebuffer requests createFramebuffers makes: one per view, attachments [view, depth]. */
    function FramebufferRequests(renderPass: Handle, depthImageView: Handle): (r: seq<FramebufferRequest>)
      reads this
      ensures |r| == |swapChainImageViews|
      ensures forall i :: 0 <= i < |r| ==>
                r[i] == FramebufferRequest(renderPass, [swapChainImageViews[i], Some(depthImageView)],
                                           swapChainExtent.width, swapChainExtent.height, 1)
    {
      var views := swapChainImageViews;
      var extent := swapChainExtent;
      seq(|views|, i requires 0 <= i < |views| =>
        FramebufferRequest(renderPass, [views[i], Some(depthImageView)], extent.width, extent.height, 1))
    }

    /**
     * createSwapChain: choose the format, mode, extent and image count,
     * create the swap chain, then take the images the driver returns and
     * keep the chosen format and extent. A failed creation throws and
     * changes nothing.
     */
    method CreateSwapChain(support: SwapChainSupport, framebufferWidth: int, framebufferHeight: int,
                           create: SwapchainRequest -> Option<Handle>, driverImages: seq<Handle>)
      returns (r: Outcome)
      requires |support.formats| > 0
      modifies this
      ensures var request := RequestFor(support, framebufferWidth, framebufferHeight);
              && (r.Ok? <==> create(request).Some?)
              && (r.Fail? ==> r.message == "failed to create swap chain"
                              && swapChain == old(swapChain) && swapChainImages == old(swapChainImages)
                              && swapChainImageFormat == old(swapChainImageFormat) && swapChainExtent == old(swapChainExtent))
              && (r.Ok? ==> swapChain == create(request) && swapChainImages == driverImages
                            && swapChainImageFormat == request.surfaceFormat.format && swapChainExtent == request.extent)
      ensures swapChainImageViews == old(swapChainImageViews) && swapChainFramebuffers == old(swapChainFramebuffers)
    {
      var surfaceFormat := ChooseSwapSurfaceFormat(support.formats);
      var presentMode := ChooseSwapPresentMode(support.presentModes);
      var extent := ChooseSwapExtent(support.capabilities, framebufferWidth, framebufferHeight);

      var imageCount := U32(support.capabilities.minImageCount + 1);
      if support.capabilities.maxImageCount > 0 && imageCount > support.capabilities.maxImageCount {
        imageCount := support.capabilities.maxImageCount;
      }

      var created := create(SwapchainRequest(imageCount, surfaceFormat, extent, presentMode));
      if created.None? {
        return Fail("failed to create swap chain");
      }
      swapChain := created;
      swapChainImages := driverImages;
      swapChainImageFormat := surfaceFormat.format;
      swapChainExtent := extent;
      return Ok;
    }

    /**
     * createImageViews: one view per image, stored slot by slot; the
     * first failure throws, leaving the views made so far in place.
     */
    method CreateImageViews(create: ViewRequest -> Option<Handle>) returns (r: Outcome)
      modifies this
      ensures swapChain == old(swapChain) && swapChainImages == old(swapChainImages) && swapChainFramebuffers == old(swapChainFramebuffers)
      ensures swapChainImageFormat == old(swapChainImageFormat) && swapChainExtent == old(swapChainExtent)
      ensures var results := Attempts(ViewRequests(), create);
              var k := CreatedPrefix(results);
              && |swapChainImageViews| == |swapChainImages|
              && swapChainImageViews == Filled(results, k, Resized(old(swapChainImageViews), |swapChainImages|))
              && (r.Ok? <==> k == |swapChainImages|)
              && (r.Fail? ==> r.message == "failed to create image views")
      ensures r.Ok? ==> forall i :: 0 <= i < |swapChainImages| ==>
                swapChainImageViews[i].Some? && swapChainImageViews[i] == create(ViewRequest(swapChainImages[i], swapChainImageFormat))
    {
      var requests := ViewRequests();
      ghost var results := Attempts(requests, create);
      ghost var base := Resized(swapChainImageViews, |swapChainImages|);
      swapChainImageViews := Resized(swapChainImageViews, |swapChainImages|);
      for i := 0 to |swapChainImages|
        invariant swapChain == old(swapChain) && swapChainImages == old(swapChainImages) && swapChainFramebuffers == old(swapChainFramebuffers)
        invariant swapChainImageFormat == old(swapChainImageFormat) && swapChainExtent == old(swapChainExtent)
        invariant requests == ViewRequests()
        invariant forall j :: 0 <= j < i ==> results[j].Some?
        invariant swapChainImageViews == Filled(results, i, base)
      {
        var view := create(requests[i]);
        assert results[i] == view;
        if view.None? {
          return Fail("failed to create image views");
        }
        swapChainImageViews := swapChainImageViews[i := view];
      }
      return Ok;
    }

    /**
     * createFramebuffers: one framebuffer per view, with attachments
     * [view, depth] and the swap chain's extent; the first failure throws.
     */
    method CreateFramebuffers(renderPass: Handle, depthImageView: Handle, create: FramebufferRequest -> Option<Handle>)
      returns (r: Outcome)
      modifies this
      ensures swapChain == old(swapChain) && swapChainImages == old(swapChainImages) && swapChainImageViews == old(swapChainImageViews)
      ensures swapChainImageFormat == old(swapChainImageFormat) && swapChainExtent == old(swapChainExtent)
      ensures var results := Attempts(FramebufferRequests(renderPass, depthImageView), create);
              var k := CreatedPrefix(results);
              && |swapChainFramebuffers| == |swapChainImageViews|
              && swapChainFramebuffers == Filled(results, k, Resized(old(swapChainFramebuffers), |swapChainImageViews|))
              && (r.Ok? <==> k == |swapChainImageViews|)
              && (r.Fail? ==> r.message == "failed to create framebuffer")
      ensures r.Ok? ==> forall i :: 0 <= i < |swapChainImageViews| ==>
                && swapChainFramebuffers[i].Some?
                && swapChainFramebuffers[i] == create(FramebufferRequest(renderPass, [swapChainImageViews[i], Some(depthImageView)],
                                                                         swapChainExtent.width, swapChainExtent.height, 1))
    {
      var requests := FramebufferRequests(renderPass, depthImageView);
      ghost var results := Attempts(requests, create);
      ghost var base := Resized(swapChainFramebuffers, |swapChainImageViews|);
      swapChainFramebuffers := Resized(swapChainFramebuffers, |swapChainImageViews|);
      for i := 0 to |swapChainImageViews|
        invariant swapChain == old(swapChain) && swapChainImages == old(swapChainImages) && swapChainImageViews == old(swapChainImageViews)
        invariant swapChainImageFormat == old(swapChainImageFormat) && swapChainExtent == old(swapChainExtent)
        invariant requests == FramebufferRequests(renderPass, depthImageView)
        invariant forall j :: 0 <= j < i ==> results[j].Some?
        invariant swapChainFramebuffers == Filled(results, i, base)
      {
        var framebuffer := create(requests[i]);
        assert results[i] == framebuffer;
        if framebuffer.None? {
          return Fail("failed to create framebuffer");
        }
        swapChainFramebuffers := swapChainFramebuffers[i := framebuffer];
      }
      return Ok;
    }

    /** The SwapChain constructor: createSwapChain, then createImageViews. */
    method Create(support: SwapChainSupport, framebufferWidth: int, framebufferHeight: int,
                  createSwapchain: SwapchainRequest -> Option<Handle>, driverImages: seq<Handle>,
                  createView: ViewRequest -> Option<Handle>)
      returns (r: Outcome)
      requires |support.formats| > 0
      modifies this
      ensures swapChainFramebuffers == old(swapChainFramebuffers)
      ensures var request := RequestFor(support, framebufferWidth, framebufferHeight);
              var format := request.surfaceFormat.format;
              r.Ok? <==> && createSwapchain(request).Some?
                         && forall i :: 0 <= i < |driverImages| ==> createView(ViewRequest(driverImages[i], format)).Some?
      ensures var request := RequestFor(support, framebufferWidth, framebufferHeight);
              createSwapchain(request).None? ==>
                && r == Fail("failed to create swap chain")
                && swapChain == old(swapChain) && swapChainImages == old(swapChainImages)
                && swapChainImageViews == old(swapChainImageViews)
                && swapChainImageFormat == old(swapChainImageFormat) && swapChainExtent == old(swapChainExtent)
      ensures var request := RequestFor(support, framebufferWidth, framebufferHeight);
              var results := Attempts(ViewRequests(), createView);
              createSwapchain(request).Some? ==>
                && swapChain == createSwapchain(request) && swapChainImages == driverImages
                && swapChainImageFormat == request.surfaceFormat.format && swapChainExtent == request.extent
                && swapChainImageViews == Filled(results, CreatedPrefix(results), Resized(old(swapChainImageViews), |driverImages|))
                && (r.Fail? ==> r.message == "failed to create image views")
      ensures r.Ok? ==> && |swapChainImageViews| == |driverImages|
                        && forall i :: 0 <= i < |driverImages| ==>
                             && swapChainImageViews[i].Some?
                             && swapChainImageViews[i] == createView(ViewRequest(driverImages[i], swapChainImageFormat))
    {
      r := CreateSwapChain(support, framebufferWidth, framebufferHeight, createSwapchain, driverImages);
      if r.Fail? {
        return;
      }
      r := CreateImageViews(createView);
    }
  }
}
