// src/renderer/swapchain.rs: the choices `create_swapchain` makes from the
// surface's capabilities (image count, sharing mode, format, present mode
// and extent) and the one-view-per-image rule of `create_image_views`.
// The surface queries and the device calls themselves are not modelled;
// their results are the parameters.

module Swapchain {
  import opened Vk

  datatype ColorSpace = SrgbNonlinear | OtherColorSpace(code: nat)

  /** `VkSurfaceFormatKHR`. */
  datatype SurfaceFormat = SurfaceFormat(format: Format, colorSpace: ColorSpace)

  datatype PresentMode = Immediate | Mailbox | Fifo | FifoRelaxed | OtherPresentMode(code: nat)

  /** The parts of `VkSurfaceCapabilitiesKHR` the choices read. */
  datatype Capabilities = Capabilities(
    minImageCount: nat,
    maxImageCount: nat,
    currentExtent: Extent2D,
    minImageExtent: Extent2D,
    maxImageExtent: Extent2D)

  // ---------------------------------------------------------------------
  // Image count

  /**
   * One image more than the minimum, unless that exceeds a maximum; a
   * maximum of 0 means the surface sets no limit. `min + 1` is a u32
   * addition, which the caller must keep from overflowing.
   */
  function MinImageCount(caps: Capabilities): (r: nat)
    requires IsU32(caps.minImageCount + 1) && IsU32(caps.maxImageCount)
    ensures IsU32(r) && r >= 1
    ensures caps.maxImageCount == 0 ==> r == caps.minImageCount + 1
    ensures caps.maxImageCount > 0 ==> r <= caps.maxImageCount
    ensures caps.maxImageCount > 0 && caps.minImageCount <= caps.maxImageCount
            ==> caps.minImageCount <= r
    ensures r <= caps.minImageCount + 1
  {
    var min, max := caps.minImageCount, caps.maxImageCount;
    if max > 0 && min + 1 > max then max else min + 1
  }

  /** The count is the largest value not above `min + 1` that the maximum allows. */
  lemma MinImageCountIsLargestAllowed(caps: Capabilities, n: nat)
    requires IsU32(caps.minImageCount + 1) && IsU32(caps.maxImageCount)
    requires n <= caps.minImageCount + 1
    requires caps.maxImageCount > 0 ==> n <= caps.maxImageCount
    ensures n <= MinImageCount(caps)
  {
  }

  // ---------------------------------------------------------------------
  // Sharing mode

  datatype SharingMode = Exclusive | Concurrent

  datatype Sharing = Sharing(mode: SharingMode, queueFamilyIndexCount: nat, queueFamilyIndices: seq<nat>)

  /**
   * Images are shared between the two families when they differ and owned
   * by one family when they are the same. When they differ both are
   * unwrapped, so neither may be `None`.
   */
  function ChooseSharing(graphics: Option<nat>, present: Option<nat>): (r: Sharing)
    requires graphics != present ==> graphics.Some? && present.Some?
    ensures r.mode == Concurrent <==> graphics != present
    ensures r.queueFamilyIndexCount == |r.queueFamilyIndices|
    ensures r.mode == Concurrent ==> r.queueFamilyIndices == [graphics.value, present.value]
    ensures r.mode == Exclusive ==> r.queueFamilyIndices == []
  {
    if graphics != present then Sharing(Concurrent, 2, [graphics.value, present.value])
    else Sharing(Exclusive, 0, [])
  }

  // ---------------------------------------------------------------------
  // Surface format and present mode

  const PREFERRED_FORMAT: SurfaceFormat := SurfaceFormat(B8G8R8A8Srgb, SrgbNonlinear)

  predicate IsPreferred(f: SurfaceFormat)
  {
    f.format == B8G8R8A8Srgb && f.colorSpace == SrgbNonlinear
  }

  /** The index `Iterator::find` stops at: the first preferred entry. */
  function FirstPreferredIndex(formats: seq<SurfaceFormat>): (i: nat)
    requires exists k :: 0 <= k < |formats| && IsPreferred(formats[k])
    ensures i < |formats| && IsPreferred(formats[i])
    ensures forall j :: 0 <= j < i ==> !IsPreferred(formats[j])
  {
    if IsPreferred(formats[0]) then 0
    else
      assert exists k :: 0 <= k < |formats[1..]| && IsPreferred(formats[1..][k]) by {
        var k :| 0 <= k < |formats| && IsPreferred(formats[k]);
        assert formats[1..][k - 1] == formats[k];
      }
      1 + FirstPreferredIndex(formats[1..])
  }

  /** `choose_swapchain_surface_format`: the `unwrap` panics when no entry is preferred. */
  function ChooseSurfaceFormat(formats: seq<SurfaceFormat>): (r: SurfaceFormat)
    requires exists k :: 0 <= k < |formats| && IsPreferred(formats[k])
    ensures r == PREFERRED_FORMAT
    ensures r in formats
  {
    formats[FirstPreferredIndex(formats)]
  }

  /** `choose_swapchain_present_mode`: FIFO_RELAXED if offered, else FIFO, which every surface supports. */
  function ChoosePresentMode(modes: seq<PresentMode>): (r: PresentMode)
    ensures r == FifoRelaxed <==> FifoRelaxed in modes
    ensures r == Fifo <==> FifoRelaxed !in modes
  {
    if FifoRelaxed in modes then FifoRelaxed else Fifo
  }

  // ---------------------------------------------------------------------
  // Extent

  /** `num::clamp`, whose debug assertion demands `lo <= hi`. */
  function Clamp(x: nat, lo: nat, hi: nat): (r: nat)
    requires lo <= hi
    ensures lo <= r <= hi
    ensures lo <= x <= hi ==> r == x
    ensures x < lo ==> r == lo
    ensures x > hi ==> r == hi
  {
    if x < lo then lo else if x > hi then hi else x
  }

  /** The clamped value is the value of the range nearest to `x`. */
  lemma ClampIsNearest(x: nat, lo: nat, hi: nat, y: nat)
    requires lo <= hi && lo <= y <= hi
    ensures (if Clamp(x, lo, hi) >= x then Clamp(x, lo, hi) - x else x - Clamp(x, lo, hi))
            <= (if y >= x then y - x else x - y)
  {
  }

  /**
   * `choose_swapchain_extent`: a current width of `u32::MAX` is the sentinel
   * by which a surface lets the swapchain choose its size (Vulkan 1.3
   * specification, "Surface Queries"); the window size is then clamped to
   * the surface's limits, which must be ordered for `num::clamp`.
   */
  function ChooseExtent(caps: Capabilities, window: Extent2D): (r: Extent2D)
    requires caps.currentExtent.width == U32_MAX ==>
               caps.minImageExtent.width <= caps.maxImageExtent.width
               && caps.minImageExtent.height <= caps.maxImageExtent.height
    ensures caps.currentExtent.width != U32_MAX ==> r == caps.currentExtent
    ensures caps.currentExtent.width == U32_MAX ==>
              && caps.minImageExtent.width <= r.width <= caps.maxImageExtent.width
              && caps.minImageExtent.height <= r.height <= caps.maxImageExtent.height
    ensures caps.currentExtent.width == U32_MAX ==>
              r == Extent2D(Clamp(window.width, caps.minImageExtent.width, caps.maxImageExtent.width),
                            Clamp(window.height, caps.minImageExtent.height, caps.maxImageExtent.height))
  {
    if caps.currentExtent.width != U32_MAX then caps.currentExtent
    else
      Extent2D(Clamp(window.width, caps.minImageExtent.width, caps.maxImageExtent.width),
               Clamp(window.height, caps.minImageExtent.height, caps.maxImageExtent.height))
  }

  /** A window that already fits the surface's limits keeps its size. */
  lemma FittingWindowKeepsItsSize(caps: Capabilities, window: Extent2D)
    requires caps.currentExtent.width == U32_MAX
    requires caps.minImageExtent.width <= window.width <= caps.maxImageExtent.width
    requires caps.minImageExtent.height <= window.height <= caps.maxImageExtent.height
    ensures ChooseExtent(caps, window) == window
  {
  }

  // ---------------------------------------------------------------------
  // Image views

  /** The parts of `VkImageViewCreateInfo` that vary or matter. */
  datatype ImageViewInfo = ImageViewInfo(
    image: Handle,
    format: Format,
    aspectMask: bv32,
    baseMipLevel: nat,
    levelCount: nat,
    baseArrayLayer: nat,
    layerCount: nat)

  function ViewInfo(image: Handle, format: Format): ImageViewInfo
  {
    ImageViewInfo(image, format, IMAGE_ASPECT_COLOR, 0, 1, 0, 1)
  }

  /** The create infos `create_image_views` maps over the swapchain's images. */
  function ImageViewInfos(images: seq<Handle>, format: Format): (r: seq<ImageViewInfo>)
    ensures |r| == |images|
    ensures forall i :: 0 <= i < |r| ==> r[i].image == images[i] && r[i].format == format
    ensures forall i :: 0 <= i < |r| ==> r[i].aspectMask == IMAGE_ASPECT_COLOR
                                         && r[i].levelCount == 1 && r[i].layerCount == 1
  {
    seq(|images|, i requires 0 <= i < |images| => ViewInfo(images[i], format))
  }

  /**
   * Collecting the device's answers into a `VkResult<Vec<_>>`: the views in
   * image order when every creation succeeded, else the first error.
   * `created[i]` is the device's answer for image `i`.
   */
  function CollectViews(created: seq<Result<Handle>>): (r: Result<seq<Handle>>)
    ensures r.Ok? <==> forall i :: 0 <= i < |created| ==> created[i].Ok?
    ensures r.Ok? ==> |r.value| == |created|
                      && forall i :: 0 <= i < |created| ==> r.value[i] == created[i].value
  {
    if created == [] then Ok([])
    else if created[0].Err? then Err(created[0].msg)
    else
      var rest := CollectViews(created[1..]);
      if rest.Err? then
        assert exists i :: 0 <= i < |created[1..]| && !created[1..][i].Ok?;
        Err(rest.msg)
      else
        assert forall i :: 1 <= i < |created| ==> created[i] == created[1..][i - 1];
        Ok([created[0].value] + rest.value)
  }

  /** On failure the error is the one of the first image whose view could not be created. */
  lemma {:induction false} CollectViewsReportsFirstError(created: seq<Result<Handle>>, k: nat)
    requires k < |created| && created[k].Err?
    requires forall j :: 0 <= j < k ==> created[j].Ok?
    ensures CollectViews(created) == Err(created[k].msg)
  {
    if k > 0 {
      CollectViewsReportsFirstError(created[1..], k - 1);
    }
  }
}
