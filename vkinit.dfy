// src/renderer/vkinit.rs: constructors of Vulkan create-info structures.
// Only the fields these constructors set are modelled; the others keep
// Vulkan's defaults. Addresses of attached data are left out.

module VkInit {
  import opened Vk

  const VK_FALSE: bv32 := 0
  const VK_TRUE: bv32 := 1

  function Bool32(b: bool): (r: bv32)
    ensures r == VK_TRUE <==> b
    ensures r == VK_FALSE <==> !b
  {
    if b then VK_TRUE else VK_FALSE
  }

  datatype DepthStencilInfo = DepthStencilInfo(
    depthTestEnable: bv32, depthWriteEnable: bv32, depthCompareOp: CompareOp,
    depthBoundsTestEnable: bv32, minDepthBounds: real, maxDepthBounds: real, stencilTestEnable: bv32)

  /**
   * `depth_stencil_create_info`: the compare op applies only with the test
   * on (ALWAYS otherwise); the write flag is taken as given, whatever the
   * test flag; bounds and stencil tests are off, with bounds [0, 1].
   */
  function DepthStencil(testEnable: bool, writeEnable: bool, compareOp: CompareOp): (r: DepthStencilInfo)
    ensures r.depthTestEnable == VK_TRUE <==> testEnable
    ensures r.depthWriteEnable == VK_TRUE <==> writeEnable
    ensures r.depthCompareOp == if testEnable then compareOp else Always
    ensures r.depthBoundsTestEnable == VK_FALSE && r.stencilTestEnable == VK_FALSE
    ensures r.minDepthBounds == 0.0 && r.maxDepthBounds == 1.0
  {
    DepthStencilInfo(Bool32(testEnable), Bool32(writeEnable), if testEnable then compareOp else Always,
                     VK_FALSE, 0.0, 1.0, VK_FALSE)
  }

  /** With the test off, the compare op passed in is irrelevant. */
  lemma DisabledTestIgnoresCompareOp(writeEnable: bool, a: CompareOp, b: CompareOp)
    ensures DepthStencil(false, writeEnable, a) == DepthStencil(false, writeEnable, b)
  {
  }

  datatype LoadOp = Load | Clear | DontCare
  datatype StoreOp = Store | DontStore

  /** `vk::ClearValue`, as the colour or depth/stencil it carries. */
  datatype ClearValue = ClearValue(values: seq<real>)

  /** `vk::ClearValue::default()`: all zeros. */
  const DEFAULT_CLEAR: ClearValue := ClearValue([0.0, 0.0, 0.0, 0.0])

  datatype AttachmentInfo = AttachmentInfo(view: Handle, layout: ImageLayout, loadOp: LoadOp, storeOp: StoreOp, clear: ClearValue)

  /**
   * `attachment_info`: the attachment is cleared to the given value iff one
   * is given, and loaded (with the default clear value kept) otherwise; it
   * is always stored.
   */
  function Attachment(view: Handle, clear: Option<ClearValue>, layout: ImageLayout): (r: AttachmentInfo)
    ensures r.view == view && r.layout == layout && r.storeOp == Store
    ensures r.loadOp == Clear <==> clear.Some?
    ensures r.loadOp == Load <==> clear.None?
    ensures r.clear == if clear.Some? then clear.value else DEFAULT_CLEAR
  {
    match clear
    case Some(c) => AttachmentInfo(view, layout, Clear, Store, c)
    case None => AttachmentInfo(view, layout, Load, Store, DEFAULT_CLEAR)
  }

  /** `sampler_create_info`: one filter for both magnification and minification, one address mode on all three axes. */
  function SamplerCreate(filter: Filter, mode: AddressMode): (r: SamplerInfo)
    ensures r.magFilter == r.minFilter == filter
    ensures r.addressModeU == r.addressModeV == r.addressModeW == mode
  {
    SamplerInfo(filter, filter, mode, mode, mode)
  }

  /** Distinct filter or mode arguments give distinct samplers. */
  lemma SamplerInjective(f1: Filter, m1: AddressMode, f2: Filter, m2: AddressMode)
    ensures SamplerCreate(f1, m1) == SamplerCreate(f2, m2) <==> f1 == f2 && m1 == m2
  {
  }

  datatype SubresourceRange = SubresourceRange(aspectMask: bv32, baseMipLevel: nat, levelCount: nat,
                                               baseArrayLayer: nat, layerCount: nat)

  /** `image_subresource_range`: the first mip level and the first array layer only. */
  function SubresourceRangeOf(aspect: bv32): (r: SubresourceRange)
    ensures r.aspectMask == aspect
    ensures r.baseMipLevel == 0 && r.levelCount == 1 && r.baseArrayLayer == 0 && r.layerCount == 1
  {
    SubresourceRange(aspect, 0, 1, 0, 1)
  }

  datatype Extent3D = Extent3D(width: nat, height: nat, depth: nat)

  datatype ImageType = Image1D | Image2D | Image3D
  datatype Tiling = OptimalTiling | LinearTiling

  datatype ImageInfo = ImageInfo(imageType: ImageType, format: Format, extent: Extent3D, mipLevels: nat,
                                 arrayLayers: nat, samples: nat, tiling: Tiling, usage: bv32)

  /** `image_create_info`: a single-sampled, optimally tiled 2D image with one mip level and one layer. */
  function ImageCreate(format: Format, usage: bv32, extent: Extent3D): (r: ImageInfo)
    ensures r.imageType == Image2D && r.format == format && r.extent == extent && r.usage == usage
    ensures r.mipLevels == 1 && r.arrayLayers == 1 && r.samples == 1 && r.tiling == OptimalTiling
  {
    ImageInfo(Image2D, format, extent, 1, 1, 1, OptimalTiling, usage)
  }

  datatype ViewType = View1D | View2D | View3D | ViewCube

  datatype ImageViewInfo = ImageViewInfo(viewType: ViewType, image: Handle, format: Format, range: SubresourceRange)

  /** `image_view_create_info`: a 2D view of the image's whole single level and layer, with the given aspect. */
  function ImageViewCreate(format: Format, image: Handle, aspect: bv32): (r: ImageViewInfo)
    ensures r.viewType == View2D && r.image == image && r.format == format
    ensures r.range == SubresourceRangeOf(aspect)
  {
    ImageViewInfo(View2D, image, format, SubresourceRange(aspect, 0, 1, 0, 1))
  }

  datatype DescriptorType = Sampler | CombinedImageSampler | SampledImage | StorageImage
                          | UniformBuffer | StorageBuffer | UniformBufferDynamic | StorageBufferDynamic

  datatype LayoutBinding = LayoutBinding(binding: nat, descriptorCount: nat, descriptorType: DescriptorType, stageFlags: bv32)

  /** `descriptor_set_layout_binding`: one descriptor at the given binding. */
  function DescriptorSetLayoutBinding(t: DescriptorType, stages: bv32, binding: nat): (r: LayoutBinding)
    ensures r.binding == binding && r.descriptorCount == 1 && r.descriptorType == t && r.stageFlags == stages
  {
    LayoutBinding(binding, 1, t, stages)
  }

  /** The resource a descriptor write points at. */
  datatype WriteTarget = BufferInfo(buffer: Handle) | ImageInfoOf(image: Handle)

  datatype WriteDescriptor = WriteDescriptor(dstBinding: nat, dstSet: Handle, descriptorCount: nat,
                                             descriptorType: DescriptorType, target: WriteTarget)

  /** `write_descriptor_buffer`: one descriptor of the given type, at the given set and binding, pointing at a buffer. */
  function WriteDescriptorBuffer(t: DescriptorType, dstSet: Handle, binding: nat, buffer: Handle): (r: WriteDescriptor)
    ensures r.dstSet == dstSet && r.dstBinding == binding && r.descriptorType == t && r.descriptorCount == 1
    ensures r.target.BufferInfo? && r.target.buffer == buffer
  {
    WriteDescriptor(binding, dstSet, 1, t, BufferInfo(buffer))
  }

  /** `write_descriptor_image`: the same, pointing at an image. */
  function WriteDescriptorImage(t: DescriptorType, dstSet: Handle, binding: nat, image: Handle): (r: WriteDescriptor)
    ensures r.dstSet == dstSet && r.dstBinding == binding && r.descriptorType == t && r.descriptorCount == 1
    ensures r.target.ImageInfoOf? && r.target.image == image
  {
    WriteDescriptor(binding, dstSet, 1, t, ImageInfoOf(image))
  }

  datatype SubmitInfo = SubmitInfo(waitSemaphores: seq<Handle>, commandBuffers: seq<Handle>, signalSemaphores: seq<Handle>)

  /** `submit_info`: exactly the one command buffer, with nothing to wait on and nothing to signal. */
  function Submit(cmd: Handle): (r: SubmitInfo)
    ensures |r.commandBuffers| == 1 && r.commandBuffers[0] == cmd
    ensures |r.waitSemaphores| == 0 && |r.signalSemaphores| == 0
  {
    SubmitInfo([], [cmd], [])
  }

  // ---------------------------------------------------------------------
  // Debug messenger

  const SEVERITY_VERBOSE: bv32 := 0x1
  const SEVERITY_INFO: bv32 := 0x10
  const SEVERITY_WARNING: bv32 := 0x100
  const SEVERITY_ERROR: bv32 := 0x1000

  const TYPE_GENERAL: bv32 := 0x1
  const TYPE_VALIDATION: bv32 := 0x2
  const TYPE_PERFORMANCE: bv32 := 0x4

  /** `debug_utils_messenger_create_info`: verbose, warning and error messages of all three types. */
  const MESSENGER_SEVERITIES: bv32 := SEVERITY_VERBOSE | SEVERITY_WARNING | SEVERITY_ERROR
  const MESSENGER_TYPES: bv32 := TYPE_GENERAL | TYPE_VALIDATION | TYPE_PERFORMANCE

  const UNKNOWN_LABEL: string := "[Unknown]"

  /** The severity label: the value must be exactly one known flag; anything else is unknown. */
  function SeverityLabel(severity: bv32): (tag: string)
    ensures tag != UNKNOWN_LABEL <==> severity in {SEVERITY_VERBOSE, SEVERITY_INFO, SEVERITY_WARNING, SEVERITY_ERROR}
    ensures severity == SEVERITY_VERBOSE ==> tag == "[Verbose]"
    ensures severity == SEVERITY_INFO ==> tag == "[Info]"
    ensures severity == SEVERITY_WARNING ==> tag == "[Warning]"
    ensures severity == SEVERITY_ERROR ==> tag == "[Error]"
  {
    if severity == SEVERITY_VERBOSE then "[Verbose]"
    else if severity == SEVERITY_WARNING then "[Warning]"
    else if severity == SEVERITY_ERROR then "[Error]"
    else if severity == SEVERITY_INFO then "[Info]"
    else UNKNOWN_LABEL
  }

  /** The type label, likewise for exactly one known type flag. */
  function TypeLabel(messageType: bv32): (tag: string)
    ensures tag != UNKNOWN_LABEL <==> messageType in {TYPE_GENERAL, TYPE_VALIDATION, TYPE_PERFORMANCE}
    ensures messageType == TYPE_GENERAL ==> tag == "[General]"
    ensures messageType == TYPE_VALIDATION ==> tag == "[Validation]"
    ensures messageType == TYPE_PERFORMANCE ==> tag == "[Performance]"
  {
    if messageType == TYPE_GENERAL then "[General]"
    else if messageType == TYPE_PERFORMANCE then "[Performance]"
    else if messageType == TYPE_VALIDATION then "[Validation]"
    else UNKNOWN_LABEL
  }

  /**
   * `debug_callback`: the log line's prefix is the severity label followed
   * by the type label, and the callback always returns FALSE, so the call
   * that triggered it is never aborted.
   */
  function DebugCallback(severity: bv32, messageType: bv32): (r: (string, bv32))
    ensures r.1 == VK_FALSE
    ensures r.0 == SeverityLabel(severity) + TypeLabel(messageType)
  {
    (SeverityLabel(severity) + TypeLabel(messageType), VK_FALSE)
  }

  /** A message with two severity bits set at once is labelled unknown. */
  lemma CombinedSeverityIsUnknown()
    ensures SeverityLabel(SEVERITY_WARNING | SEVERITY_ERROR) == UNKNOWN_LABEL
  {
  }

  /** Every single severity the messenger subscribes to gets a known label. */
  lemma SubscribedSeveritiesAreLabelled(severity: bv32)
    requires severity in {SEVERITY_VERBOSE, SEVERITY_WARNING, SEVERITY_ERROR}
    ensures severity & MESSENGER_SEVERITIES == severity
    ensures SeverityLabel(severity) != UNKNOWN_LABEL
  {
  }
}
