// Shared vocabulary for the renderer model: optional values, results with
// the renderer's error messages, fixed-width integer bounds, opaque Vulkan
// handles and the few Vulkan enumerations that several components share.

module Vk {

  datatype Option<T> = None | Some(value: T)

  /** An `eyre::Result`: either a value or the error message the renderer reports. */
  datatype Result<T> = Ok(value: T) | Err(msg: string)

  const U32_LIMIT: nat := 0x1_0000_0000
  const U32_MAX: nat := 0xFFFF_FFFF
  const U64_LIMIT: nat := 0x1_0000_0000_0000_0000

  predicate IsU32(x: int) { 0 <= x < U32_LIMIT }
  predicate IsU64(x: int) { 0 <= x < U64_LIMIT }

  /** Every Vulkan handle (image, buffer, pipeline, ...) is an opaque value. */
  type Handle = nat

  datatype Format =
    | Undefined
    | B8G8R8A8Srgb
    | B8G8R8A8Unorm
    | R8G8B8A8Unorm
    | R16G16B16A16Sfloat
    | R32G32Sfloat
    | R32G32B32Sfloat
    | D32Sfloat
    | OtherFormat(code: nat)

  /** Bytes per element of a format, 0 where no size matters here. */
  function FormatSize(f: Format): nat
  {
    match f
    case B8G8R8A8Srgb => 4
    case B8G8R8A8Unorm => 4
    case R8G8B8A8Unorm => 4
    case R16G16B16A16Sfloat => 8
    case R32G32Sfloat => 8
    case R32G32B32Sfloat => 12
    case D32Sfloat => 4
    case _ => 0
  }

  datatype Filter = Nearest | Linear

  datatype AddressMode = Repeat | MirroredRepeat | ClampToEdge | ClampToBorder

  /** The fields of `vk::SamplerCreateInfo` the renderer sets. */
  datatype SamplerInfo = SamplerInfo(magFilter: Filter, minFilter: Filter,
                                     addressModeU: AddressMode, addressModeV: AddressMode, addressModeW: AddressMode)

  datatype CompareOp = Never | Less | Equal | LessOrEqual | Greater | NotEqual | GreaterOrEqual | Always

  datatype PipelineBindPoint = Graphics | Compute

  /** `VkImageLayout` is an enumeration compared only for equality here. */
  type ImageLayout = nat

  const IMAGE_LAYOUT_UNDEFINED: ImageLayout := 0
  const IMAGE_LAYOUT_TRANSFER_SRC_OPTIMAL: ImageLayout := 6
  const IMAGE_LAYOUT_TRANSFER_DST_OPTIMAL: ImageLayout := 7

  const IMAGE_ASPECT_COLOR: bv32 := 0x1
  const IMAGE_ASPECT_DEPTH: bv32 := 0x2

  /** `VkExtent2D`. */
  datatype Extent2D = Extent2D(width: nat, height: nat)

  function Sum(s: seq<nat>): (r: nat)
  {
    if s == [] then 0 else Sum(s[..|s| - 1]) + s[|s| - 1]
  }

  lemma SumAppend(s: seq<nat>, x: nat)
    ensures Sum(s + [x]) == Sum(s) + x
  {
    assert (s + [x])[..|s + [x]| - 1] == s;
  }
}
