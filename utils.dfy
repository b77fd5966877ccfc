// src/renderer/utils.rs: the second copy of `pad_uniform_buffer_size`.

module Utils {
  import opened Vk
  import VkUtils

  /**
   * The same masked round-up as in vkutils.rs, written out again; it agrees
   * with that copy on every input the two accept.
   */
  function PadUniformBufferSize(originalSize: nat, alignment: nat): (r: nat)
    requires IsU64(originalSize) && IsU64(alignment)
    requires alignment > 0 ==> IsU64(originalSize + alignment - 1)
    ensures r == VkUtils.PadUniformBufferSize(originalSize, alignment)
  {
    if alignment > 0 then
      VkUtils.BitAnd(originalSize + alignment - 1, VkUtils.BitNot64(alignment - 1))
    else
      originalSize
  }

  /** The unit tests of utils.rs. */
  lemma PadTestVectors()
    ensures PadUniformBufferSize(32, 0) == 32
    ensures PadUniformBufferSize(32, 32) == 32
    ensures PadUniformBufferSize(32, 64) == 64
  {
    VkUtils.PadTestVectorsPowerOfTwo();
  }
}
