// src/renderer/vkutils.rs: uniform-buffer padding with u64 bit arithmetic,
// and the two command helpers that build a blit region or a layout barrier.

module VkUtils {
  import opened Vk

  function Pow2(k: nat): (r: nat)
    ensures r >= 1
  {
    if k == 0 then 1 else 2 * Pow2(k - 1)
  }

  /** Bitwise AND of two naturals, one bit at a time (`&` on u64 operands). */
  function BitAnd(x: nat, y: nat): nat
    decreases x
  {
    if x == 0 || y == 0 then 0
    else 2 * BitAnd(x / 2, y / 2) + (if x % 2 == 1 && y % 2 == 1 then 1 else 0)
  }

  /** Bitwise NOT of a u64 value. */
  function BitNot64(m: nat): nat
    requires IsU64(m)
  {
    U64_MAX - m
  }

  const U64_MAX: nat := 0xFFFF_FFFF_FFFF_FFFF

  /**
   * `pad_uniform_buffer_size`: with a non-zero alignment `a` the size is
   * `(size + a - 1) & !(a - 1)`; with alignment 0 the size is returned as is.
   * The addition must stay inside u64, otherwise the source overflows.
   */
  function PadUniformBufferSize(originalSize: nat, alignment: nat): (r: nat)
    requires IsU64(originalSize) && IsU64(alignment)
    requires alignment > 0 ==> IsU64(originalSize + alignment - 1)
    ensures IsU64(r)
    ensures alignment == 0 ==> r == originalSize
  {
    if alignment > 0 then
      AndBound(originalSize + alignment - 1, BitNot64(alignment - 1));
      BitAnd(originalSize + alignment - 1, BitNot64(alignment - 1))
    else
      originalSize
  }

  lemma AndBound(x: nat, y: nat)
    ensures BitAnd(x, y) <= x
    decreases x
  {
    if x != 0 && y != 0 {
      AndBound(x / 2, y / 2);
    }
  }

  /** Masking with all ones below bit `n` keeps every value below `2^n`. */
  lemma {:induction false} AndOnes(y: nat, n: nat)
    requires y < Pow2(n)
    ensures BitAnd(y, Pow2(n) - 1) == y
  {
    if n == 0 || y == 0 {
    } else {
      assert (Pow2(n) - 1) % 2 == 1 && (Pow2(n) - 1) / 2 == Pow2(n - 1) - 1;
      AndOnes(y / 2, n - 1);
    }
  }

  /** The low `k` bits of `y`, peeled off one at a time. */
  function LowBits(y: nat, k: nat): nat
  {
    if k == 0 then 0 else 2 * LowBits(y / 2, k - 1) + y % 2
  }

  /** `y` shifted right by `k` bits. */
  function HighBits(y: nat, k: nat): nat
  {
    if k == 0 then y else HighBits(y / 2, k - 1)
  }

  lemma {:induction false} SplitBits(y: nat, k: nat)
    ensures LowBits(y, k) < Pow2(k)
    ensures y == Pow2(k) * HighBits(y, k) + LowBits(y, k)
  {
    if k > 0 {
      SplitBits(y / 2, k - 1);
      DoubleSplit(y, Pow2(k - 1), HighBits(y / 2, k - 1), LowBits(y / 2, k - 1));
    }
  }

  /** Doubling a split of `y / 2` and adding the low bit splits `y`. */
  lemma DoubleSplit(y: nat, p: nat, h: nat, l: nat)
    requires y / 2 == p * h + l
    ensures y == (2 * p) * h + (2 * l + y % 2)
  {
    Twice(p, h);
  }

  lemma Twice(x: nat, y: nat)
    ensures (2 * x) * y == 2 * (x * y)
  {
  }

  lemma ModUnique(y: nat, d: nat, q: nat, r: nat)
    requires d > 0 && r < d && y == q * d + r
    ensures y % d == r && y / d == q
  {
    var q', r' := y / d, y % d;
    assert y == q' * d + r';
    if q < q' {
      MulStrict(q, q', d);
    } else if q' < q {
      MulStrict(q', q, d);
    }
  }

  lemma MulStrict(a: nat, b: nat, d: nat)
    requires a < b
    ensures a * d + d <= b * d
  {
    MulMonotone(a + 1, b, d);
    assert (a + 1) * d == a * d + d;
  }

  lemma MulMonotone(a: nat, b: nat, d: nat)
    requires a <= b
    ensures a * d <= b * d
  {
    assert b * d == a * d + (b - a) * d;
  }

  lemma {:induction false} Pow2Add(a: nat, b: nat)
    ensures Pow2(a + b) == Pow2(a) * Pow2(b)
    decreases a
  {
    if a > 0 {
      Pow2Add(a - 1, b);
      Twice(Pow2(a - 1), Pow2(b));
    }
  }

  lemma Pow2Is64BitLimit()
    ensures Pow2(64) == U64_LIMIT
  {
    assert Pow2(8) == 256;
    Pow2Add(8, 8);
    assert Pow2(16) == 65536;
    Pow2Add(16, 16);
    assert Pow2(32) == 0x1_0000_0000;
    Pow2Add(32, 32);
  }

  /**
   * Masking with the bits from `k` up to `n` clears the low `k` bits of a
   * value below `2^n`.
   */
  lemma {:induction false} AndHighMask(y: nat, n: nat, k: nat)
    requires k <= n && y < Pow2(n) && Pow2(k) <= Pow2(n)
    ensures BitAnd(y, Pow2(n) - Pow2(k)) == y - LowBits(y, k)
    decreases k
  {
    if k == 0 {
      AndOnes(y, n);
    } else if k == n {
      LowBitsOfSmall(y, n);
    } else {
      AndHighMask(y / 2, n - 1, k - 1);
      AndHighMaskStep(y, n, k);
    }
  }

  /** A value below `2^n` is its own low `n` bits. */
  lemma LowBitsOfSmall(y: nat, n: nat)
    requires y < Pow2(n)
    ensures LowBits(y, n) == y
  {
    SplitBits(y, n);
    if HighBits(y, n) > 0 {
      MulMonotone(1, HighBits(y, n), Pow2(n));
    }
  }

  /** One bit of `AndHighMask`: the mask is even, so the lowest bit is cleared and the rest is the mask one bit shorter. */
  lemma AndHighMaskStep(y: nat, n: nat, k: nat)
    requires 0 < k < n && Pow2(k) <= Pow2(n)
    requires BitAnd(y / 2, Pow2(n - 1) - Pow2(k - 1)) == y / 2 - LowBits(y / 2, k - 1)
    ensures BitAnd(y, Pow2(n) - Pow2(k)) == y - LowBits(y, k)
  {
    var p, q := Pow2(n - 1), Pow2(k - 1);
    assert Pow2(n) == 2 * p && Pow2(k) == 2 * q;
    var h := p - q;
    var m := 2 * h;
    assert Pow2(n) - Pow2(k) == m;
    assert m % 2 == 0 && m / 2 == h;
    assert BitAnd(y, m) == 2 * BitAnd(y / 2, h);
    assert LowBits(y, k) == 2 * LowBits(y / 2, k - 1) + y % 2;
  }

  lemma Pow2Monotone(j: nat, k: nat)
    requires j <= k
    ensures Pow2(j) <= Pow2(k)
    decreases k
  {
    if j < k { Pow2Monotone(j, k - 1); }
  }

  /** With alignment `2^k` the mask clears the low `k` bits of `size + 2^k - 1`. */
  lemma PadPowerOfTwoClearsLowBits(size: nat, k: nat)
    requires IsU64(Pow2(k)) && IsU64(size) && IsU64(size + Pow2(k) - 1)
    ensures PadUniformBufferSize(size, Pow2(k)) == Pow2(k) * HighBits(size + Pow2(k) - 1, k)
    ensures size + Pow2(k) - 1 == Pow2(k) * HighBits(size + Pow2(k) - 1, k) + LowBits(size + Pow2(k) - 1, k)
    ensures LowBits(size + Pow2(k) - 1, k) < Pow2(k)
  {
    var a := Pow2(k);
    Pow2Is64BitLimit();
    if k > 64 { Pow2Monotone(64, k); }
    Pow2Monotone(k, 64);
    var y := size + a - 1;
    assert BitNot64(a - 1) == Pow2(64) - a;
    AndHighMask(y, 64, k);
    SplitBits(y, k);
  }

  /**
   * For a power-of-two alignment `a = 2^k`, the padded size is the least
   * multiple of `a` that is at least the original size.
   */
  lemma {:induction false} PadRoundsUpToPowerOfTwo(size: nat, k: nat)
    requires IsU64(Pow2(k)) && IsU64(size) && IsU64(size + Pow2(k) - 1)
    ensures PadUniformBufferSize(size, Pow2(k)) % Pow2(k) == 0
    ensures size <= PadUniformBufferSize(size, Pow2(k)) < size + Pow2(k)
    ensures forall m: nat :: m % Pow2(k) == 0 && size <= m ==> PadUniformBufferSize(size, Pow2(k)) <= m
  {
    PadPowerOfTwoClearsLowBits(size, k);
    LeastMultipleAbove(size, Pow2(k), HighBits(size + Pow2(k) - 1, k), LowBits(size + Pow2(k) - 1, k));
  }

  /** `a * h`, where `size + a - 1 == a * h + low` and `low < a`, is the least multiple of `a` from `size` up. */
  lemma LeastMultipleAbove(size: nat, a: nat, h: nat, low: nat)
    requires a > 0 && low < a && size + a - 1 == a * h + low
    ensures (a * h) % a == 0
    ensures size <= a * h < size + a
    ensures forall m: nat :: m % a == 0 && size <= m ==> a * h <= m
  {
    ModUnique(a * h, a, h, 0);
    forall m: nat | m % a == 0 && size <= m
      ensures a * h <= m
    {
      var j := m / a;
      assert m == j * a;
      if j >= h {
        MulMonotone(h, j, a);
      } else {
        MulStrict(j, h, a);
      }
    }
  }

  /** For a power-of-two alignment padding is idempotent. */
  lemma {:induction false} PadIdempotent(size: nat, k: nat)
    requires IsU64(Pow2(k)) && IsU64(size) && IsU64(size + Pow2(k) - 1)
    requires IsU64(PadUniformBufferSize(size, Pow2(k)) + Pow2(k) - 1)
    ensures PadUniformBufferSize(PadUniformBufferSize(size, Pow2(k)), Pow2(k)) == PadUniformBufferSize(size, Pow2(k))
  {
    var r := PadUniformBufferSize(size, Pow2(k));
    PadRoundsUpToPowerOfTwo(size, k);
    PadRoundsUpToPowerOfTwo(r, k);
  }

  /** The unit tests of the source with power-of-two alignments (and alignment 0). */
  lemma PadTestVectorsPowerOfTwo()
    ensures PadUniformBufferSize(32, 0) == 32
    ensures PadUniformBufferSize(32, 32) == 32
    ensures PadUniformBufferSize(32, 64) == 64
    ensures PadUniformBufferSize(22, 64) == 64
  {
    MaskedValue63FFE0();
    MaskedValue95FFC0();
    MaskedValue85FFC0();
    assert BitNot64(31) == 0xFFFF_FFFF_FFFF_FFE0;
    assert BitNot64(63) == 0xFFFF_FFFF_FFFF_FFC0;
  }

  /**
   * The unit tests of the source with alignment 54, which is not a power of
   * two: the mask then yields 64 and 74, neither a multiple of 54.
   */
  lemma PadNonPowerOfTwoIsNotMultiple()
    ensures PadUniformBufferSize(32, 54) == 64 && 64 % 54 != 0
    ensures PadUniformBufferSize(22, 54) == 74 && 74 % 54 != 0
  {
    MaskedValue85FFCA();
    MaskedValue75FFCA();
    assert BitNot64(53) == 0xFFFF_FFFF_FFFF_FFCA;
  }

  // The bitwise ANDs the test vectors reduce to, on literal operands.
  lemma MaskedValue63FFE0()
    ensures BitAnd(63, 0xFFFF_FFFF_FFFF_FFE0) == 32
  {
    assert BitAnd(1, 0x7FFFFFFFFFFFFFF) == 1;
    assert BitAnd(3, 0xFFFFFFFFFFFFFFE) == 2;
    assert BitAnd(7, 0x1FFFFFFFFFFFFFFC) == 4;
    assert BitAnd(15, 0x3FFFFFFFFFFFFFF8) == 8;
    assert BitAnd(31, 0x7FFFFFFFFFFFFFF0) == 16;
  }

  lemma MaskedValue95FFC0()
    ensures BitAnd(95, 0xFFFF_FFFF_FFFF_FFC0) == 64
  {
    assert BitAnd(1, 0x3FFFFFFFFFFFFFF) == 1;
    assert BitAnd(2, 0x7FFFFFFFFFFFFFE) == 2;
    assert BitAnd(5, 0xFFFFFFFFFFFFFFC) == 4;
    assert BitAnd(11, 0x1FFFFFFFFFFFFFF8) == 8;
    assert BitAnd(23, 0x3FFFFFFFFFFFFFF0) == 16;
    assert BitAnd(47, 0x7FFFFFFFFFFFFFE0) == 32;
  }

  lemma MaskedValue85FFC0()
    ensures BitAnd(85, 0xFFFF_FFFF_FFFF_FFC0) == 64
  {
    assert BitAnd(1, 0x3FFFFFFFFFFFFFF) == 1;
    assert BitAnd(2, 0x7FFFFFFFFFFFFFE) == 2;
    assert BitAnd(5, 0xFFFFFFFFFFFFFFC) == 4;
    assert BitAnd(10, 0x1FFFFFFFFFFFFFF8) == 8;
    assert BitAnd(21, 0x3FFFFFFFFFFFFFF0) == 16;
    assert BitAnd(42, 0x7FFFFFFFFFFFFFE0) == 32;
  }

  lemma MaskedValue85FFCA()
    ensures BitAnd(85, 0xFFFF_FFFF_FFFF_FFCA) == 64
  {
    assert BitAnd(1, 0x3FFFFFFFFFFFFFF) == 1;
    assert BitAnd(2, 0x7FFFFFFFFFFFFFE) == 2;
    assert BitAnd(5, 0xFFFFFFFFFFFFFFC) == 4;
    assert BitAnd(10, 0x1FFFFFFFFFFFFFF9) == 8;
    assert BitAnd(21, 0x3FFFFFFFFFFFFFF2) == 16;
    assert BitAnd(42, 0x7FFFFFFFFFFFFFE5) == 32;
  }

  lemma MaskedValue75FFCA()
    ensures BitAnd(75, 0xFFFF_FFFF_FFFF_FFCA) == 74
  {
    assert BitAnd(1, 0x3FFFFFFFFFFFFFF) == 1;
    assert BitAnd(2, 0x7FFFFFFFFFFFFFE) == 2;
    assert BitAnd(4, 0xFFFFFFFFFFFFFFC) == 4;
    assert BitAnd(9, 0x1FFFFFFFFFFFFFF9) == 9;
    assert BitAnd(18, 0x3FFFFFFFFFFFFFF2) == 18;
    assert BitAnd(37, 0x7FFFFFFFFFFFFFE5) == 37;
  }

  /** `as i32` on a u32 value: two's-complement reinterpretation. */
  function AsI32(x: nat): (r: int)
    requires IsU32(x)
    ensures -0x8000_0000 <= r < 0x8000_0000
    ensures r % U32_LIMIT == x % U32_LIMIT
  {
    if x < 0x8000_0000 then x else x - U32_LIMIT
  }

  datatype Offset3D = Offset3D(x: int, y: int, z: int)

  datatype SubresourceLayers = SubresourceLayers(aspectMask: bv32, mipLevel: nat, baseArrayLayer: nat, layerCount: nat)

  datatype ImageBlit = ImageBlit(
    srcOffsets: (Offset3D, Offset3D),
    dstOffsets: (Offset3D, Offset3D),
    srcSubresource: SubresourceLayers,
    dstSubresource: SubresourceLayers)

  datatype SubresourceRange = SubresourceRange(aspectMask: bv32, baseMipLevel: nat, levelCount: nat, baseArrayLayer: nat, layerCount: nat)

  const PIPELINE_STAGE_2_ALL_COMMANDS: bv64 := 0x10000
  const ACCESS_2_MEMORY_READ: bv64 := 0x8000
  const ACCESS_2_MEMORY_WRITE: bv64 := 0x10000

  datatype ImageMemoryBarrier = ImageMemoryBarrier(
    srcStageMask: bv64, srcAccessMask: bv64,
    dstStageMask: bv64, dstAccessMask: bv64,
    oldLayout: ImageLayout, newLayout: ImageLayout,
    subresourceRange: SubresourceRange,
    image: Handle)

  /** The commands these helpers record into a command buffer. */
  datatype Command =
    | BlitImage2(src: Handle, srcLayout: ImageLayout, dst: Handle, dstLayout: ImageLayout, filter: Filter, regions: seq<ImageBlit>)
    | PipelineBarrier2(imageBarriers: seq<ImageMemoryBarrier>)

  /** `copy_image_to_image`: one blit of the whole source onto the whole destination. */
  function CopyImageToImage(src: Handle, dst: Handle, srcSize: Extent2D, dstSize: Extent2D): (r: Command)
    requires IsU32(srcSize.width) && IsU32(srcSize.height) && IsU32(dstSize.width) && IsU32(dstSize.height)
    ensures r.BlitImage2? && |r.regions| == 1
    ensures r.src == src && r.dst == dst && r.filter == Linear
    ensures r.srcLayout == IMAGE_LAYOUT_TRANSFER_SRC_OPTIMAL && r.dstLayout == IMAGE_LAYOUT_TRANSFER_DST_OPTIMAL
    ensures r.regions[0].srcOffsets.0 == Offset3D(0, 0, 0) && r.regions[0].dstOffsets.0 == Offset3D(0, 0, 0)
    ensures r.regions[0].srcSubresource == r.regions[0].dstSubresource == SubresourceLayers(IMAGE_ASPECT_COLOR, 0, 0, 1)
    // extents below 2^31 keep their value through the i32 cast
    ensures srcSize.width < 0x8000_0000 && srcSize.height < 0x8000_0000 ==>
              r.regions[0].srcOffsets.1 == Offset3D(srcSize.width, srcSize.height, 1)
    ensures dstSize.width < 0x8000_0000 && dstSize.height < 0x8000_0000 ==>
              r.regions[0].dstOffsets.1 == Offset3D(dstSize.width, dstSize.height, 1)
  {
    var layers := SubresourceLayers(IMAGE_ASPECT_COLOR, 0, 0, 1);
    var region := ImageBlit(
      (Offset3D(0, 0, 0), Offset3D(AsI32(srcSize.width), AsI32(srcSize.height), 1)),
      (Offset3D(0, 0, 0), Offset3D(AsI32(dstSize.width), AsI32(dstSize.height), 1)),
      layers, layers);
    BlitImage2(src, IMAGE_LAYOUT_TRANSFER_SRC_OPTIMAL, dst, IMAGE_LAYOUT_TRANSFER_DST_OPTIMAL, Linear, [region])
  }

  /**
   * `transition_image_layout`: the commands recorded. Nothing when the two
   * layouts are equal, else one barrier over mip 0 and layer 0 of the image.
   */
  function TransitionImageLayout(image: Handle, aspect: bv32, oldLayout: ImageLayout, newLayout: ImageLayout): (r: seq<Command>)
    ensures |r| == (if oldLayout == newLayout then 0 else 1)
    ensures |r| == 1 ==>
              && r[0].PipelineBarrier2? && |r[0].imageBarriers| == 1
              && r[0].imageBarriers[0].image == image
              && r[0].imageBarriers[0].oldLayout == oldLayout
              && r[0].imageBarriers[0].newLayout == newLayout
              && r[0].imageBarriers[0].subresourceRange == SubresourceRange(aspect, 0, 1, 0, 1)
  {
    if oldLayout == newLayout then []
    else
      [PipelineBarrier2([ImageMemoryBarrier(
        PIPELINE_STAGE_2_ALL_COMMANDS, ACCESS_2_MEMORY_WRITE,
        PIPELINE_STAGE_2_ALL_COMMANDS, ACCESS_2_MEMORY_WRITE | ACCESS_2_MEMORY_READ,
        oldLayout, newLayout,
        SubresourceRange(aspect, 0, 1, 0, 1),
        image)])]
  }
}
