// src/renderer/descriptors.rs: the descriptor set layout builder and the
// pool sizes a descriptor allocator asks for.

module Descriptors {
  import opened Vk
  import opened Gpu
  import opened VkInit

  /** One binding with `stages` OR-ed into its stage flags. */
  function AddStages(b: LayoutBinding, stages: bv32): LayoutBinding
  {
    b.(stageFlags := b.stageFlags | stages)
  }

  /** Every binding with `stages` OR-ed into its stage flags, in the same order. */
  function WithStages(bindings: seq<LayoutBinding>, stages: bv32): (r: seq<LayoutBinding>)
    ensures |r| == |bindings|
    ensures forall i :: 0 <= i < |r| ==> r[i] == AddStages(bindings[i], stages)
  {
    seq(|bindings|, i requires 0 <= i < |bindings| => AddStages(bindings[i], stages))
  }

  lemma OrIdempotent(f: bv32, s: bv32)
    ensures (f | s) | s == f | s
    ensures (f | s) & s == s
    ensures (f | s) & f == f
  {
  }

  /** OR-ing the same stages twice changes nothing more. */
  lemma WithStagesIdempotent(bindings: seq<LayoutBinding>, stages: bv32)
    ensures WithStages(WithStages(bindings, stages), stages) == WithStages(bindings, stages)
  {
    var once := WithStages(bindings, stages);
    forall i | 0 <= i < |bindings|
      ensures WithStages(once, stages)[i] == once[i]
    {
      OrIdempotent(bindings[i].stageFlags, stages);
    }
  }

  /** Every stage of `stages` ends up enabled, and no stage a binding had is lost; number, type and count are kept. */
  lemma WithStagesKeepsStages(bindings: seq<LayoutBinding>, stages: bv32, i: nat)
    requires i < |bindings|
    ensures var b := WithStages(bindings, stages)[i];
            && b.stageFlags & stages == stages
            && b.stageFlags & bindings[i].stageFlags == bindings[i].stageFlags
            && b.binding == bindings[i].binding && b.descriptorType == bindings[i].descriptorType
            && b.descriptorCount == bindings[i].descriptorCount
  {
    OrIdempotent(bindings[i].stageFlags, stages);
  }

  /** The fields of `vk::DescriptorSetLayoutCreateInfo` the builder sets. */
  datatype LayoutInfo = LayoutInfo(bindings: seq<LayoutBinding>, bindingCount: nat)

  class DescriptorLayoutBuilder {
    var bindings: seq<LayoutBinding>

    /** `new`: no bindings. */
    constructor ()
      ensures bindings == []
    {
      bindings := [];
    }

    /**
     * `add_binding`: appends one binding at the end, with the given number
     * and type, one descriptor and no stages; an existing binding with the
     * same number is kept as it is.
     */
    method AddBinding(binding: nat, descType: DescriptorType)
      modifies this
      ensures bindings == old(bindings) + [LayoutBinding(binding, 1, descType, 0)]
    {
      bindings := bindings + [LayoutBinding(binding, 1, descType, 0)];
    }

    /** `clear`: no bindings. */
    method Clear()
      modifies this
      ensures bindings == []
    {
      bindings := [];
    }

    /**
     * `build`: ORs the stages into every binding in place, then creates the
     * layout from all of them; `newLayout` is the handle the device returns.
     */
    method Build(device: Device, stages: bv32, newLayout: Handle) returns (layout: Handle, info: LayoutInfo)
      modifies this, device
      ensures bindings == WithStages(old(bindings), stages)
      ensures info == LayoutInfo(bindings, |bindings|)
      ensures layout == newLayout
      ensures device.trace == old(device.trace) + [Created(DescriptorSetLayout, newLayout)]
    {
      var i := 0;
      while i < |bindings|
        invariant 0 <= i <= |bindings| == |old(bindings)|
        invariant bindings[..i] == WithStages(old(bindings), stages)[..i]
        invariant bindings[i..] == old(bindings)[i..]
        invariant device.trace == old(device.trace)
      {
        bindings := bindings[i := AddStages(bindings[i], stages)];
        i := i + 1;
      }
      assert bindings == bindings[..i];
      info := LayoutInfo(bindings, |bindings|);
      device.Create(DescriptorSetLayout, newLayout);
      layout := newLayout;
    }
  }

  /** Two bindings with the same number both reach the layout: the builder neither merges nor rejects them. */
  method DuplicateBindingsKept(device: Device, n: nat, t1: DescriptorType, t2: DescriptorType, stages: bv32, h: Handle)
    returns (info: LayoutInfo)
    modifies device
    ensures info.bindingCount == 2 == |info.bindings|
    ensures info.bindings[0].binding == info.bindings[1].binding == n
    ensures info.bindings[0].descriptorType == t1 && info.bindings[1].descriptorType == t2
  {
    var b := new DescriptorLayoutBuilder();
    b.AddBinding(n, t1);
    b.AddBinding(n, t2);
    var layout;
    layout, info := b.Build(device, stages, h);
  }

  // ---------------------------------------------------------------------
  // Descriptor pool sizes

  datatype PoolSizeRatio = PoolSizeRatio(descType: DescriptorType, ratio: real)

  datatype PoolSize = PoolSize(descType: DescriptorType, descriptorCount: nat)

  datatype PoolInfo = PoolInfo(maxSets: nat, poolSizes: seq<PoolSize>)

  /** Rust's `as u32` on a float: truncation toward zero, saturating at both ends. */
  function CastToU32(x: real): (n: nat)
    ensures n <= U32_MAX
    ensures 0.0 <= x < U32_MAX as real ==> n as real <= x < n as real + 1.0
    ensures x <= 0.0 ==> n == 0
    ensures x >= U32_MAX as real ==> n == U32_MAX
  {
    if x <= 0.0 then 0 else if x >= U32_MAX as real then U32_MAX else x.Floor
  }

  /**
   * `DescriptorAllocator::new`: one pool size per ratio, in order, each
   * for the ratio's type with `ratio * max_sets` descriptors, and
   * `max_sets` passed through.
   */
  function PoolSizeFor(maxSets: nat, r: PoolSizeRatio): PoolSize
  {
    PoolSize(r.descType, CastToU32(r.ratio * maxSets as real))
  }

  function PoolInfoFor(maxSets: nat, ratios: seq<PoolSizeRatio>): (info: PoolInfo)
    ensures info.maxSets == maxSets && |info.poolSizes| == |ratios|
    ensures forall i :: 0 <= i < |ratios| ==> info.poolSizes[i] == PoolSizeFor(maxSets, ratios[i])
  {
    PoolInfo(maxSets, seq(|ratios|, i requires 0 <= i < |ratios| => PoolSizeFor(maxSets, ratios[i])))
  }

  /** A whole-number ratio gives exactly that many descriptors per set. */
  lemma WholeRatioIsExact(maxSets: nat, t: DescriptorType, k: nat)
    requires k * maxSets < U32_MAX
    ensures PoolInfoFor(maxSets, [PoolSizeRatio(t, k as real)]).poolSizes[0].descriptorCount == k * maxSets
  {
    assert (k as real) * (maxSets as real) == (k * maxSets) as real;
  }
}
