// src/renderer/vertex.rs: the renderer's vertex, its Vulkan input
// description (built from the struct's `#[repr(C)]` layout) and its
// conversion to the GPU-side vertex of src/renderer/gpu_data.rs.

module Vertex {
  import opened Vk
  import Layout

  datatype Vec2 = Vec2(x: real, y: real)
  datatype Vec3 = Vec3(x: real, y: real, z: real)
  datatype Vec4 = Vec4(x: real, y: real, z: real, w: real)

  datatype Vertex = Vertex(position: Vec3, normal: Vec3, color: Vec3, texcoord: Vec2)

  /** The field types of `Vertex`, in declaration order. */
  const VERTEX_FIELDS: seq<Layout.FieldType> := [Layout.Vec3, Layout.Vec3, Layout.Vec3, Layout.Vec2]

  datatype InputRate = PerVertex | PerInstance

  /** `VkVertexInputBindingDescription`. */
  datatype BindingDescription = BindingDescription(binding: nat, stride: nat, inputRate: InputRate)

  /** `VkVertexInputAttributeDescription`. */
  datatype AttributeDescription = AttributeDescription(binding: nat, location: nat, format: Format, offset: nat)

  /** `VertexInputDescription`; the flags are always empty. */
  datatype VertexInputDescription = VertexInputDescription(
    bindings: seq<BindingDescription>,
    attributes: seq<AttributeDescription>,
    flags: bv32)

  /** Every attribute reads only bytes of its own vertex. */
  predicate AttributesWithinStride(desc: VertexInputDescription)
    requires |desc.bindings| == 1
  {
    forall i :: 0 <= i < |desc.attributes| ==>
      desc.attributes[i].offset + FormatSize(desc.attributes[i].format) <= desc.bindings[0].stride
  }

  /** No two attributes read the same byte. */
  predicate AttributesDisjoint(desc: VertexInputDescription)
  {
    forall i, j :: 0 <= i < j < |desc.attributes| ==>
      desc.attributes[i].offset + FormatSize(desc.attributes[i].format) <= desc.attributes[j].offset
  }

  /** An attribute for field `i` of a struct with `fields`, at `offset_of!` that field. */
  function Attribute(fields: seq<Layout.FieldType>, i: nat, format: Format): AttributeDescription
    requires i < |fields|
  {
    AttributeDescription(0, i, format, Layout.OffsetOf(fields, i))
  }

  /** `Vertex::get_vertex_desc`. */
  function GetVertexDesc(): (r: VertexInputDescription)
    ensures |r.bindings| == 1 && r.bindings[0] == BindingDescription(0, 44, PerVertex)
    ensures |r.attributes| == 4
    ensures forall i :: 0 <= i < 4 ==> r.attributes[i].binding == 0 && r.attributes[i].location == i
    ensures r.attributes[0].format == R32G32B32Sfloat && r.attributes[0].offset == 0
    ensures r.attributes[1].format == R32G32B32Sfloat && r.attributes[1].offset == 12
    ensures r.attributes[2].format == R32G32B32Sfloat && r.attributes[2].offset == 24
    ensures r.attributes[3].format == R32G32Sfloat && r.attributes[3].offset == 36
    ensures r.flags == 0
  {
    VertexLayout();
    VertexInputDescription(
      [BindingDescription(0, Layout.StructSize(VERTEX_FIELDS), PerVertex)],
      [ Attribute(VERTEX_FIELDS, 0, R32G32B32Sfloat),
        Attribute(VERTEX_FIELDS, 1, R32G32B32Sfloat),
        Attribute(VERTEX_FIELDS, 2, R32G32B32Sfloat),
        Attribute(VERTEX_FIELDS, 3, R32G32Sfloat) ],
      0)
  }

  /** Three `Vec3` and a `Vec2` in `#[repr(C)]` order: offsets 0, 12, 24, 36 and size 44. */
  lemma VertexLayout()
    ensures Layout.OffsetOf(VERTEX_FIELDS, 0) == 0
    ensures Layout.OffsetOf(VERTEX_FIELDS, 1) == 12
    ensures Layout.OffsetOf(VERTEX_FIELDS, 2) == 24
    ensures Layout.OffsetOf(VERTEX_FIELDS, 3) == 36
    ensures Layout.StructSize(VERTEX_FIELDS) == 44
  {
    var f := VERTEX_FIELDS;
    assert Layout.EndOf(f, 0) == 0;
    assert Layout.OffsetOf(f, 0) == 0;
    assert Layout.EndOf(f, 1) == 12;
    assert Layout.OffsetOf(f, 1) == 12;
    assert Layout.EndOf(f, 2) == 24;
    assert Layout.OffsetOf(f, 2) == 24;
    assert Layout.EndOf(f, 3) == 36;
    assert Layout.OffsetOf(f, 3) == 36;
    assert Layout.EndOf(f, 4) == 44;
    assert Layout.StructAlign(f) == 4;
  }

  /** Each attribute's format covers exactly its field, so attributes fit the stride and never overlap. */
  lemma VertexDescIsSound()
    ensures AttributesWithinStride(GetVertexDesc())
    ensures AttributesDisjoint(GetVertexDesc())
  {
  }

  /** `Default for VertexInputDescription`: the description of `Vertex`. */
  function DefaultDescription(): (r: VertexInputDescription)
    ensures r == GetVertexDesc()
    ensures AttributesWithinStride(r) && AttributesDisjoint(r)
  {
    VertexDescIsSound();
    GetVertexDesc()
  }

  // ---------------------------------------------------------------------
  // GPU-side vertex

  /** `GpuVertexData`: the texture coordinate is split to fill the padding after each `Vec3`. */
  datatype GpuVertexData = GpuVertexData(position: Vec3, uvX: real, normal: Vec3, uvY: real, color: Vec4)

  const GPU_VERTEX_FIELDS: seq<Layout.FieldType> :=
    [Layout.Vec3, Layout.F32, Layout.Vec3, Layout.F32, Layout.Vec4]

  /** `as_gpu_data`: an opaque colour with the vertex's RGB. */
  function AsGpuData(v: Vertex): (r: GpuVertexData)
    ensures r.color.w == 1.0
  {
    GpuVertexData(v.position, v.texcoord.x, v.normal, v.texcoord.y,
                  Vec4(v.color.x, v.color.y, v.color.z, 1.0))
  }

  /** Reading a vertex back from its GPU form: the inverse of `AsGpuData`. */
  function FromGpuData(g: GpuVertexData): Vertex
  {
    Vertex(g.position, g.normal, Vec3(g.color.x, g.color.y, g.color.z), Vec2(g.uvX, g.uvY))
  }

  /** The conversion loses nothing but fixes alpha. */
  lemma GpuDataRoundTrip(v: Vertex)
    ensures FromGpuData(AsGpuData(v)) == v
  {
  }

  /** `GpuVertexData` packs into three 16-byte rows: offsets 0, 12, 16, 28, 32 and size 48. */
  lemma GpuVertexLayout()
    ensures Layout.OffsetOf(GPU_VERTEX_FIELDS, 1) == 12
    ensures Layout.OffsetOf(GPU_VERTEX_FIELDS, 2) == 16
    ensures Layout.OffsetOf(GPU_VERTEX_FIELDS, 3) == 28
    ensures Layout.OffsetOf(GPU_VERTEX_FIELDS, 4) == 32
    ensures Layout.StructSize(GPU_VERTEX_FIELDS) == 48
  {
    var f := GPU_VERTEX_FIELDS;
    assert Layout.OffsetOf(f, 0) == 0;
    assert Layout.EndOf(f, 1) == 12;
    assert Layout.OffsetOf(f, 1) == 12;
    assert Layout.EndOf(f, 2) == 16;
    assert Layout.OffsetOf(f, 2) == 16;
    assert Layout.EndOf(f, 3) == 28;
    assert Layout.OffsetOf(f, 3) == 28;
    assert Layout.EndOf(f, 4) == 32;
    assert Layout.OffsetOf(f, 4) == 32;
    assert Layout.EndOf(f, 5) == 48;
    assert Layout.StructAlign(f) == 16;
  }
}
