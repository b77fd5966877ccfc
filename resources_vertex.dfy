// src/renderer/resources/vertex.rs: the three-attribute vertex (position,
// normal, colour) and its Vulkan input description. The file declares its
// own copy of `VertexInputDescription` with the same fields as the one in
// src/renderer/vertex.rs; the model shares that datatype.

module ResourcesVertex {
  import opened Vk
  import Layout
  import V = Vertex

  datatype Vertex = Vertex(position: V.Vec3, normal: V.Vec3, color: V.Vec3)

  const VERTEX_FIELDS: seq<Layout.FieldType> := [Layout.Vec3, Layout.Vec3, Layout.Vec3]

  /** `Vertex::get_vertex_desc` of the resources vertex. */
  function GetVertexDesc(): (r: V.VertexInputDescription)
    ensures |r.bindings| == 1 && r.bindings[0] == V.BindingDescription(0, 36, V.PerVertex)
    ensures |r.attributes| == 3
    ensures forall i :: 0 <= i < 3 ==>
              r.attributes[i] == V.AttributeDescription(0, i, R32G32B32Sfloat, 12 * i)
    ensures r.flags == 0
  {
    VertexLayout();
    V.VertexInputDescription(
      [V.BindingDescription(0, Layout.StructSize(VERTEX_FIELDS), V.PerVertex)],
      [ V.Attribute(VERTEX_FIELDS, 0, R32G32B32Sfloat),
        V.Attribute(VERTEX_FIELDS, 1, R32G32B32Sfloat),
        V.Attribute(VERTEX_FIELDS, 2, R32G32B32Sfloat) ],
      0)
  }

  /** Three `Vec3` in `#[repr(C)]` order: offsets 0, 12, 24 and size 36. */
  lemma VertexLayout()
    ensures Layout.OffsetOf(VERTEX_FIELDS, 0) == 0
    ensures Layout.OffsetOf(VERTEX_FIELDS, 1) == 12
    ensures Layout.OffsetOf(VERTEX_FIELDS, 2) == 24
    ensures Layout.StructSize(VERTEX_FIELDS) == 36
  {
    var f := VERTEX_FIELDS;
    assert Layout.OffsetOf(f, 0) == 0;
    assert Layout.EndOf(f, 1) == 12;
    assert Layout.OffsetOf(f, 1) == 12;
    assert Layout.EndOf(f, 2) == 24;
    assert Layout.OffsetOf(f, 2) == 24;
    assert Layout.EndOf(f, 3) == 36;
    assert Layout.StructAlign(f) == 4;
  }

  /** The attributes tile the stride exactly: inside it and pairwise disjoint. */
  lemma VertexDescIsSound()
    ensures V.AttributesWithinStride(GetVertexDesc())
    ensures V.AttributesDisjoint(GetVertexDesc())
  {
  }
}
