// src/renderer/mesh.rs: meshes with process-unique ids, their equality,
// the two built-in meshes, and the push-constant block used to draw them.
// The global atomic id counter is the `next` field of `MeshIdCounter`.

module Mesh {
  import opened Vk
  import Layout
  import opened Vertex

  /** `MeshPushConstants`: a `Vec4` of data, then the render matrix. */
  const PUSH_CONSTANT_FIELDS: seq<Layout.FieldType> := [Layout.Vec4, Layout.Mat4]

  /** The matrix follows the data vector directly, and the block is 80 bytes. */
  lemma PushConstantsLayout()
    ensures Layout.OffsetOf(PUSH_CONSTANT_FIELDS, 0) == 0
    ensures Layout.OffsetOf(PUSH_CONSTANT_FIELDS, 1) == 16
    ensures Layout.StructSize(PUSH_CONSTANT_FIELDS) == 80
  {
    var f := PUSH_CONSTANT_FIELDS;
    assert Layout.OffsetOf(f, 0) == 0;
    assert Layout.EndOf(f, 1) == 16;
    assert Layout.OffsetOf(f, 1) == 16;
    assert Layout.EndOf(f, 2) == 80;
    assert Layout.StructAlign(f) == 16;
  }

  datatype Mesh = Mesh(id: nat, vertices: seq<Vertex>, indices: seq<nat>)

  /** `PartialEq for Mesh`: meshes are the same mesh iff they carry the same id. */
  predicate MeshEq(a: Mesh, b: Mesh)
  {
    a.id == b.id
  }

  /** Equality ignores contents: two meshes with one id are equal whatever they hold. */
  lemma MeshEqIgnoresContents(a: Mesh, vertices: seq<Vertex>, indices: seq<nat>)
    ensures MeshEq(a, Mesh(a.id, vertices, indices))
    ensures MeshEq(a, a)
  {
  }

  /** `MESH_ID_COUNTER`, with the ids it has handed out. */
  class MeshIdCounter {
    var next: nat
    ghost var issued: set<nat>

    ghost predicate Valid()
      reads this
    {
      forall id :: id in issued ==> id < next
    }

    constructor ()
      ensures Valid() && next == 0 && issued == {}
    {
      next := 0;
      issued := {};
    }

    /**
     * `Mesh::new`: takes the counter's value as the id and stores the
     * contents unchanged; the id was never handed out before and is larger
     * than every earlier one.
     */
    method New(vertices: seq<Vertex>, indices: seq<nat>) returns (m: Mesh)
      requires Valid()
      modifies this
      ensures Valid()
      ensures m == Mesh(old(next), vertices, indices)
      ensures m.id !in old(issued) && forall id :: id in old(issued) ==> id < m.id
      ensures next == old(next) + 1 && issued == old(issued) + {m.id}
    {
      m := Mesh(next, vertices, indices);
      next := next + 1;
      issued := issued + {m.id};
    }

    /** `Mesh::new_triangle`. */
    method NewTriangle() returns (m: Mesh)
      requires Valid()
      modifies this
      ensures Valid() && m == Mesh(old(next), TRIANGLE_VERTICES, TRIANGLE_INDICES)
      ensures m.id !in old(issued) && issued == old(issued) + {m.id}
    {
      m := New(TRIANGLE_VERTICES, TRIANGLE_INDICES);
    }

    /** `Mesh::new_quad`. */
    method NewQuad() returns (m: Mesh)
      requires Valid()
      modifies this
      ensures Valid() && m == Mesh(old(next), QUAD_VERTICES, QUAD_INDICES)
      ensures m.id !in old(issued) && issued == old(issued) + {m.id}
    {
      m := New(QUAD_VERTICES, QUAD_INDICES);
    }
  }

  /** Two meshes made one after the other are never equal. */
  method TwoMeshesDiffer(counter: MeshIdCounter, v: seq<Vertex>, i: seq<nat>) returns (a: Mesh, b: Mesh)
    requires counter.Valid()
    modifies counter
    ensures !MeshEq(a, b) && a.id < b.id
  {
    a := counter.New(v, i);
    b := counter.New(v, i);
  }

  function V(position: Vec3, normal: Vec3, color: Vec3, texcoord: Vec2): Vertex
  {
    Vertex(position, normal, color, texcoord)
  }

  const TRIANGLE_VERTICES: seq<Vertex> := [
    V(Vec3(-0.5, -0.5, 0.0), Vec3(0.0, 0.0, 1.0), Vec3(1.0, 0.0, 0.0), Vec2(0.0, 0.0)),
    V(Vec3(0.5, -0.5, 0.0), Vec3(0.0, 0.0, 1.0), Vec3(0.0, 1.0, 0.0), Vec2(0.5, 1.0)),
    V(Vec3(0.0, 0.5, 0.0), Vec3(0.0, 0.0, 1.0), Vec3(0.0, 0.0, 1.0), Vec2(1.0, 0.0))
  ]

  const TRIANGLE_INDICES: seq<nat> := [0, 1, 2]

  /** Two triangles with clockwise winding. */
  const QUAD_VERTICES: seq<Vertex> := [
    V(Vec3(1.0, 1.0, 0.0), Vec3(0.0, 1.0, 0.0), Vec3(1.0, 0.0, 0.0), Vec2(0.0, 0.0)),
    V(Vec3(-1.0, -1.0, 0.0), Vec3(0.0, 1.0, 0.0), Vec3(0.0, 1.0, 0.0), Vec2(1.0, 0.0)),
    V(Vec3(-1.0, 1.0, 0.0), Vec3(0.0, 1.0, 0.0), Vec3(0.0, 0.0, 1.0), Vec2(0.0, 1.0)),
    V(Vec3(-1.0, -1.0, 0.0), Vec3(0.0, 1.0, 0.0), Vec3(0.0, 1.0, 0.0), Vec2(1.0, 0.0)),
    V(Vec3(1.0, 1.0, 0.0), Vec3(0.0, 1.0, 0.0), Vec3(1.0, 0.0, 1.0), Vec2(1.0, 1.0)),
    V(Vec3(1.0, -1.0, 0.0), Vec3(0.0, 1.0, 0.0), Vec3(0.0, 0.0, 1.0), Vec2(0.0, 1.0))
  ]

  const QUAD_INDICES: seq<nat> := [0, 1, 2, 3, 4, 5]

  /** Every index names a vertex of the mesh. */
  predicate IndicesInRange(vertices: seq<Vertex>, indices: seq<nat>)
  {
    forall k :: 0 <= k < |indices| ==> indices[k] < |vertices|
  }

  /** The built-in meshes draw each of their vertices once, in order, as whole triangles. */
  lemma BuiltInMeshesAreWellFormed()
    ensures |TRIANGLE_VERTICES| == 3 && IndicesInRange(TRIANGLE_VERTICES, TRIANGLE_INDICES)
    ensures |QUAD_VERTICES| == 6 && IndicesInRange(QUAD_VERTICES, QUAD_INDICES)
    ensures forall k :: 0 <= k < 3 ==> TRIANGLE_INDICES[k] == k
    ensures forall k :: 0 <= k < 6 ==> QUAD_INDICES[k] == k
    ensures |TRIANGLE_INDICES| % 3 == 0 && |QUAD_INDICES| % 3 == 0
  {
  }

  /** Every quad vertex faces +Y and lies in the z = 0 plane, inside [-1, 1]. */
  lemma QuadIsUnitSquare()
    ensures forall k :: 0 <= k < |QUAD_VERTICES| ==>
              && QUAD_VERTICES[k].normal == Vec3(0.0, 1.0, 0.0)
              && QUAD_VERTICES[k].position.z == 0.0
              && -1.0 <= QUAD_VERTICES[k].position.x <= 1.0
              && -1.0 <= QUAD_VERTICES[k].position.y <= 1.0
  {
  }
}
