// src/renderer/model.rs: a model is a list of meshes plus the GPU vertex
// and index buffers its upload creates. Uploading moves each mesh's
// vertices (and then indices) out of the mesh into one combined buffer.
// model.rs treats a mesh's vertices and indices as `Option`s that `take()`
// empties and reads an `index_count` per mesh, so its meshes are modelled
// here with those fields rather than with the `Mesh` of mesh.rs.
// The GPU buffers' contents are the ghost fields `vertexData` and
// `indexData`; the staging buffer, the copy and the allocator are events.

module Model {
  import opened Vk
  import opened Gpu
  import opened Vertex

  /** `size_of::<Vertex>()` (see `Vertex.VertexLayout`) and `size_of::<u32>()`. */
  const VERTEX_SIZE: nat := 44
  const INDEX_SIZE: nat := 4

  const NO_VERTEX_BUFFER: string := "No vertex buffer found"
  const NO_VERTICES: string := "No vertices found in mesh"
  const NO_INDICES: string := "No indices found in mesh"

  datatype ModelMesh = ModelMesh(id: nat, vertices: Option<seq<Vertex>>, indices: Option<seq<nat>>, indexCount: nat)

  // ---------------------------------------------------------------------
  // Equality

  /** `PartialEq for Model`: the meshes are zipped, so only the common prefix is compared, by id. */
  predicate ModelEq(a: seq<ModelMesh>, b: seq<ModelMesh>)
  {
    forall i :: 0 <= i < |a| && i < |b| ==> a[i].id == b[i].id
  }

  /** A model without meshes equals every model, and equality is symmetric. */
  lemma ModelEqProperties(a: seq<ModelMesh>, b: seq<ModelMesh>)
    ensures ModelEq([], b) && ModelEq(b, [])
    ensures ModelEq(a, b) <==> ModelEq(b, a)
    ensures ModelEq(a, a)
  {
  }

  /** Because of the zip, equality is not transitive: a short model links two different ones. */
  lemma ModelEqNotTransitive()
    ensures var m1, m2 := ModelMesh(1, None, None, 0), ModelMesh(2, None, None, 0);
            ModelEq([m1], []) && ModelEq([], [m2]) && !ModelEq([m1], [m2])
  {
    var m1, m2 := ModelMesh(1, None, None, 0), ModelMesh(2, None, None, 0);
    assert [m1][0].id != [m2][0].id;
  }

  /** A model equals any extension of itself with more meshes. */
  lemma ModelEqIgnoresExtraMeshes(a: seq<ModelMesh>, extra: seq<ModelMesh>)
    ensures ModelEq(a, a + extra)
  {
  }

  // ---------------------------------------------------------------------
  // Specification of the uploads

  /** The sum of the meshes' index counts, which `draw` draws in one call. */
  function IndexCountSum(meshes: seq<ModelMesh>): nat
  {
    if meshes == [] then 0 else IndexCountSum(meshes[..|meshes| - 1]) + meshes[|meshes| - 1].indexCount
  }

  /** The first mesh whose vertices are missing, or the number of meshes. */
  function FirstWithoutVertices(meshes: seq<ModelMesh>): (k: nat)
    ensures k <= |meshes|
    ensures forall j :: 0 <= j < k ==> meshes[j].vertices.Some?
    ensures k < |meshes| ==> meshes[k].vertices.None?
  {
    if meshes == [] || meshes[0].vertices.None? then 0
    else
      var k := FirstWithoutVertices(meshes[1..]);
      assert forall j :: 1 <= j < |meshes| ==> meshes[j] == meshes[1..][j - 1];
      k + 1
  }

  /** The first mesh whose indices are missing, or the number of meshes. */
  function FirstWithoutIndices(meshes: seq<ModelMesh>): (k: nat)
    ensures k <= |meshes|
    ensures forall j :: 0 <= j < k ==> meshes[j].indices.Some?
    ensures k < |meshes| ==> meshes[k].indices.None?
  {
    if meshes == [] || meshes[0].indices.None? then 0
    else
      var k := FirstWithoutIndices(meshes[1..]);
      assert forall j :: 1 <= j < |meshes| ==> meshes[j] == meshes[1..][j - 1];
      k + 1
  }

  /** The meshes after `take()` has emptied the vertices of the first `n`. */
  function TakeVertices(meshes: seq<ModelMesh>, n: nat): (r: seq<ModelMesh>)
    ensures |r| == |meshes|
    ensures forall j :: 0 <= j < |r| ==> r[j] == if j < n then meshes[j].(vertices := None) else meshes[j]
  {
    seq(|meshes|, j requires 0 <= j < |meshes| => if j < n then meshes[j].(vertices := None) else meshes[j])
  }

  /** The meshes after `take()` has emptied the indices of the first `n`. */
  function TakeIndices(meshes: seq<ModelMesh>, n: nat): (r: seq<ModelMesh>)
    ensures |r| == |meshes|
    ensures forall j :: 0 <= j < |r| ==> r[j] == if j < n then meshes[j].(indices := None) else meshes[j]
  {
    seq(|meshes|, j requires 0 <= j < |meshes| => if j < n then meshes[j].(indices := None) else meshes[j])
  }

  /** The vertices of the first `n` meshes, concatenated in mesh order. */
  function GatherVertices(meshes: seq<ModelMesh>, n: nat): seq<Vertex>
    requires n <= |meshes| && forall j :: 0 <= j < n ==> meshes[j].vertices.Some?
  {
    if n == 0 then [] else GatherVertices(meshes, n - 1) + meshes[n - 1].vertices.value
  }

  /** Where mesh `k`'s vertices start in the combined buffer. */
  function VertexOffset(meshes: seq<ModelMesh>, k: nat): nat
    requires k <= |meshes| && forall j :: 0 <= j < k ==> meshes[j].vertices.Some?
  {
    if k == 0 then 0 else VertexOffset(meshes, k - 1) + |meshes[k - 1].vertices.value|
  }

  /** How far mesh `k`'s indices are shifted: the number of indices of the meshes before it. */
  function IndexOffset(meshes: seq<ModelMesh>, k: nat): nat
    requires k <= |meshes| && forall j :: 0 <= j < k ==> meshes[j].indices.Some?
  {
    if k == 0 then 0 else IndexOffset(meshes, k - 1) + |meshes[k - 1].indices.value|
  }

  function Shift(indices: seq<nat>, offset: nat): (r: seq<nat>)
    ensures |r| == |indices|
    ensures forall j :: 0 <= j < |r| ==> r[j] == indices[j] + offset
  {
    seq(|indices|, j requires 0 <= j < |indices| => indices[j] + offset)
  }

  /** The indices of the first `n` meshes, each mesh's shifted by its `IndexOffset`. */
  function RebasedIndices(meshes: seq<ModelMesh>, n: nat): seq<nat>
    requires n <= |meshes| && forall j :: 0 <= j < n ==> meshes[j].indices.Some?
  {
    if n == 0 then [] else RebasedIndices(meshes, n - 1) + Shift(meshes[n - 1].indices.value, IndexOffset(meshes, n - 1))
  }

  /** Mesh `k`'s vertices sit at `VertexOffset(k)` in the combined list, which is exactly as long as they all are. */
  lemma {:induction false} GatheredVerticesInPlace(meshes: seq<ModelMesh>, n: nat, k: nat, j: nat)
    requires n <= |meshes| && forall i :: 0 <= i < n ==> meshes[i].vertices.Some?
    requires k < n && j < |meshes[k].vertices.value|
    ensures |GatherVertices(meshes, n)| == VertexOffset(meshes, n)
    ensures VertexOffset(meshes, k) + j < VertexOffset(meshes, n)
    ensures GatherVertices(meshes, n)[VertexOffset(meshes, k) + j] == meshes[k].vertices.value[j]
  {
    GatheredLength(meshes, n - 1);
    if k < n - 1 {
      GatheredVerticesInPlace(meshes, n - 1, k, j);
    }
  }

  lemma {:induction false} GatheredLength(meshes: seq<ModelMesh>, n: nat)
    requires n <= |meshes| && forall i :: 0 <= i < n ==> meshes[i].vertices.Some?
    ensures |GatherVertices(meshes, n)| == VertexOffset(meshes, n)
  {
    if n > 0 {
      GatheredLength(meshes, n - 1);
    }
  }

  /** Mesh `k`'s index `j` appears at `IndexOffset(k) + j`, raised by `IndexOffset(k)`. */
  lemma {:induction false} RebasedIndicesInPlace(meshes: seq<ModelMesh>, n: nat, k: nat, j: nat)
    requires n <= |meshes| && forall i :: 0 <= i < n ==> meshes[i].indices.Some?
    requires k < n && j < |meshes[k].indices.value|
    ensures |RebasedIndices(meshes, n)| == IndexOffset(meshes, n)
    ensures IndexOffset(meshes, k) + j < IndexOffset(meshes, n)
    ensures RebasedIndices(meshes, n)[IndexOffset(meshes, k) + j] == meshes[k].indices.value[j] + IndexOffset(meshes, k)
  {
    RebasedLength(meshes, n - 1);
    if k < n - 1 {
      RebasedIndicesInPlace(meshes, n - 1, k, j);
    }
  }

  lemma {:induction false} RebasedLength(meshes: seq<ModelMesh>, n: nat)
    requires n <= |meshes| && forall i :: 0 <= i < n ==> meshes[i].indices.Some?
    ensures |RebasedIndices(meshes, n)| == IndexOffset(meshes, n)
  {
    if n > 0 {
      RebasedLength(meshes, n - 1);
    }
  }

  /**
   * The shift is by index counts while vertices are laid out by vertex
   * counts: the rebased indices address the right vertices when every mesh
   * has as many vertices as indices, each index naming one of its own.
   */
  lemma {:induction false} RebasedIndicesAddressOwnVertices(meshes: seq<ModelMesh>, n: nat)
    requires n <= |meshes|
    requires forall i :: 0 <= i < n ==> meshes[i].vertices.Some? && meshes[i].indices.Some?
    requires forall i :: 0 <= i < n ==> |meshes[i].vertices.value| == |meshes[i].indices.value|
    requires forall i, j :: 0 <= i < n && 0 <= j < |meshes[i].indices.value| ==>
               meshes[i].indices.value[j] < |meshes[i].vertices.value|
    ensures forall k :: 0 <= k <= n ==> IndexOffset(meshes, k) == VertexOffset(meshes, k)
    ensures forall m :: 0 <= m < |RebasedIndices(meshes, n)| ==> RebasedIndices(meshes, n)[m] < VertexOffset(meshes, n)
  {
    if n > 0 {
      RebasedIndicesAddressOwnVertices(meshes, n - 1);
      RebasedLength(meshes, n - 1);
      var prev := RebasedIndices(meshes, n - 1);
      var last := Shift(meshes[n - 1].indices.value, IndexOffset(meshes, n - 1));
      assert RebasedIndices(meshes, n) == prev + last;
      forall m | 0 <= m < |prev + last|
        ensures (prev + last)[m] < VertexOffset(meshes, n)
      {
        if m >= |prev| {
          assert (prev + last)[m] == last[m - |prev|];
        }
      }
    }
  }

  /** One mesh of four vertices drawn as two triangles, then a triangle: the second mesh's indices land past its vertices. */
  lemma IndexCountRebasingMissesVertices()
    ensures var q := ModelMesh(0, Some([QV, QV, QV, QV]), Some([0, 1, 2, 2, 3, 0]), 6);
            var t := ModelMesh(1, Some([QV, QV, QV]), Some([0, 1, 2]), 3);
            var ms := [q, t];
            RebasedIndices(ms, 2) == [0, 1, 2, 2, 3, 0, 6, 7, 8] && VertexOffset(ms, 2) == 7
  {
    var q := ModelMesh(0, Some([QV, QV, QV, QV]), Some([0, 1, 2, 2, 3, 0]), 6);
    var t := ModelMesh(1, Some([QV, QV, QV]), Some([0, 1, 2]), 3);
    var ms := [q, t];
    assert IndexOffset(ms, 1) == 6;
    assert RebasedIndices(ms, 1) == Shift([0, 1, 2, 2, 3, 0], 0);
    assert Shift([0, 1, 2], 6) == [6, 7, 8];
    assert VertexOffset(ms, 1) == 4;
    assert RebasedIndices(ms, 2) == RebasedIndices(ms, 1) + Shift([0, 1, 2], 6);
  }

  const QV: Vertex := Vertex(Vec3(0.0, 0.0, 0.0), Vec3(0.0, 0.0, 0.0), Vec3(0.0, 0.0, 0.0), Vec2(0.0, 0.0))

  /**
   * The device events of one successful upload: the staging buffer is
   * created, the GPU buffer is created only when there is none yet, the
   * data is copied into the GPU buffer and the staging buffer destroyed.
   */
  function UploadEvents(existing: Option<Handle>, staging: Handle, newBuffer: Handle, size: nat): (r: seq<Event>)
    ensures |r| == if existing.None? then 4 else 3
    ensures r[0] == Created(Buffer, staging) && r[|r| - 1] == Destroyed(Buffer, staging)
    ensures r[|r| - 2] == Uploaded(Buffer, if existing.Some? then existing.value else newBuffer, size)
    ensures Created(Buffer, newBuffer) in r <==> existing.None? || newBuffer == staging
  {
    [Created(Buffer, staging)]
    + (if existing.None? then [Created(Buffer, newBuffer)] else [])
    + [Uploaded(Buffer, if existing.Some? then existing.value else newBuffer, size), Destroyed(Buffer, staging)]
  }

  // ---------------------------------------------------------------------
  // The model

  class Model {
    var meshes: seq<ModelMesh>
    var vertexBuffer: Option<Handle>
    var indexBuffer: Option<Handle>
    /** What the GPU vertex and index buffers hold. */
    ghost var vertexData: seq<Vertex>
    ghost var indexData: seq<nat>

    /** `Model::new`: no GPU buffers yet. */
    constructor (meshes: seq<ModelMesh>)
      ensures this.meshes == meshes && vertexBuffer == None && indexBuffer == None
      ensures vertexData == [] && indexData == []
    {
      this.meshes := meshes;
      vertexBuffer := None;
      indexBuffer := None;
      vertexData := [];
      indexData := [];
    }

    /**
     * `draw`: bind the vertex buffer, then the index buffer, then draw all
     * the meshes' indices at once; a missing buffer stops it with an error
     * (both say "No vertex buffer found").
     */
    method Draw(cmd: CommandBuffer) returns (r: Result<()>)
      modifies cmd
      ensures vertexBuffer.None? ==> r == Err(NO_VERTEX_BUFFER) && cmd.commands == old(cmd.commands)
      ensures vertexBuffer.Some? && indexBuffer.None? ==>
                r == Err(NO_VERTEX_BUFFER)
                && cmd.commands == old(cmd.commands) + [BindVertexBuffers(0, [vertexBuffer.value], [0])]
      ensures vertexBuffer.Some? && indexBuffer.Some? ==>
                r == Ok(())
                && cmd.commands == old(cmd.commands) + [BindVertexBuffers(0, [vertexBuffer.value], [0]),
                                                         BindIndexBuffer(indexBuffer.value, 0),
                                                         DrawIndexed(IndexCountSum(meshes), 1, 0, 0, 0)]
    {
      if vertexBuffer.None? {
        return Err(NO_VERTEX_BUFFER);
      }
      cmd.Record(BindVertexBuffers(0, [vertexBuffer.value], [0]));
      if indexBuffer.None? {
        return Err(NO_VERTEX_BUFFER);
      }
      cmd.Record(BindIndexBuffer(indexBuffer.value, 0));
      var indexCount := 0;
      var i := 0;
      while i < |meshes|
        invariant 0 <= i <= |meshes|
        invariant indexCount == IndexCountSum(meshes[..i])
      {
        assert meshes[..i + 1][..i] == meshes[..i];
        indexCount := indexCount + meshes[i].indexCount;
        i := i + 1;
      }
      assert meshes[..i] == meshes;
      cmd.Record(DrawIndexed(indexCount, 1, 0, 0, 0));
      r := Ok(());
    }

    /**
     * `upload_vertices`: moves every mesh's vertices, in mesh order, into
     * one list and copies it into the vertex buffer, created only when the
     * model has none. A mesh without vertices stops it with an error after
     * the earlier meshes have already been emptied. `staging` and
     * `newBuffer` are the handles the allocator would return.
     */
    method UploadVertices(device: Device, staging: Handle, newBuffer: Handle) returns (r: Result<()>)
      modifies this, device
      ensures indexBuffer == old(indexBuffer) && indexData == old(indexData)
      ensures r.Err? <==> FirstWithoutVertices(old(meshes)) < |old(meshes)|
      ensures r.Err? ==>
                && r.msg == NO_VERTICES
                && meshes == TakeVertices(old(meshes), FirstWithoutVertices(old(meshes)) + 1)
                && vertexBuffer == old(vertexBuffer) && vertexData == old(vertexData)
                && device.trace == old(device.trace)
      ensures r.Ok? ==>
                && meshes == TakeVertices(old(meshes), |old(meshes)|)
                && vertexData == GatherVertices(old(meshes), |old(meshes)|)
                && vertexBuffer == Some(if old(vertexBuffer).Some? then old(vertexBuffer).value else newBuffer)
                && device.trace == old(device.trace) + [Created(Buffer, staging)]
                     + (if old(vertexBuffer).None? then [Created(Buffer, newBuffer)] else [])
                     + [Uploaded(Buffer, vertexBuffer.value, |vertexData| * VERTEX_SIZE), Destroyed(Buffer, staging)]
    {
      var taken, vertices, ok := TakeAllVertices(meshes);
      meshes := taken;
      if !ok {
        return Err(NO_VERTICES);
      }
      var bufferSize := |vertices| * VERTEX_SIZE;
      device.Create(Buffer, staging);
      if vertexBuffer.None? {
        device.Create(Buffer, newBuffer);
        vertexBuffer := Some(newBuffer);
      }
      device.Upload(Buffer, vertexBuffer.value, bufferSize);
      vertexData := vertices;
      device.Destroy(Buffer, staging);
      r := Ok(());
    }

    /**
     * `upload_indices`: moves every mesh's indices into one list, each
     * mesh's raised by the number of indices before it, and copies it into
     * the index buffer, created only when the model has none.
     */
    method UploadIndices(device: Device, staging: Handle, newBuffer: Handle) returns (r: Result<()>)
      modifies this, device
      ensures vertexBuffer == old(vertexBuffer) && vertexData == old(vertexData)
      ensures r.Err? <==> FirstWithoutIndices(old(meshes)) < |old(meshes)|
      ensures r.Err? ==>
                && r.msg == NO_INDICES
                && meshes == TakeIndices(old(meshes), FirstWithoutIndices(old(meshes)) + 1)
                && indexBuffer == old(indexBuffer) && indexData == old(indexData)
                && device.trace == old(device.trace)
      ensures r.Ok? ==>
                && meshes == TakeIndices(old(meshes), |old(meshes)|)
                && indexData == RebasedIndices(old(meshes), |old(meshes)|)
                && indexBuffer == Some(if old(indexBuffer).Some? then old(indexBuffer).value else newBuffer)
                && device.trace == old(device.trace) + [Created(Buffer, staging)]
                     + (if old(indexBuffer).None? then [Created(Buffer, newBuffer)] else [])
                     + [Uploaded(Buffer, indexBuffer.value, |indexData| * INDEX_SIZE), Destroyed(Buffer, staging)]
    {
      var taken, indices, ok := TakeAllIndices(meshes);
      meshes := taken;
      if !ok {
        return Err(NO_INDICES);
      }
      var bufferSize := |indices| * INDEX_SIZE;
      device.Create(Buffer, staging);
      if indexBuffer.None? {
        device.Create(Buffer, newBuffer);
        indexBuffer := Some(newBuffer);
      }
      device.Upload(Buffer, indexBuffer.value, bufferSize);
      indexData := indices;
      device.Destroy(Buffer, staging);
      r := Ok(());
    }

    /** `upload`: vertices first; the indices are uploaded only if that succeeded. */
    method Upload(device: Device, stagingV: Handle, newV: Handle, stagingI: Handle, newI: Handle) returns (r: Result<()>)
      modifies this, device
      ensures r.Ok? <==> FirstWithoutVertices(old(meshes)) == |old(meshes)| && FirstWithoutIndices(old(meshes)) == |old(meshes)|
      ensures FirstWithoutVertices(old(meshes)) < |old(meshes)| ==>
                && r == Err(NO_VERTICES) && indexBuffer == old(indexBuffer) && indexData == old(indexData)
                && vertexBuffer == old(vertexBuffer) && vertexData == old(vertexData)
                && device.trace == old(device.trace)
      ensures FirstWithoutVertices(old(meshes)) == |old(meshes)| ==>
                && vertexData == GatherVertices(old(meshes), |old(meshes)|)
                && vertexBuffer == Some(if old(vertexBuffer).Some? then old(vertexBuffer).value else newV)
      ensures FirstWithoutVertices(old(meshes)) == |old(meshes)| && FirstWithoutIndices(old(meshes)) < |old(meshes)| ==>
                && r == Err(NO_INDICES) && indexBuffer == old(indexBuffer) && indexData == old(indexData)
                && device.trace == old(device.trace) + UploadEvents(old(vertexBuffer), stagingV, newV, |vertexData| * VERTEX_SIZE)
      ensures r.Ok? ==>
                && meshes == TakeIndices(TakeVertices(old(meshes), |old(meshes)|), |old(meshes)|)
                && indexData == RebasedIndices(old(meshes), |old(meshes)|)
                && indexBuffer == Some(if old(indexBuffer).Some? then old(indexBuffer).value else newI)
                && device.trace == old(device.trace) + UploadEvents(old(vertexBuffer), stagingV, newV, |vertexData| * VERTEX_SIZE)
                                   + UploadEvents(old(indexBuffer), stagingI, newI, |indexData| * INDEX_SIZE)
    {
      ghost var m0, t0, vb0, ib0 := meshes, device.trace, vertexBuffer, indexBuffer;
      r := UploadVertices(device, stagingV, newV);
      if r.Err? {
        return;
      }
      ghost var m1, t1 := meshes, device.trace;
      assert t1 == t0 + UploadEvents(vb0, stagingV, newV, |vertexData| * VERTEX_SIZE);
      assert forall j :: 0 <= j < |m1| ==> m1[j].indices == m0[j].indices;
      IndicesUntouched(m0, m1, |m0|);
      assert m1 == TakeVertices(m0, |m0|);
      ghost var vd := vertexData;
      r := UploadIndices(device, stagingI, newI);
      assert vertexData == vd;
      if r.Ok? {
        assert meshes == TakeIndices(m1, |m1|);
        assert device.trace == t1 + UploadEvents(ib0, stagingI, newI, |indexData| * INDEX_SIZE);
      } else {
        assert device.trace == t1;
      }
    }

    /** `cleanup`: frees the vertex buffer, then the index buffer, whichever exist. */
    method Cleanup(device: Device)
      modifies this, device
      ensures device.trace == old(device.trace)
                + (if old(vertexBuffer).Some? then [Destroyed(Buffer, old(vertexBuffer).value)] else [])
                + (if old(indexBuffer).Some? then [Destroyed(Buffer, old(indexBuffer).value)] else [])
      ensures vertexBuffer == None && indexBuffer == None
    {
      if vertexBuffer.Some? {
        device.Destroy(Buffer, vertexBuffer.value);
      }
      if indexBuffer.Some? {
        device.Destroy(Buffer, indexBuffer.value);
      }
      vertexBuffer := None;
      indexBuffer := None;
    }
  }

  /**
   * The loop of `upload_vertices`: takes each mesh's vertices in turn and
   * appends them, stopping at the first mesh that has none (whose vertices
   * have then been taken too).
   */
  method TakeAllVertices(meshes: seq<ModelMesh>) returns (taken: seq<ModelMesh>, vertices: seq<Vertex>, ok: bool)
    ensures ok <==> FirstWithoutVertices(meshes) == |meshes|
    ensures ok ==> taken == TakeVertices(meshes, |meshes|) && vertices == GatherVertices(meshes, |meshes|)
    ensures !ok ==> taken == TakeVertices(meshes, FirstWithoutVertices(meshes) + 1)
  {
    taken, vertices := meshes, [];
    var i := 0;
    while i < |meshes|
      invariant 0 <= i <= |meshes| && i <= FirstWithoutVertices(meshes)
      invariant taken == TakeVertices(meshes, i)
      invariant vertices == GatherVertices(meshes, i)
    {
      var v := taken[i].vertices;
      taken := taken[i := taken[i].(vertices := None)];
      if v.None? {
        return taken, vertices, false;
      }
      vertices := vertices + v.value;
      i := i + 1;
    }
    ok := true;
  }

  /**
   * The loop of `upload_indices`: takes each mesh's indices in turn and
   * appends them raised by the number taken before, stopping at the first
   * mesh that has none (whose indices have then been taken too).
   */
  method TakeAllIndices(meshes: seq<ModelMesh>) returns (taken: seq<ModelMesh>, indices: seq<nat>, ok: bool)
    ensures ok <==> FirstWithoutIndices(meshes) == |meshes|
    ensures ok ==> taken == TakeIndices(meshes, |meshes|) && indices == RebasedIndices(meshes, |meshes|)
    ensures !ok ==> taken == TakeIndices(meshes, FirstWithoutIndices(meshes) + 1)
  {
    taken, indices := meshes, [];
    var offset := 0;
    var i := 0;
    while i < |meshes|
      invariant 0 <= i <= |meshes| && i <= FirstWithoutIndices(meshes)
      invariant taken == TakeIndices(meshes, i)
      invariant indices == RebasedIndices(meshes, i)
      invariant offset == IndexOffset(meshes, i)
    {
      var t := taken[i].indices;
      taken := taken[i := taken[i].(indices := None)];
      if t.None? {
        return taken, indices, false;
      }
      var shifted := ShiftIndices(t.value, offset);
      indices := indices + shifted;
      offset := offset + |t.value|;
      i := i + 1;
    }
    ok := true;
  }

  /** The loop in `upload_indices` that raises one mesh's indices by `offset`. */
  method ShiftIndices(indices: seq<nat>, offset: nat) returns (shifted: seq<nat>)
    ensures shifted == Shift(indices, offset)
  {
    shifted := [];
    var j := 0;
    while j < |indices|
      invariant 0 <= j <= |indices|
      invariant shifted == Shift(indices[..j], offset)
    {
      shifted := shifted + [indices[j] + offset];
      j := j + 1;
    }
    assert indices[..j] == indices;
  }

  /** Emptying the vertices leaves the indices, their offsets and their rebasing unchanged. */
  lemma {:induction false} IndicesUntouched(a: seq<ModelMesh>, b: seq<ModelMesh>, n: nat)
    requires n <= |a| == |b|
    requires forall j :: 0 <= j < |a| ==> a[j].indices == b[j].indices
    ensures FirstWithoutIndices(a) == FirstWithoutIndices(b)
    ensures (forall j :: 0 <= j < n ==> a[j].indices.Some?) ==> RebasedIndices(a, n) == RebasedIndices(b, n)
  {
    FirstIndicesAgree(a, b);
    if n > 0 && forall j :: 0 <= j < n ==> a[j].indices.Some? {
      IndicesUntouched(a, b, n - 1);
      OffsetsAgree(a, b, n - 1);
    }
  }

  lemma {:induction false} FirstIndicesAgree(a: seq<ModelMesh>, b: seq<ModelMesh>)
    requires |a| == |b|
    requires forall j :: 0 <= j < |a| ==> a[j].indices == b[j].indices
    ensures FirstWithoutIndices(a) == FirstWithoutIndices(b)
  {
    if a != [] && a[0].indices.Some? {
      FirstIndicesAgree(a[1..], b[1..]);
    }
  }

  lemma {:induction false} OffsetsAgree(a: seq<ModelMesh>, b: seq<ModelMesh>, k: nat)
    requires k <= |a| == |b|
    requires forall j :: 0 <= j < |a| ==> a[j].indices == b[j].indices
    requires forall j :: 0 <= j < k ==> a[j].indices.Some?
    ensures IndexOffset(a, k) == IndexOffset(b, k)
  {
    if k > 0 {
      OffsetsAgree(a, b, k - 1);
    }
  }
}
