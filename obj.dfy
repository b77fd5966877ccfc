// src/renderer/plugins/assets/obj.rs: turning the meshes `tobj` parses
// from an OBJ file into renderer meshes, one vertex per index, and the
// system that watches the OBJ assets until all are loaded. The OBJ parser
// and the asset server are not modelled: their results are parameters.

module Obj {
  import opened Vk
  import opened Vertex
  import opened Mesh

  /** A mesh as `tobj` returns it: flat attribute arrays addressed by one index per corner. */
  datatype ObjMesh = ObjMesh(positions: seq<real>, normals: seq<real>, texcoords: seq<real>, indices: seq<nat>)

  /** The array reads of the loop body stay in bounds for index `i`; out of bounds they panic. */
  predicate IndexReadable(m: ObjMesh, i: nat)
  {
    && 3 * i + 2 < |m.positions|
    && (m.normals != [] ==> 3 * i + 2 < |m.normals|)
    && (m.texcoords != [] ==> 2 * i + 1 < |m.texcoords|)
  }

  predicate Readable(m: ObjMesh)
  {
    forall k :: 0 <= k < |m.indices| ==> IndexReadable(m, m.indices[k])
  }

  const ZERO3: Vec3 := Vec3(0.0, 0.0, 0.0)

  /**
   * The vertex for index `i`: its position; its normal, or zero without
   * normals; the normal again as colour; its texture coordinate with v
   * flipped, or zero without texture coordinates.
   */
  function VertexAt(m: ObjMesh, i: nat): (v: Vertex)
    requires IndexReadable(m, i)
    ensures v.position == Vec3(m.positions[3 * i], m.positions[3 * i + 1], m.positions[3 * i + 2])
    ensures v.color == v.normal
    ensures m.normals == [] ==> v.normal == ZERO3
    ensures m.texcoords == [] ==> v.texcoord == Vec2(0.0, 0.0)
    ensures m.texcoords != [] ==> v.texcoord.x == m.texcoords[2 * i] && v.texcoord.y == 1.0 - m.texcoords[2 * i + 1]
  {
    var p := Vec3(m.positions[3 * i], m.positions[3 * i + 1], m.positions[3 * i + 2]);
    var n := if m.normals != [] then Vec3(m.normals[3 * i], m.normals[3 * i + 1], m.normals[3 * i + 2]) else ZERO3;
    var t := if m.texcoords != [] then Vec2(m.texcoords[2 * i], 1.0 - m.texcoords[2 * i + 1]) else Vec2(0.0, 0.0);
    Vertex(p, n, n, t)
  }

  /** One vertex per entry of the index list, in index-list order. */
  function Deindexed(m: ObjMesh): (r: seq<Vertex>)
    requires Readable(m)
    ensures |r| == |m.indices|
    ensures forall k :: 0 <= k < |r| ==> r[k] == VertexAt(m, m.indices[k])
  {
    seq(|m.indices|, k requires 0 <= k < |m.indices| => VertexAt(m, m.indices[k]))
  }

  /** Corners that share an OBJ index get the same vertex. */
  lemma SharedIndexSharedVertex(m: ObjMesh, k1: nat, k2: nat)
    requires Readable(m) && k1 < |m.indices| && k2 < |m.indices|
    requires m.indices[k1] == m.indices[k2]
    ensures Deindexed(m)[k1] == Deindexed(m)[k2]
  {
  }

  /**
   * `load_obj_from_bytes` after parsing, as written: one mesh per parsed
   * model, in order, each with its de-indexed vertices and the parsed index
   * list unchanged, numbered by the mesh id counter. A parse error is
   * returned as it is.
   */
  method LoadObjFromBytesAsWritten(counter: MeshIdCounter, parsed: Result<seq<ObjMesh>>) returns (r: Result<seq<Mesh>>)
    requires counter.Valid()
    requires parsed.Ok? ==> forall k :: 0 <= k < |parsed.value| ==> Readable(parsed.value[k])
    modifies counter
    ensures counter.Valid()
    ensures parsed.Err? ==> r == Err(parsed.msg) && counter.next == old(counter.next)
    ensures parsed.Ok? ==> r.Ok? && |r.value| == |parsed.value|
    ensures parsed.Ok? ==> forall k :: 0 <= k < |r.value| ==>
              r.value[k] == Mesh(old(counter.next) + k, Deindexed(parsed.value[k]), parsed.value[k].indices)
    ensures parsed.Ok? ==> counter.next == old(counter.next) + |parsed.value|
  {
    if parsed.Err? {
      return Err(parsed.msg);
    }
    var models := parsed.value;
    var meshes: seq<Mesh> := [];
    var m := 0;
    while m < |models|
      invariant 0 <= m <= |models| && |meshes| == m
      invariant counter.Valid() && counter.next == old(counter.next) + m
      invariant forall k :: 0 <= k < m ==>
                  meshes[k] == Mesh(old(counter.next) + k, Deindexed(models[k]), models[k].indices)
    {
      var mesh := models[m];
      var vertices: seq<Vertex> := [];
      var indices: seq<nat> := [];
      var j := 0;
      while j < |mesh.indices|
        invariant 0 <= j <= |mesh.indices|
        invariant vertices == Deindexed(mesh)[..j]
        invariant indices == mesh.indices[..j]
      {
        var i := mesh.indices[j];
        var p := Vec3(mesh.positions[3 * i], mesh.positions[3 * i + 1], mesh.positions[3 * i + 2]);
        var n := if mesh.normals != [] then Vec3(mesh.normals[3 * i], mesh.normals[3 * i + 1], mesh.normals[3 * i + 2]) else ZERO3;
        var t := if mesh.texcoords != [] then Vec2(mesh.texcoords[2 * i], 1.0 - mesh.texcoords[2 * i + 1]) else Vec2(0.0, 0.0);
        vertices := vertices + [Vertex(p, n, n, t)];
        indices := indices + [i];
        j := j + 1;
      }
      assert vertices == Deindexed(mesh) && indices == mesh.indices;
      var made := counter.New(vertices, indices);
      meshes := meshes + [made];
      m := m + 1;
    }
    r := Ok(meshes);
  }

  /**
   * The index list of a de-indexed mesh with `n` corners: corner `k` is
   * vertex `k`.
   */
  function CornerIndices(n: nat): (r: seq<nat>)
    ensures |r| == n
    ensures forall k :: 0 <= k < n ==> r[k] == k
  {
    seq(n, k requires 0 <= k < n => k)
  }

  /**
   * A four-corner face as `tobj` returns it with single-index loading: four
   * corners addressed by two triangles, no normals and no texture
   * coordinates.
   */
  const QUAD: ObjMesh := ObjMesh([0.0, 0.0, 0.0, 1.0, 0.0, 0.0, 1.0, 1.0, 0.0, 0.0, 1.0, 0.0], [], [], [0, 1, 2, 0, 2, 3])

  /**
   * With the parsed indices kept beside the de-indexed vertices, an indexed
   * draw of the quad reads its sixth corner from position 0, not from
   * position 3, which that corner names.
   */
  lemma KeptIndicesMisdrawQuad()
    ensures Readable(QUAD)
    ensures var drawn := Deindexed(QUAD)[QUAD.indices[5]];
            drawn.position == Vec3(0.0, 0.0, 0.0)
            && drawn.position != VertexAt(QUAD, QUAD.indices[5]).position
  {
    assert forall k :: 0 <= k < |QUAD.indices| ==> QUAD.indices[k] <= 3;
    var d := Deindexed(QUAD);
    assert d[3] == VertexAt(QUAD, 0);
    assert VertexAt(QUAD, 3).position == Vec3(0.0, 1.0, 0.0);
  }

  /** With corner indices, every corner of an indexed draw reads the vertex made for it. */
  lemma {:induction false} CornerIndicesDrawEachCorner(m: ObjMesh, k: nat)
    requires Readable(m) && k < |m.indices|
    ensures CornerIndices(|m.indices|)[k] < |Deindexed(m)|
    ensures Deindexed(m)[CornerIndices(|m.indices|)[k]] == VertexAt(m, m.indices[k])
  {
  }

  /**
   * `load_obj_from_bytes` with its index list corrected: the same meshes,
   * but each indexes its de-indexed vertices in order, so that every
   * corner is drawn from its own vertex (`CornerIndicesDrawEachCorner`).
   */
  method LoadObjFromBytes(counter: MeshIdCounter, parsed: Result<seq<ObjMesh>>) returns (r: Result<seq<Mesh>>)
    requires counter.Valid()
    requires parsed.Ok? ==> forall k :: 0 <= k < |parsed.value| ==> Readable(parsed.value[k])
    modifies counter
    ensures counter.Valid()
    ensures parsed.Err? ==> r == Err(parsed.msg) && counter.next == old(counter.next)
    ensures parsed.Ok? ==> r.Ok? && |r.value| == |parsed.value|
    ensures parsed.Ok? ==> forall k :: 0 <= k < |r.value| ==>
              r.value[k] == Mesh(old(counter.next) + k, Deindexed(parsed.value[k]), CornerIndices(|parsed.value[k].indices|))
    ensures parsed.Ok? ==> counter.next == old(counter.next) + |parsed.value|
  {
    if parsed.Err? {
      return Err(parsed.msg);
    }
    var models := parsed.value;
    var meshes: seq<Mesh> := [];
    var m := 0;
    while m < |models|
      invariant 0 <= m <= |models| && |meshes| == m
      invariant counter.Valid() && counter.next == old(counter.next) + m
      invariant forall k :: 0 <= k < m ==>
                  meshes[k] == Mesh(old(counter.next) + k, Deindexed(models[k]), CornerIndices(|models[k].indices|))
    {
      var mesh := models[m];
      var vertices: seq<Vertex> := [];
      var indices: seq<nat> := [];
      var j := 0;
      while j < |mesh.indices|
        invariant 0 <= j <= |mesh.indices|
        invariant vertices == Deindexed(mesh)[..j]
        invariant indices == CornerIndices(|mesh.indices|)[..j]
      {
        var i := mesh.indices[j];
        var p := Vec3(mesh.positions[3 * i], mesh.positions[3 * i + 1], mesh.positions[3 * i + 2]);
        var n := if mesh.normals != [] then Vec3(mesh.normals[3 * i], mesh.normals[3 * i + 1], mesh.normals[3 * i + 2]) else ZERO3;
        var t := if mesh.texcoords != [] then Vec2(mesh.texcoords[2 * i], 1.0 - mesh.texcoords[2 * i + 1]) else Vec2(0.0, 0.0);
        vertices := vertices + [Vertex(p, n, n, t)];
        indices := indices + [j];
        j := j + 1;
      }
      assert vertices == Deindexed(mesh) && indices == CornerIndices(|mesh.indices|);
      var made := counter.New(vertices, indices);
      meshes := meshes + [made];
      m := m + 1;
    }
    r := Ok(meshes);
  }

  // ---------------------------------------------------------------------
  // The "all OBJ models loaded" monitor

  datatype ObjAssetsState = NotLoaded | Loaded

  /** An entry of `ObjAssetsLoading`: the asset's handle and its recorded state. */
  datatype Entry = Entry(handle: Handle, state: ObjAssetsState)

  /**
   * One pass over one entry: a loaded entry is skipped; otherwise it becomes
   * loaded when the server reports its handle loaded with all dependencies.
   */
  function UpdatedEntry(e: Entry, reportedLoaded: set<Handle>): (r: Entry)
    ensures r.handle == e.handle
    ensures e.state == Loaded ==> r == e
    ensures r.state == Loaded <==> e.state == Loaded || e.handle in reportedLoaded
  {
    if e.state == Loaded then e
    else if e.handle in reportedLoaded then e.(state := Loaded)
    else e
  }

  predicate AllLoaded(entries: map<string, Entry>)
  {
    forall name :: name in entries ==> entries[name].state == Loaded
  }

  /** `NextState<ObjAssetsState>`: the state change requested for the next frame, if any. */
  class NextState {
    var pending: Option<ObjAssetsState>

    constructor ()
      ensures pending == None
    {
      pending := None;
    }
  }

  /** The resource `ObjAssetsLoading`: asset name to handle and state. */
  class ObjAssetsLoading {
    var entries: map<string, Entry>

    constructor ()
      ensures entries == map[]
    {
      entries := map[];
    }

    /**
     * `check_all_obj_models_loaded`: updates every entry in place, then
     * requests the Loaded state iff every entry is loaded (so also when
     * there are none); otherwise the request is left as it was.
     */
    method CheckAllObjModelsLoaded(reportedLoaded: set<Handle>, state: NextState)
      modifies this, state
      ensures entries.Keys == old(entries).Keys
      ensures forall name :: name in entries ==> entries[name] == UpdatedEntry(old(entries)[name], reportedLoaded)
      ensures AllLoaded(entries) ==> state.pending == Some(Loaded)
      ensures !AllLoaded(entries) ==> state.pending == old(state.pending)
    {
      var remaining := entries.Keys;
      while remaining != {}
        invariant remaining <= entries.Keys && entries.Keys == old(entries).Keys
        invariant state.pending == old(state.pending)
        invariant forall name :: name in entries ==>
                    entries[name] == if name in remaining then old(entries)[name]
                                     else UpdatedEntry(old(entries)[name], reportedLoaded)
        decreases remaining
      {
        var name :| name in remaining;
        var e := entries[name];
        if e.state != Loaded && e.handle in reportedLoaded {
          entries := entries[name := e.(state := Loaded)];
        }
        remaining := remaining - {name};
      }
      var all := forall name :: name in entries ==> entries[name].state == Loaded;
      if all {
        state.pending := Some(Loaded);
      }
    }
  }

  /** A loaded entry stays loaded, and the pass never forgets an asset. */
  lemma LoadedNeverReverts(entries: map<string, Entry>, reportedLoaded: set<Handle>, name: string)
    requires name in entries && entries[name].state == Loaded
    ensures UpdatedEntry(entries[name], reportedLoaded) == entries[name]
  {
  }

  /** After a pass in which the server reports every handle loaded, everything is loaded. */
  lemma EverythingReportedMeansAllLoaded(entries: map<string, Entry>, reportedLoaded: set<Handle>)
    requires forall name :: name in entries ==> entries[name].handle in reportedLoaded
    ensures AllLoaded(map name | name in entries :: UpdatedEntry(entries[name], reportedLoaded))
  {
  }
}
