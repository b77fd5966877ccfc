// src/renderer/egui.rs: the egui overlay renderer. `ManagedTextures` keeps
// one texture per egui texture id and applies egui's texture deltas; the
// draw loop writes each mesh into the shared vertex and index buffers and
// records one indexed draw per mesh, with running vertex and index bases.

module Egui {
  import opened Vk
  import opened Gpu
  import Vertex
  import VkUtils
  import M = Material

  // ---------------------------------------------------------------------
  // Vertex layout

  /** `epaint::Color32`: four bytes, red first. */
  datatype Color32 = Color32(r: bv8, g: bv8, b: bv8, a: bv8)

  /** `epaint::Vertex` (`repr(C)`): position and texture coordinate as two f32 each, then the colour. */
  datatype EguiVertex = EguiVertex(pos: Vertex.Vec2, uv: Vertex.Vec2, color: Color32)

  /** Bytes per egui vertex: four f32 and four u8, as the binding's stride computes it. */
  const EGUI_VERTEX_SIZE: nat := 4 * 4 + 4 * 1

  function EguiDesc(second: Vertex.AttributeDescription, third: Vertex.AttributeDescription): Vertex.VertexInputDescription
  {
    Vertex.VertexInputDescription(
      [Vertex.BindingDescription(0, EGUI_VERTEX_SIZE, Vertex.PerVertex)],
      [Vertex.AttributeDescription(0, 0, R32G32Sfloat, 0), second, third],
      0)
  }

  /**
   * `get_vertex_desc` as written: the position at 0, an R8G8B8A8 attribute
   * at 8 and an R32G32 attribute at 16.
   */
  function GetVertexDescAsWritten(): (r: Vertex.VertexInputDescription)
    ensures |r.bindings| == 1 && r.bindings[0].stride == 20 && |r.attributes| == 3
    ensures r.attributes[1] == Vertex.AttributeDescription(0, 1, R8G8B8A8Unorm, 8)
    ensures r.attributes[2] == Vertex.AttributeDescription(0, 2, R32G32Sfloat, 16)
  {
    EguiDesc(Vertex.AttributeDescription(0, 1, R8G8B8A8Unorm, 8), Vertex.AttributeDescription(0, 2, R32G32Sfloat, 16))
  }

  /** As written, location 2 reads bytes 16 to 24 of a 20-byte vertex: it runs into the next vertex. */
  lemma ColorAttributeOverrunsStride()
    ensures !Vertex.AttributesWithinStride(GetVertexDescAsWritten())
  {
    var d := GetVertexDescAsWritten();
    assert d.attributes[2].offset + FormatSize(d.attributes[2].format) == 24;
  }

  /**
   * `get_vertex_desc` with the two formats in the places the vertex puts
   * its fields: the texture coordinate (two f32) at 8, the colour (four
   * u8) at 16.
   */
  function GetVertexDesc(): (r: Vertex.VertexInputDescription)
    ensures |r.bindings| == 1 && r.bindings[0] == Vertex.BindingDescription(0, EGUI_VERTEX_SIZE, Vertex.PerVertex)
    ensures |r.attributes| == 3
    ensures r.attributes[1] == Vertex.AttributeDescription(0, 1, R32G32Sfloat, 8)
    ensures r.attributes[2] == Vertex.AttributeDescription(0, 2, R8G8B8A8Unorm, 16)
  {
    EguiDesc(Vertex.AttributeDescription(0, 1, R32G32Sfloat, 8), Vertex.AttributeDescription(0, 2, R8G8B8A8Unorm, 16))
  }

  /** The corrected description reads each vertex's bytes exactly once: disjoint attributes filling the stride. */
  lemma VertexDescCoversVertex()
    ensures Vertex.AttributesWithinStride(GetVertexDesc())
    ensures Vertex.AttributesDisjoint(GetVertexDesc())
    ensures var d := GetVertexDesc();
            d.attributes[2].offset + FormatSize(d.attributes[2].format) == d.bindings[0].stride
  {
    var d := GetVertexDesc();
    assert d.attributes[0] == Vertex.AttributeDescription(0, 0, R32G32Sfloat, 0);
  }

  // ---------------------------------------------------------------------
  // Texture data

  datatype TextureId = Managed(n: nat) | User(n: nat)

  /**
   * `epaint::ImageData`. A font image is given as the sRGBA pixels
   * `srgba_pixels` derives from its coverage values.
   */
  datatype ImageData =
    | ColorImage(width: nat, height: nat, pixels: seq<Color32>)
    | FontImage(width: nat, height: nat, srgba: seq<Color32>)

  /** `epaint::ImageDelta`: a whole image (no `pos`) or a patch of an existing one. */
  datatype ImageDelta = ImageDelta(image: ImageData, pos: Option<(nat, nat)>)

  /** `epaint::TexturesDelta`: the images to set, in order, then the ids to free. */
  datatype TexturesDelta = TexturesDelta(sets: seq<(TextureId, ImageDelta)>, free: seq<TextureId>)

  /** The `assert_eq!` on a colour image: one pixel per texel. */
  predicate WellSized(d: ImageData)
  {
    d.ColorImage? ==> d.width * d.height == |d.pixels|
  }

  function Channel(c: Color32, k: nat): bv8
  {
    if k == 0 then c.r else if k == 1 then c.g else if k == 2 then c.b else c.a
  }

  /** `flat_map(to_array)`: four bytes per pixel, in RGBA order. */
  function PixelBytes(pixels: seq<Color32>): (r: seq<bv8>)
    ensures |r| == 4 * |pixels|
  {
    seq(4 * |pixels|, k requires 0 <= k < 4 * |pixels| => Channel(pixels[k / 4], k % 4))
  }

  /** Reassembles pixels from RGBA bytes. */
  function BytesToPixels(bytes: seq<bv8>): (r: seq<Color32>)
    ensures |r| == |bytes| / 4
  {
    seq(|bytes| / 4, i requires 0 <= i < |bytes| / 4 =>
      Color32(bytes[4 * i], bytes[4 * i + 1], bytes[4 * i + 2], bytes[4 * i + 3]))
  }

  lemma ByteIndex(i: nat, c: nat)
    requires c < 4
    ensures (4 * i + c) / 4 == i && (4 * i + c) % 4 == c
  {
  }

  /** Byte `4i + c` of the upload is channel `c` of pixel `i`. */
  lemma PixelBytesLayout(pixels: seq<Color32>, i: nat)
    requires i < |pixels|
    ensures PixelBytes(pixels)[4 * i] == pixels[i].r
    ensures PixelBytes(pixels)[4 * i + 1] == pixels[i].g
    ensures PixelBytes(pixels)[4 * i + 2] == pixels[i].b
    ensures PixelBytes(pixels)[4 * i + 3] == pixels[i].a
  {
    ByteIndex(i, 0);
    ByteIndex(i, 1);
    ByteIndex(i, 2);
    ByteIndex(i, 3);
  }

  /** The upload loses nothing: the pixels can be read back from the bytes. */
  lemma PixelBytesRoundTrip(pixels: seq<Color32>)
    ensures BytesToPixels(PixelBytes(pixels)) == pixels
  {
    var bytes := PixelBytes(pixels);
    var back := BytesToPixels(bytes);
    ByteIndex(|pixels|, 0);
    assert |back| == |pixels|;
    forall i | 0 <= i < |pixels|
      ensures back[i] == pixels[i]
    {
      PixelBytesLayout(pixels, i);
      assert back[i] == Color32(bytes[4 * i], bytes[4 * i + 1], bytes[4 * i + 2], bytes[4 * i + 3]);
    }
  }

  function PixelCount(d: ImageData): nat
  {
    if d.ColorImage? then |d.pixels| else |d.srgba|
  }

  /** The bytes `update_texture` uploads for an image. */
  function UploadData(d: ImageData): (r: seq<bv8>)
    ensures |r| == 4 * PixelCount(d)
  {
    if d.ColorImage? then PixelBytes(d.pixels) else PixelBytes(d.srgba)
  }

  /** A well-sized colour image uploads four bytes per texel of its width times height. */
  lemma ColorUploadSize(d: ImageData)
    requires d.ColorImage? && WellSized(d)
    ensures |UploadData(d)| == 4 * (d.width * d.height)
  {
  }

  /** The `as u32` casts of the image's size. */
  function ExtentOf(d: ImageData): (r: Extent2D)
    ensures IsU32(r.width) && IsU32(r.height)
    ensures d.width < U32_LIMIT && d.height < U32_LIMIT ==> r == Extent2D(d.width, d.height)
  {
    Extent2D(d.width % U32_LIMIT, d.height % U32_LIMIT)
  }

  // ---------------------------------------------------------------------
  // Managed textures

  /** What the device returns while a texture is being made: image, sampler and descriptor set. */
  datatype TextureHandles = TextureHandles(image: Handle, sampler: Handle, descSet: Handle)

  /**
   * The fallible calls of `update_texture`, in the order it makes them:
   * the descriptor set allocation, the image, its upload, the sampler and
   * `Texture::new`.
   */
  datatype MakingStage = AtDescSet | AtImage | AtUpload | AtSampler | AtTexture

  /**
   * How making the new texture went: every call succeeded, or the first
   * failing call, with its error and the handles the calls before it returned.
   */
  datatype TextureMaking =
    | Made(handles: TextureHandles)
    | Failed(stage: MakingStage, handles: TextureHandles, msg: string)

  /** An image size held in two u32 fields. */
  type U32Extent = e: Extent2D | IsU32(e.width) && IsU32(e.height) witness Extent2D(0, 0)

  /** `Texture` as egui uses it: an image with its extent and descriptor set, and a sampler. */
  datatype EguiTexture = EguiTexture(image: Handle, extent: U32Extent, sampler: Handle, descSet: Handle)

  /** `create_sampler`: linear filtering, clamped at the edges. */
  const EGUI_SAMPLER: SamplerInfo := SamplerInfo(Linear, Linear, ClampToEdge, ClampToEdge, ClampToEdge)

  function CreationEvents(t: EguiTexture, d: ImageData): seq<Event>
  {
    [Created(Image, t.image), Uploaded(Image, t.image, 4 * PixelCount(d)), SamplerCreated(t.sampler, EGUI_SAMPLER)]
  }

  /** `Texture::cleanup`: the image, then the sampler. */
  function CleanupEvents(t: EguiTexture): seq<Event>
  {
    [Destroyed(Image, t.image), Destroyed(Sampler, t.sampler)]
  }

  /** Both of the texture's objects are destroyed somewhere in `events`. */
  predicate Released(t: EguiTexture, events: seq<Event>)
  {
    Destroyed(Image, t.image) in events && Destroyed(Sampler, t.sampler) in events
  }

  /** The map, the device events and the recorded commands after some texture operations. */
  datatype Step = Step(textures: map<TextureId, EguiTexture>, events: seq<Event>, commands: seq<Command>, result: Result<()>)

  /**
   * The device events of a making that failed at `stage`: the image is
   * created before its upload, uploaded before the sampler is made, and the
   * sampler made before `Texture::new`. The `?` returns at once, so nothing
   * made so far is destroyed.
   */
  function PartialEvents(stage: MakingStage, h: TextureHandles, d: ImageData): (r: seq<Event>)
    ensures |r| == match stage case AtDescSet => 0 case AtImage => 0 case AtUpload => 1 case AtSampler => 2 case AtTexture => 3
    ensures forall e :: e in r ==> !e.Destroyed?
  {
    var t := EguiTexture(h.image, ExtentOf(d), h.sampler, h.descSet);
    var made := CreationEvents(t, d);
    match stage
    case AtDescSet => []
    case AtImage => []
    case AtUpload => made[..1]
    case AtSampler => made[..2]
    case AtTexture => made
  }

  /**
   * `update_texture`. `created` is the texture the device makes, or the
   * first call that failed on the way. With a `pos`, the existing texture
   * (if any) is blitted onto itself and the new texture is destroyed;
   * without one, the new texture replaces (and destroys) the old.
   */
  function UpdateTextureStep(m: map<TextureId, EguiTexture>, id: TextureId, delta: ImageDelta, created: TextureMaking): (s: Step)
    ensures s.result.Err? <==> created.Failed?
  {
    if created.Failed? then Step(m, PartialEvents(created.stage, created.handles, delta.image), [], Err(created.msg))
    else
      var h := created.handles;
      var t := EguiTexture(h.image, ExtentOf(delta.image), h.sampler, h.descSet);
      var made := CreationEvents(t, delta.image);
      if delta.pos.Some? then
        var blit := if id in m then [CopyImage(m[id].image, m[id].image, m[id].extent, ExtentOf(delta.image))] else [];
        Step(m, made + CleanupEvents(t), blit, Ok(()))
      else
        Step(m[id := t], made + (if id in m then CleanupEvents(m[id]) else []), [], Ok(()))
  }

  /**
   * A failed making leaves the map and the commands as they were, reports
   * the failing call's error and records what was made before it; a patch
   * leaves the map as it was; a whole image puts the new texture under its
   * id and keeps every other entry.
   */
  lemma UpdateTextureEffect(m: map<TextureId, EguiTexture>, id: TextureId, delta: ImageDelta, created: TextureMaking)
    ensures var s := UpdateTextureStep(m, id, delta, created);
            && (created.Failed? ==>
                  s == Step(m, PartialEvents(created.stage, created.handles, delta.image), [], Err(created.msg)))
            && (delta.pos.Some? ==> s.textures == m)
            && (created.Made? && delta.pos.None? ==>
                  s.textures.Keys == m.Keys + {id}
                  && s.textures[id] == EguiTexture(created.handles.image, ExtentOf(delta.image), created.handles.sampler, created.handles.descSet)
                  && (forall k :: k in m && k != id ==> s.textures[k] == m[k]))
  {
  }

  /**
   * A failure after the image is created (its upload, the sampler or
   * `Texture::new`) leaves that image created and never destroyed, and
   * the new texture is in no map entry; a failure at the sampler or later
   * also leaves the upload behind, and one at `Texture::new` the sampler.
   */
  lemma LateFailureLeaksImage(m: map<TextureId, EguiTexture>, id: TextureId, delta: ImageDelta,
                              stage: MakingStage, h: TextureHandles, msg: string)
    requires stage == AtUpload || stage == AtSampler || stage == AtTexture
    ensures var s := UpdateTextureStep(m, id, delta, Failed(stage, h, msg));
            && Created(Image, h.image) in s.events
            && Destroyed(Image, h.image) !in s.events
            && s.textures == m
            && (stage != AtUpload ==> Uploaded(Image, h.image, 4 * PixelCount(delta.image)) in s.events)
            && (stage == AtTexture ==> SamplerCreated(h.sampler, EGUI_SAMPLER) in s.events && Destroyed(Sampler, h.sampler) !in s.events)
  {
    var s := UpdateTextureStep(m, id, delta, Failed(stage, h, msg));
    assert s.events[0] == Created(Image, h.image);
    if stage != AtUpload {
      assert s.events[1] == Uploaded(Image, h.image, 4 * PixelCount(delta.image));
    }
    if stage == AtTexture {
      assert s.events[2] == SamplerCreated(h.sampler, EGUI_SAMPLER);
    }
  }

  /**
   * A patch of an existing texture records one copy, whose blit reads and
   * writes that texture's own image: the new texture holding the patch's
   * pixels is never read, and the patch position is not used.
   */
  lemma PatchBlitsTextureOntoItself(m: map<TextureId, EguiTexture>, id: TextureId, delta: ImageDelta, h: TextureHandles)
    requires delta.pos.Some? && id in m
    ensures var s := UpdateTextureStep(m, id, delta, Made(h));
            s.commands == [CopyImage(m[id].image, m[id].image, m[id].extent, ExtentOf(delta.image))]
    ensures var b := VkUtils.CopyImageToImage(m[id].image, m[id].image, m[id].extent, ExtentOf(delta.image));
            b.src == b.dst == m[id].image
            && (h.image != m[id].image ==> b.src != h.image)
            && b.regions[0].dstOffsets.0 == VkUtils.Offset3D(0, 0, 0)
  {
  }

  /**
   * Nothing leaks: the new texture and every texture in the map are
   * afterwards either in the map or destroyed.
   */
  lemma UpdateReleasesOrKeeps(m: map<TextureId, EguiTexture>, id: TextureId, delta: ImageDelta, h: TextureHandles)
    ensures var s := UpdateTextureStep(m, id, delta, Made(h));
            var t := EguiTexture(h.image, ExtentOf(delta.image), h.sampler, h.descSet);
            && (t in s.textures.Values || Released(t, s.events))
            && (forall k :: k in m ==> (k in s.textures && s.textures[k] == m[k]) || Released(m[k], s.events))
  {
    var s := UpdateTextureStep(m, id, delta, Made(h));
    var t := EguiTexture(h.image, ExtentOf(delta.image), h.sampler, h.descSet);
    if delta.pos.Some? {
      assert s.events[3..] == CleanupEvents(t);
    } else {
      assert s.textures[id] == t;
      if id in m {
        assert s.events[3..] == CleanupEvents(m[id]);
      }
    }
  }

  /** The sets of `update_textures`, in order, stopping at the first error. */
  function ApplySets(m: map<TextureId, EguiTexture>, sets: seq<(TextureId, ImageDelta)>, creations: seq<TextureMaking>, n: nat): (s: Step)
    requires n <= |sets| == |creations|
  {
    if n == 0 then Step(m, [], [], Ok(()))
    else
      var prev := ApplySets(m, sets, creations, n - 1);
      if prev.result.Err? then prev
      else
        var s := UpdateTextureStep(prev.textures, sets[n - 1].0, sets[n - 1].1, creations[n - 1]);
        Step(s.textures, prev.events + s.events, prev.commands + s.commands, s.result)
  }

  /** `update_textures` succeeds exactly when every texture could be made. */
  lemma {:induction false} SetsSucceedIffAllCreated(m: map<TextureId, EguiTexture>, sets: seq<(TextureId, ImageDelta)>,
                                                   creations: seq<TextureMaking>, n: nat)
    requires n <= |sets| == |creations|
    ensures ApplySets(m, sets, creations, n).result.Ok? <==> forall j :: 0 <= j < n ==> creations[j].Made?
  {
    if n > 0 {
      SetsSucceedIffAllCreated(m, sets, creations, n - 1);
      var prev := ApplySets(m, sets, creations, n - 1);
      if prev.result.Ok? {
        var step := UpdateTextureStep(prev.textures, sets[n - 1].0, sets[n - 1].1, creations[n - 1]);
        assert ApplySets(m, sets, creations, n).result == step.result;
      } else {
        assert ApplySets(m, sets, creations, n) == prev;
        assert !(forall j :: 0 <= j < n - 1 ==> creations[j].Made?);
      }
    }
  }

  /** One more set entry, after an unbroken run. */
  lemma ApplySetsNext(m: map<TextureId, EguiTexture>, sets: seq<(TextureId, ImageDelta)>,
                      creations: seq<TextureMaking>, i: nat, textures: map<TextureId, EguiTexture>,
                      events: seq<Event>, commands: seq<Command>)
    requires i < |sets| == |creations|
    requires ApplySets(m, sets, creations, i) == Step(textures, events, commands, Ok(()))
    ensures var step := UpdateTextureStep(textures, sets[i].0, sets[i].1, creations[i]);
            ApplySets(m, sets, creations, i + 1)
              == Step(step.textures, events + step.events, commands + step.commands, step.result)
  {
  }

  /** After the first failure nothing more happens. */
  lemma {:induction false} FailureStops(m: map<TextureId, EguiTexture>, sets: seq<(TextureId, ImageDelta)>,
                                       creations: seq<TextureMaking>, k: nat, n: nat)
    requires k <= n <= |sets| == |creations|
    requires ApplySets(m, sets, creations, k).result.Err?
    ensures ApplySets(m, sets, creations, n) == ApplySets(m, sets, creations, k)
  {
    if n > k {
      FailureStops(m, sets, creations, k, n - 1);
    }
  }

  /** `free_texture` for each id in turn: a present id is removed and its texture destroyed; an absent one is skipped. */
  function FreeAll(m: map<TextureId, EguiTexture>, ids: seq<TextureId>, n: nat): (r: (map<TextureId, EguiTexture>, seq<Event>))
    requires n <= |ids|
  {
    if n == 0 then (m, [])
    else
      var prev := FreeAll(m, ids, n - 1);
      var id := ids[n - 1];
      if id in prev.0 then (prev.0 - {id}, prev.1 + CleanupEvents(prev.0[id]))
      else prev
  }

  /** The frees remove exactly the listed ids and leave every other entry as it was. */
  lemma {:induction false} FreeAllRemovesListed(m: map<TextureId, EguiTexture>, ids: seq<TextureId>, n: nat)
    requires n <= |ids|
    ensures forall k :: k in FreeAll(m, ids, n).0 <==> k in m && k !in ids[..n]
    ensures forall k :: k in FreeAll(m, ids, n).0 ==> FreeAll(m, ids, n).0[k] == m[k]
  {
    if n > 0 {
      FreeAllRemovesListed(m, ids, n - 1);
      assert ids[..n] == ids[..n - 1] + [ids[n - 1]];
    }
  }

  /** `update_textures`: the sets, then (only if they all succeeded) the frees. */
  function UpdateTexturesSpec(m: map<TextureId, EguiTexture>, delta: TexturesDelta, creations: seq<TextureMaking>): (s: Step)
    requires |delta.sets| == |creations|
  {
    var sets := ApplySets(m, delta.sets, creations, |delta.sets|);
    if sets.result.Err? then sets
    else
      var freed := FreeAll(sets.textures, delta.free, |delta.free|);
      Step(freed.0, sets.events + freed.1, sets.commands, Ok(()))
  }

  /** A successful update leaves none of the freed ids in the map. */
  lemma FreedIdsAreGone(m: map<TextureId, EguiTexture>, delta: TexturesDelta, creations: seq<TextureMaking>)
    requires |delta.sets| == |creations|
    requires forall j :: 0 <= j < |creations| ==> creations[j].Made?
    ensures var s := UpdateTexturesSpec(m, delta, creations);
            s.result.Ok? && forall j :: 0 <= j < |delta.free| ==> delta.free[j] !in s.textures
  {
    SetsSucceedIffAllCreated(m, delta.sets, creations, |delta.sets|);
    var sets := ApplySets(m, delta.sets, creations, |delta.sets|);
    FreeAllRemovesListed(sets.textures, delta.free, |delta.free|);
    assert delta.free[..|delta.free|] == delta.free;
  }

  /** `ManagedTextures`. */
  class ManagedTextures {
    var textures: map<TextureId, EguiTexture>

    /** `new`: no textures. */
    constructor ()
      ensures textures == map[]
    {
      textures := map[];
    }

    /** `free_texture`. */
    method FreeTexture(id: TextureId, device: Device)
      modifies this, device
      ensures textures == FreeAll(old(textures), [id], 1).0
      ensures device.trace == old(device.trace) + FreeAll(old(textures), [id], 1).1
    {
      if id in textures {
        var t := textures[id];
        textures := textures - {id};
        CleanupTexture(t, device);
      }
    }

    /** `update_texture`. */
    method UpdateTexture(cmd: CommandBuffer, id: TextureId, delta: ImageDelta, created: TextureMaking, device: Device)
      returns (r: Result<()>)
      requires WellSized(delta.image)
      modifies this, cmd, device
      ensures var s := UpdateTextureStep(old(textures), id, delta, created);
              r == s.result && textures == s.textures
              && device.trace == old(device.trace) + s.events
              && cmd.commands == old(cmd.commands) + s.commands
    {
      var h := created.handles;
      var t := EguiTexture(h.image, ExtentOf(delta.image), h.sampler, h.descSet);
      ghost var made := CreationEvents(t, delta.image);
      if created.Failed? && (created.stage == AtDescSet || created.stage == AtImage) {
        return Err(created.msg);
      }
      device.Create(Image, t.image);
      if created.Failed? && created.stage == AtUpload {
        assert device.trace == old(device.trace) + made[..1];
        return Err(created.msg);
      }
      var data := UploadData(delta.image);
      device.Upload(Image, t.image, |data|);
      if created.Failed? && created.stage == AtSampler {
        assert device.trace == old(device.trace) + made[..2];
        return Err(created.msg);
      }
      device.CreateSampler(EGUI_SAMPLER, t.sampler);
      if created.Failed? {
        return Err(created.msg);
      }
      assert device.trace == old(device.trace) + made;
      if delta.pos.Some? {
        if id in textures {
          var existing := textures[id];
          cmd.Record(CopyImage(existing.image, existing.image, existing.extent, ExtentOf(delta.image)));
        }
        CleanupTexture(t, device);
        Assoc(old(device.trace), made, CleanupEvents(t));
      } else {
        if id in textures {
          var previous := textures[id];
          textures := textures - {id};
          CleanupTexture(previous, device);
          Assoc(old(device.trace), made, CleanupEvents(previous));
        }
        textures := textures[id := t];
      }
      r := Ok(());
    }

    /** The `free` half of `update_textures`: `free_texture` for each id in turn. */
    method FreeTextures(ids: seq<TextureId>, device: Device)
      modifies this, device
      ensures textures == FreeAll(old(textures), ids, |ids|).0
      ensures device.trace == old(device.trace) + FreeAll(old(textures), ids, |ids|).1
    {
      var j := 0;
      while j < |ids|
        invariant 0 <= j <= |ids|
        invariant textures == FreeAll(old(textures), ids, j).0
        invariant device.trace == old(device.trace) + FreeAll(old(textures), ids, j).1
      {
        FreeTexture(ids[j], device);
        j := j + 1;
      }
    }

    /** The `set` half of `update_textures`: `update_texture` for each entry, stopping at the first error. */
    method UpdateEach(cmd: CommandBuffer, sets: seq<(TextureId, ImageDelta)>, creations: seq<TextureMaking>, device: Device)
      returns (r: Result<()>)
      requires |sets| == |creations|
      requires forall j :: 0 <= j < |sets| ==> WellSized(sets[j].1.image)
      modifies this, cmd, device
      ensures var s := ApplySets(old(textures), sets, creations, |sets|);
              r == s.result && textures == s.textures
              && device.trace == old(device.trace) + s.events
              && cmd.commands == old(cmd.commands) + s.commands
    {
      ghost var start := textures;
      ghost var events: seq<Event> := [];
      ghost var recorded: seq<Command> := [];
      var i := 0;
      while i < |sets|
        invariant 0 <= i <= |sets|
        invariant ApplySets(start, sets, creations, i) == Step(textures, events, recorded, Ok(()))
        invariant device.trace == old(device.trace) + events
        invariant cmd.commands == old(cmd.commands) + recorded
      {
        ghost var step := UpdateTextureStep(textures, sets[i].0, sets[i].1, creations[i]);
        ApplySetsNext(start, sets, creations, i, textures, events, recorded);
        r := UpdateTexture(cmd, sets[i].0, sets[i].1, creations[i], device);
        Assoc(old(device.trace), events, step.events);
        Assoc(old(cmd.commands), recorded, step.commands);
        events, recorded := events + step.events, recorded + step.commands;
        if r.Err? {
          FailureStops(start, sets, creations, i + 1, |sets|);
          return;
        }
        i := i + 1;
      }
      r := Ok(());
    }

    /** `update_textures`: the sets in order, then, if none failed, the frees. */
    method UpdateTextures(cmd: CommandBuffer, delta: TexturesDelta, creations: seq<TextureMaking>, device: Device)
      returns (r: Result<()>)
      requires |delta.sets| == |creations|
      requires forall j :: 0 <= j < |delta.sets| ==> WellSized(delta.sets[j].1.image)
      modifies this, cmd, device
      ensures var s := UpdateTexturesSpec(old(textures), delta, creations);
              r == s.result && textures == s.textures
              && device.trace == old(device.trace) + s.events
              && cmd.commands == old(cmd.commands) + s.commands
    {
      r := UpdateEach(cmd, delta.sets, creations, device);
      if r.Err? {
        return;
      }
      FreeTextures(delta.free, device);
    }

    /** `cleanup`: every texture destroyed once, in the map's own order. */
    method Cleanup(device: Device) returns (ghost order: seq<TextureId>)
      modifies this, device
      ensures forall k :: k in old(textures) <==> k in order
      ensures forall i, j :: 0 <= i < j < |order| ==> order[i] != order[j]
      ensures device.trace == old(device.trace) + CleanupAll(old(textures), order)
      ensures textures == map[]
    {
      var m := textures;
      textures := map[];
      order := DestroyAll(m, device);
    }
  }

  /** The loop of `cleanup`: each texture of `m` destroyed once, in some order of its keys. */
  method DestroyAll(m: map<TextureId, EguiTexture>, device: Device) returns (ghost order: seq<TextureId>)
    modifies device
    ensures forall k :: k in m <==> k in order
    ensures forall i, j :: 0 <= i < j < |order| ==> order[i] != order[j]
    ensures forall i :: 0 <= i < |order| ==> order[i] in m
    ensures device.trace == old(device.trace) + CleanupAll(m, order)
  {
    var remaining := m.Keys;
    ghost var done: set<TextureId> := {};
    order := [];
    while remaining != {}
      invariant remaining == m.Keys - done && done <= m.Keys
      invariant forall k :: k in done <==> k in order
      invariant forall i, j :: 0 <= i < j < |order| ==> order[i] != order[j]
      invariant device.trace == old(device.trace) + CleanupAll(m, order)
      decreases remaining
    {
      var k :| k in remaining;
      CleanupTexture(m[k], device);
      CleanupAllAppend(m, order, k);
      Assoc(old(device.trace), CleanupAll(m, order), CleanupEvents(m[k]));
      order := order + [k];
      done := done + {k};
      remaining := remaining - {k};
    }
  }

  function CleanupAll(m: map<TextureId, EguiTexture>, order: seq<TextureId>): (r: seq<Event>)
    requires forall i :: 0 <= i < |order| ==> order[i] in m
    ensures |r| == 2 * |order|
  {
    if order == [] then []
    else CleanupAll(m, order[..|order| - 1]) + CleanupEvents(m[order[|order| - 1]])
  }

  lemma CleanupAllAppend(m: map<TextureId, EguiTexture>, order: seq<TextureId>, k: TextureId)
    requires forall i :: 0 <= i < |order| ==> order[i] in m
    requires k in m
    ensures CleanupAll(m, order + [k]) == CleanupAll(m, order) + CleanupEvents(m[k])
  {
    assert (order + [k])[..|order|] == order;
  }

  method CleanupTexture(t: EguiTexture, device: Device)
    modifies device
    ensures device.trace == old(device.trace) + CleanupEvents(t)
  {
    device.Destroy(Image, t.image);
    device.Destroy(Sampler, t.sampler);
  }

  lemma Assoc<T>(a: seq<T>, b: seq<T>, c: seq<T>)
    ensures a + b + c == a + (b + c)
  {
  }

  // ---------------------------------------------------------------------
  // The draw loop

  /** `egui::Mesh`. */
  datatype EguiMesh = EguiMesh(indices: seq<nat>, vertices: seq<EguiVertex>, textureId: TextureId)

  /** `egui::epaint::Primitive`; the clip rectangle only feeds the scissor. */
  datatype Primitive = MeshPrimitive(mesh: EguiMesh) | PaintCallback

  /** The loop draws a mesh only if it has both vertices and indices. */
  predicate Drawable(m: EguiMesh)
  {
    |m.vertices| > 0 && |m.indices| > 0
  }

  /** What the loop demands of its input before it panics: meshes only, drawn ones with a managed texture it knows. */
  ghost predicate Drawing(prims: seq<Primitive>, textures: map<TextureId, EguiTexture>)
  {
    forall k :: 0 <= k < |prims| ==>
      prims[k].MeshPrimitive?
      && (Drawable(prims[k].mesh) ==> prims[k].mesh.textureId.Managed? && prims[k].mesh.textureId in textures)
  }

  /** The vertices each primitive contributes: its own if drawn, none if skipped. */
  function VertexChunks(prims: seq<Primitive>): (r: seq<seq<EguiVertex>>)
    ensures |r| == |prims|
  {
    seq(|prims|, k requires 0 <= k < |prims| =>
      if prims[k].MeshPrimitive? && Drawable(prims[k].mesh) then prims[k].mesh.vertices else [])
  }

  function IndexChunks(prims: seq<Primitive>): (r: seq<seq<nat>>)
    ensures |r| == |prims|
  {
    seq(|prims|, k requires 0 <= k < |prims| =>
      if prims[k].MeshPrimitive? && Drawable(prims[k].mesh) then prims[k].mesh.indices else [])
  }

  /** How many elements the first `k` chunks hold. */
  function Offset<T>(chunks: seq<seq<T>>, k: nat): nat
    requires k <= |chunks|
  {
    if k == 0 then 0 else Offset(chunks, k - 1) + |chunks[k - 1]|
  }

  lemma {:induction false} OffsetMonotone<T>(chunks: seq<seq<T>>, k: nat, n: nat)
    requires k <= n <= |chunks|
    ensures Offset(chunks, k) <= Offset(chunks, n)
  {
    if n > k {
      OffsetMonotone(chunks, k, n - 1);
    }
  }

  /** `vertex_base` when primitive `k` is reached: the vertices of the meshes drawn before it. */
  function VertexBase(prims: seq<Primitive>, k: nat): nat
    requires k <= |prims|
  {
    Offset(VertexChunks(prims), k)
  }

  function IndexBase(prims: seq<Primitive>, k: nat): nat
    requires k <= |prims|
  {
    Offset(IndexChunks(prims), k)
  }

  /** A skipped mesh leaves both bases where they were; a drawn one advances them by its counts. */
  lemma BasesAdvance(prims: seq<Primitive>, k: nat)
    requires k < |prims| && prims[k].MeshPrimitive?
    ensures Drawable(prims[k].mesh) ==>
              VertexBase(prims, k + 1) == VertexBase(prims, k) + |prims[k].mesh.vertices|
              && IndexBase(prims, k + 1) == IndexBase(prims, k) + |prims[k].mesh.indices|
    ensures !Drawable(prims[k].mesh) ==>
              VertexBase(prims, k + 1) == VertexBase(prims, k) && IndexBase(prims, k + 1) == IndexBase(prims, k)
  {
  }

  /**
   * `AllocatedBuffer::write` of `data` starting at element `at`: nothing is
   * written if it does not fit. The source's `start_offset` is a byte
   * offset, so element `at` is byte `at * size_of::<T>()`; the two agree at
   * 0, where the source writes.
   */
  function WriteAt<T>(buf: seq<T>, data: seq<T>, at: nat): (r: seq<T>)
    ensures |r| == |buf|
  {
    if at + |data| <= |buf| then buf[..at] + data + buf[at + |data|..] else buf
  }

  /** A write that fits replaces exactly its range; one that does not changes nothing. */
  lemma WriteAtEffect<T>(buf: seq<T>, data: seq<T>, at: nat)
    ensures at + |data| > |buf| ==> WriteAt(buf, data, at) == buf
    ensures at + |data| <= |buf| ==> forall i :: 0 <= i < |data| ==> WriteAt(buf, data, at)[at + i] == data[i]
    ensures forall i :: 0 <= i < at && i < |buf| ==> WriteAt(buf, data, at)[i] == buf[i]
    ensures forall i :: at + |data| <= i < |buf| ==> WriteAt(buf, data, at)[i] == buf[i]
  {
  }

  /** The loop's writes as written: every chunk at offset 0. */
  function PlaceAtZero<T>(buf: seq<T>, chunks: seq<seq<T>>, n: nat): (r: seq<T>)
    requires n <= |chunks|
    ensures |r| == |buf|
  {
    if n == 0 then buf else WriteAt(PlaceAtZero(buf, chunks, n - 1), chunks[n - 1], 0)
  }

  /** The loop's writes with each chunk at the base its draw uses. */
  function PlaceAtBases<T>(buf: seq<T>, chunks: seq<seq<T>>, n: nat): (r: seq<T>)
    requires n <= |chunks|
    ensures |r| == |buf|
  {
    if n == 0 then buf else WriteAt(PlaceAtBases(buf, chunks, n - 1), chunks[n - 1], Offset(chunks, n - 1))
  }

  /** As written, two meshes of three indices: the second draw starts at index 3, where nothing of it was written. */
  lemma WritesAtZeroMissTheDraw()
    ensures var a := EguiMesh([0, 1, 2], [EguiVertex(Vertex.Vec2(0.0, 0.0), Vertex.Vec2(0.0, 0.0), Color32(0, 0, 0, 0))], Managed(0));
            var b := a.(indices := [2, 1, 0]);
            var prims := [MeshPrimitive(a), MeshPrimitive(b)];
            var written := PlaceAtZero([0, 0, 0, 0, 0, 0], IndexChunks(prims), 2);
            IndexBase(prims, 1) == 3
            && written[3..6] != b.indices
            && written[0..3] != a.indices
  {
    var a := EguiMesh([0, 1, 2], [EguiVertex(Vertex.Vec2(0.0, 0.0), Vertex.Vec2(0.0, 0.0), Color32(0, 0, 0, 0))], Managed(0));
    var b := a.(indices := [2, 1, 0]);
    var prims := [MeshPrimitive(a), MeshPrimitive(b)];
    var chunks := IndexChunks(prims);
    var zeros: seq<nat> := [0, 0, 0, 0, 0, 0];
    assert chunks[0] == [0, 1, 2] && chunks[1] == [2, 1, 0];
    assert Offset(chunks, 1) == Offset(chunks, 0) + |chunks[0]| == 3;
    assert PlaceAtZero(zeros, chunks, 0) == zeros;
    var once := PlaceAtZero(zeros, chunks, 1);
    assert once == WriteAt(zeros, chunks[0], 0);
    WriteAtEffect(zeros, chunks[0], 0);
    var written := PlaceAtZero(zeros, chunks, 2);
    assert written == WriteAt(once, chunks[1], 0);
    WriteAtEffect(once, chunks[1], 0);
    assert written[3] == zeros[3] == 0;
    assert written[0] == 2;
  }

  /**
   * With the writes at the bases, and every chunk up to `n` fitting in the
   * buffer, each of those chunks reads back whole from its base.
   */
  lemma {:induction false} ChunkIntactAtBase<T>(buf: seq<T>, chunks: seq<seq<T>>, n: nat, k: nat)
    requires k < n <= |chunks| && Offset(chunks, n) <= |buf|
    ensures Offset(chunks, k) + |chunks[k]| <= |buf|
    ensures PlaceAtBases(buf, chunks, n)[Offset(chunks, k)..Offset(chunks, k) + |chunks[k]|] == chunks[k]
  {
    var before, at, data := PlaceAtBases(buf, chunks, n - 1), Offset(chunks, n - 1), chunks[n - 1];
    assert Offset(chunks, n) == at + |data| <= |before|;
    var written := PlaceAtBases(buf, chunks, n);
    assert written == before[..at] + data + before[at + |data|..];
    if k == n - 1 {
      assert written[at..at + |data|] == data;
    } else {
      OffsetMonotone(chunks, k + 1, n - 1);
      ChunkIntactAtBase(buf, chunks, n - 1, k);
      var lo, hi := Offset(chunks, k), Offset(chunks, k) + |chunks[k]|;
      assert hi <= at;
      forall i | lo <= i < hi
        ensures written[i] == before[i]
      {
        assert written[i] == before[..at][i];
      }
      assert written[lo..hi] == before[lo..hi];
    }
  }

  /**
   * The draw-loop contract the corrected writes meet: each drawn mesh's
   * indices and vertices sit exactly where its `DrawIndexed` reads them.
   */
  lemma EveryDrawReadsItsOwnMesh(prims: seq<Primitive>, vertexBuf: seq<EguiVertex>, indexBuf: seq<nat>, k: nat)
    requires k < |prims| && prims[k].MeshPrimitive? && Drawable(prims[k].mesh)
    requires VertexBase(prims, |prims|) <= |vertexBuf| && IndexBase(prims, |prims|) <= |indexBuf|
    ensures IndexBase(prims, k) + |prims[k].mesh.indices| <= |indexBuf|
    ensures PlaceAtBases(indexBuf, IndexChunks(prims), |prims|)[IndexBase(prims, k)..IndexBase(prims, k) + |prims[k].mesh.indices|]
            == prims[k].mesh.indices
    ensures VertexBase(prims, k) + |prims[k].mesh.vertices| <= |vertexBuf|
    ensures PlaceAtBases(vertexBuf, VertexChunks(prims), |prims|)[VertexBase(prims, k)..VertexBase(prims, k) + |prims[k].mesh.vertices|]
            == prims[k].mesh.vertices
  {
    IndicesAtBase(prims, indexBuf, k);
    VerticesAtBase(prims, vertexBuf, k);
  }

  lemma IndicesAtBase(prims: seq<Primitive>, indexBuf: seq<nat>, k: nat)
    requires k < |prims| && prims[k].MeshPrimitive? && Drawable(prims[k].mesh)
    requires IndexBase(prims, |prims|) <= |indexBuf|
    ensures IndexBase(prims, k) + |prims[k].mesh.indices| <= |indexBuf|
    ensures PlaceAtBases(indexBuf, IndexChunks(prims), |prims|)[IndexBase(prims, k)..IndexBase(prims, k) + |prims[k].mesh.indices|]
            == prims[k].mesh.indices
  {
    var chunks := IndexChunks(prims);
    assert chunks[k] == prims[k].mesh.indices;
    ChunkIntactAtBase(indexBuf, chunks, |prims|, k);
  }

  lemma VerticesAtBase(prims: seq<Primitive>, vertexBuf: seq<EguiVertex>, k: nat)
    requires k < |prims| && prims[k].MeshPrimitive? && Drawable(prims[k].mesh)
    requires VertexBase(prims, |prims|) <= |vertexBuf|
    ensures VertexBase(prims, k) + |prims[k].mesh.vertices| <= |vertexBuf|
    ensures PlaceAtBases(vertexBuf, VertexChunks(prims), |prims|)[VertexBase(prims, k)..VertexBase(prims, k) + |prims[k].mesh.vertices|]
            == prims[k].mesh.vertices
  {
    var chunks := VertexChunks(prims);
    assert chunks[k] == prims[k].mesh.vertices;
    ChunkIntactAtBase(vertexBuf, chunks, |prims|, k);
  }

  /** The commands primitive `k` records: its texture's set, then its draw at the current bases. */
  function MeshCommands(prims: seq<Primitive>, k: nat, textures: map<TextureId, EguiTexture>, material: M.Material): (r: seq<Command>)
    requires k < |prims| && Drawing(prims, textures)
    ensures |r| == (if Drawable(prims[k].mesh) then 2 else 0)
  {
    var mesh := prims[k].mesh;
    if !Drawable(mesh) then []
    else
      [BindDescriptorSets(material.bindPoint, material.pipelineLayout, 0, [textures[mesh.textureId].descSet], []),
       DrawIndexed(|mesh.indices|, 1, IndexBase(prims, k), VertexBase(prims, k), 0)]
  }

  function DrawCommands(prims: seq<Primitive>, n: nat, textures: map<TextureId, EguiTexture>, material: M.Material): seq<Command>
    requires n <= |prims| && Drawing(prims, textures)
  {
    if n == 0 then [] else DrawCommands(prims, n - 1, textures, material) + MeshCommands(prims, n - 1, textures, material)
  }

  /** Every drawn mesh gets its draw with the bases of the meshes before it, and a skipped mesh records nothing. */
  lemma {:induction false} DrawRecorded(prims: seq<Primitive>, n: nat, textures: map<TextureId, EguiTexture>, material: M.Material, k: nat)
    requires k < n <= |prims| && Drawing(prims, textures)
    ensures Drawable(prims[k].mesh) ==>
              DrawIndexed(|prims[k].mesh.indices|, 1, IndexBase(prims, k), VertexBase(prims, k), 0)
                in DrawCommands(prims, n, textures, material)
    ensures !Drawable(prims[k].mesh) ==> MeshCommands(prims, k, textures, material) == []
  {
    if k < n - 1 {
      DrawRecorded(prims, n - 1, textures, material, k);
    } else if Drawable(prims[k].mesh) {
      var cmds := DrawCommands(prims, n, textures, material);
      assert cmds[|cmds| - 1] == DrawIndexed(|prims[k].mesh.indices|, 1, IndexBase(prims, k), VertexBase(prims, k), 0);
    }
  }

  /** The commands `draw_egui` records before its loop. */
  function Prelude(material: M.Material, vertexBuffer: Handle, indexBuffer: Handle, descSet: Handle, screenSize: seq<real>): seq<Command>
  {
    [BindPipeline(material.bindPoint, material.pipeline),
     BindVertexBuffers(0, [vertexBuffer], [0]),
     BindIndexBuffer(indexBuffer, 0),
     BindDescriptorSets(material.bindPoint, material.pipelineLayout, 0, [descSet], []),
     PushConstants(material.pipelineLayout, SHADER_STAGE_VERTEX, 0, screenSize)]
  }

  /**
   * The body of the loop over the paint jobs: each drawable mesh's texture
   * set bound, its data written at the running bases and its draw recorded.
   */
  method RecordDraws(prims: seq<Primitive>, textures: map<TextureId, EguiTexture>, material: M.Material,
                     vertexData: seq<EguiVertex>, indexData: seq<nat>, cmd: CommandBuffer)
    returns (vertices: seq<EguiVertex>, indices: seq<nat>)
    requires Drawing(prims, textures)
    modifies cmd
    ensures cmd.commands == old(cmd.commands) + DrawCommands(prims, |prims|, textures, material)
    ensures vertices == PlaceAtBases(vertexData, VertexChunks(prims), |prims|)
    ensures indices == PlaceAtBases(indexData, IndexChunks(prims), |prims|)
  {
    vertices, indices := vertexData, indexData;
    var vertexBase := 0;
    var indexBase := 0;
    var k := 0;
    while k < |prims|
      invariant 0 <= k <= |prims|
      invariant vertexBase == VertexBase(prims, k) && indexBase == IndexBase(prims, k)
      invariant cmd.commands == old(cmd.commands) + DrawCommands(prims, k, textures, material)
      invariant vertices == PlaceAtBases(vertexData, VertexChunks(prims), k)
      invariant indices == PlaceAtBases(indexData, IndexChunks(prims), k)
    {
      DrawStep(prims, k, textures, material, vertexData, indexData);
      Assoc(old(cmd.commands), DrawCommands(prims, k, textures, material), MeshCommands(prims, k, textures, material));
      vertices, indices, vertexBase, indexBase := DrawPrimitive(prims, k, textures, material, vertices, indices, vertexBase, indexBase, cmd);
      k := k + 1;
    }
  }

  /** The specification of the loop, one primitive further on. */
  lemma DrawStep(prims: seq<Primitive>, k: nat, textures: map<TextureId, EguiTexture>, material: M.Material,
                 vertexData: seq<EguiVertex>, indexData: seq<nat>)
    requires k < |prims| && Drawing(prims, textures)
    ensures DrawCommands(prims, k + 1, textures, material)
            == DrawCommands(prims, k, textures, material) + MeshCommands(prims, k, textures, material)
    ensures PlaceAtBases(vertexData, VertexChunks(prims), k + 1)
            == WriteAt(PlaceAtBases(vertexData, VertexChunks(prims), k), VertexChunks(prims)[k], VertexBase(prims, k))
    ensures PlaceAtBases(indexData, IndexChunks(prims), k + 1)
            == WriteAt(PlaceAtBases(indexData, IndexChunks(prims), k), IndexChunks(prims)[k], IndexBase(prims, k))
  {
  }

  /** One pass of the loop: primitive `k` drawn at the running bases, or skipped. */
  method DrawPrimitive(prims: seq<Primitive>, k: nat, textures: map<TextureId, EguiTexture>, material: M.Material,
                       vertices: seq<EguiVertex>, indices: seq<nat>, vertexBase: nat, indexBase: nat, cmd: CommandBuffer)
    returns (vertices': seq<EguiVertex>, indices': seq<nat>, vertexBase': nat, indexBase': nat)
    requires k < |prims| && Drawing(prims, textures)
    requires vertexBase == VertexBase(prims, k) && indexBase == IndexBase(prims, k)
    modifies cmd
    ensures cmd.commands == old(cmd.commands) + MeshCommands(prims, k, textures, material)
    ensures vertices' == WriteAt(vertices, VertexChunks(prims)[k], vertexBase)
    ensures indices' == WriteAt(indices, IndexChunks(prims)[k], indexBase)
    ensures vertexBase' == VertexBase(prims, k + 1) && indexBase' == IndexBase(prims, k + 1)
  {
    var mesh := prims[k].mesh;
    if !Drawable(mesh) {
      assert VertexChunks(prims)[k] == [] && IndexChunks(prims)[k] == [];
      return vertices, indices, vertexBase, indexBase;
    }
    assert VertexChunks(prims)[k] == mesh.vertices && IndexChunks(prims)[k] == mesh.indices;
    cmd.Record(BindDescriptorSets(material.bindPoint, material.pipelineLayout, 0, [textures[mesh.textureId].descSet], []));
    vertices' := WriteAt(vertices, mesh.vertices, vertexBase);
    indices' := WriteAt(indices, mesh.indices, indexBase);
    cmd.Record(DrawIndexed(|mesh.indices|, 1, indexBase, vertexBase, 0));
    vertexBase' := vertexBase + |mesh.vertices|;
    indexBase' := indexBase + |mesh.indices|;
  }

  /** `EguiRenderer`: its material and buffers, with the mapped contents of the two buffers. */
  class EguiRenderer {
    var material: M.Material
    var descSet: Handle
    var vertexBuffer: Handle
    var indexBuffer: Handle
    var vertexData: seq<EguiVertex>
    var indexData: seq<nat>
    var managed: ManagedTextures

    /**
     * The end of `new`, given what its device calls made: the material,
     * the font descriptor set, the two buffers and their (uninitialised)
     * mapped contents; no managed textures yet.
     */
    constructor (material: M.Material, descSet: Handle, vertexBuffer: Handle, indexBuffer: Handle,
                 vertexData: seq<EguiVertex>, indexData: seq<nat>)
      ensures this.material == material && this.descSet == descSet
      ensures this.vertexBuffer == vertexBuffer && this.indexBuffer == indexBuffer
      ensures this.vertexData == vertexData && this.indexData == indexData
      ensures fresh(managed) && managed.textures == map[]
    {
      this.material := material;
      this.descSet := descSet;
      this.vertexBuffer := vertexBuffer;
      this.indexBuffer := indexBuffer;
      this.vertexData := vertexData;
      this.indexData := indexData;
      managed := new ManagedTextures();
    }

    /**
     * The loop of `draw_egui` over the paint jobs, with each mesh written
     * at its bases.
     */
    method DrawPrimitives(prims: seq<Primitive>, cmd: CommandBuffer)
      requires Drawing(prims, managed.textures)
      modifies this, cmd
      ensures material == old(material) && descSet == old(descSet) && managed == old(managed)
      ensures vertexBuffer == old(vertexBuffer) && indexBuffer == old(indexBuffer)
      ensures cmd.commands == old(cmd.commands) + DrawCommands(prims, |prims|, managed.textures, material)
      ensures vertexData == PlaceAtBases(old(vertexData), VertexChunks(prims), |prims|)
      ensures indexData == PlaceAtBases(old(indexData), IndexChunks(prims), |prims|)
    {
      vertexData, indexData := RecordDraws(prims, managed.textures, material, vertexData, indexData, cmd);
    }

    /**
     * `draw_egui`: the texture updates (whose result is dropped), the
     * pipeline, buffer, set and push-constant binds, then the loop.
     */
    method DrawEgui(prims: seq<Primitive>, delta: TexturesDelta, creations: seq<TextureMaking>,
                    screenSize: seq<real>, cmd: CommandBuffer, device: Device)
      requires |delta.sets| == |creations|
      requires forall j :: 0 <= j < |delta.sets| ==> WellSized(delta.sets[j].1.image)
      requires Drawing(prims, UpdateTexturesSpec(managed.textures, delta, creations).textures)
      modifies this, managed, cmd, device
      ensures managed == old(managed)
      ensures var s := UpdateTexturesSpec(old(managed.textures), delta, creations);
              && managed.textures == s.textures
              && device.trace == old(device.trace) + s.events
              && cmd.commands == old(cmd.commands) + s.commands
                   + Prelude(material, vertexBuffer, indexBuffer, descSet, screenSize)
                   + DrawCommands(prims, |prims|, s.textures, material)
      ensures vertexData == PlaceAtBases(old(vertexData), VertexChunks(prims), |prims|)
      ensures indexData == PlaceAtBases(old(indexData), IndexChunks(prims), |prims|)
    {
      var _ := managed.UpdateTextures(cmd, delta, creations, device);
      cmd.Record(BindPipeline(material.bindPoint, material.pipeline));
      cmd.Record(BindVertexBuffers(0, [vertexBuffer], [0]));
      cmd.Record(BindIndexBuffer(indexBuffer, 0));
      cmd.Record(BindDescriptorSets(material.bindPoint, material.pipelineLayout, 0, [descSet], []));
      cmd.Record(PushConstants(material.pipelineLayout, SHADER_STAGE_VERTEX, 0, screenSize));
      ghost var s := UpdateTexturesSpec(old(managed.textures), delta, creations);
      assert cmd.commands == old(cmd.commands) + s.commands + Prelude(material, vertexBuffer, indexBuffer, descSet, screenSize);
      DrawPrimitives(prims, cmd);
    }
  }
}
