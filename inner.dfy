// src/renderer/inner.rs: `RendererInner`'s ring of frames in flight and the
// start-up code that fills the shared registry: descriptor set layouts,
// models, textures and materials.
//
// Calls whose result this model does not compute (creating a frame,
// uploading a model, creating a texture, a shader module or a pipeline
// layout, creating a pipeline) are parameters: the outcome the device or
// the loader returns.

module Inner {
  import opened Vk
  import opened Gpu
  import VkInit
  import Descriptors
  import RR = RenderResources
  import M = Material

  const FRAME_OVERLAP: nat := 2

  /** The slot of `frames` that frame number `n` draws with: `n % FRAME_OVERLAP`. */
  function FrameSlot(n: nat): (r: nat)
    ensures r < FRAME_OVERLAP
  {
    n % FRAME_OVERLAP
  }

  /** `frame_number += 1` on a u32, wrapping as a release build does. */
  function NextFrameNumber(n: nat): (r: nat)
    requires IsU32(n)
    ensures IsU32(r)
    ensures n < U32_MAX ==> r == n + 1
    ensures n == U32_MAX ==> r == 0
  {
    (n + 1) % U32_LIMIT
  }

  /**
   * Consecutive frames use the two slots in turn, so a frame is never
   * reused by the very next draw; this holds across the wrap at 2^32 too,
   * because 2^32 is even.
   */
  lemma ConsecutiveFramesAlternate(n: nat)
    requires IsU32(n)
    ensures FrameSlot(NextFrameNumber(n)) != FrameSlot(n)
    ensures FrameSlot(NextFrameNumber(NextFrameNumber(n))) == FrameSlot(n)
  {
    if n == U32_MAX {
      assert FrameSlot(n) == 1;
    } else if n + 1 == U32_MAX {
      assert FrameSlot(n) == 0;
    }
  }

  /**
   * The frame loop of `new`: `FRAME_OVERLAP` calls to `Frame::new`, whose
   * outcomes are `made`, stopping at the first failure.
   */
  method CreateFrames(made: seq<Result<Handle>>) returns (r: Result<seq<Handle>>)
    requires |made| == FRAME_OVERLAP
    ensures r.Ok? <==> forall i :: 0 <= i < FRAME_OVERLAP ==> made[i].Ok?
    ensures r.Ok? ==> |r.value| == FRAME_OVERLAP && forall i :: 0 <= i < FRAME_OVERLAP ==> made[i] == Ok(r.value[i])
    ensures r.Err? ==> exists i :: 0 <= i < FRAME_OVERLAP && made[i] == Err(r.msg) && forall j :: 0 <= j < i ==> made[j].Ok?
  {
    var frames: seq<Handle> := [];
    var i := 0;
    while i < FRAME_OVERLAP
      invariant i <= FRAME_OVERLAP && |frames| == i
      invariant forall j :: 0 <= j < i ==> made[j] == Ok(frames[j])
    {
      if made[i].Err? {
        return Err(made[i].msg);
      }
      frames := frames + [made[i].value];
      i := i + 1;
    }
    r := Ok(frames);
  }

  // ---------------------------------------------------------------------
  // Descriptor set layouts

  /** One layout `init_desc_set_layouts` creates: its registry key and its single binding 0. */
  datatype LayoutRecipe = LayoutRecipe(name: string, descType: VkInit.DescriptorType, stages: bv32)

  const COMPUTE_TEXTURE: string := "compute texture"
  const GRAPHICS_TEXTURE: string := "graphics texture"
  const SCENE_BUFFER: string := "scene buffer"

  const LAYOUT_RECIPES: seq<LayoutRecipe> := [
    LayoutRecipe(COMPUTE_TEXTURE, VkInit.StorageImage, SHADER_STAGE_COMPUTE),
    LayoutRecipe(GRAPHICS_TEXTURE, VkInit.CombinedImageSampler, SHADER_STAGE_FRAGMENT),
    LayoutRecipe(SCENE_BUFFER, VkInit.UniformBuffer, SHADER_STAGE_VERTEX | SHADER_STAGE_FRAGMENT)
  ]

  /**
   * One layout: a builder with binding 0 of the recipe's type, built for
   * the recipe's stages, stored under the recipe's name. `made` is the
   * device's answer to the creation.
   */
  method AddLayout(res: RR.RenderResources, recipe: LayoutRecipe, made: Result<Handle>, device: Device)
    returns (r: Result<()>, ghost info: Descriptors.LayoutInfo)
    modifies res, device
    ensures r.Ok? <==> made.Ok?
    ensures r.Err? ==> r.msg == made.msg && res.descSetLayouts == old(res.descSetLayouts) && device.trace == old(device.trace)
    ensures r.Ok? ==> res.descSetLayouts == old(res.descSetLayouts)[recipe.name := made.value]
    ensures r.Ok? ==> device.trace == old(device.trace) + [Created(DescriptorSetLayout, made.value)]
    ensures r.Ok? ==> info == Descriptors.LayoutInfo([VkInit.LayoutBinding(0, 1, recipe.descType, recipe.stages)], 1)
    ensures res.models == old(res.models) && res.textures == old(res.textures) && res.materials == old(res.materials)
    ensures res.samplers == old(res.samplers)
  {
    if made.Err? {
      return Err(made.msg), Descriptors.LayoutInfo([], 0);
    }
    var builder := new Descriptors.DescriptorLayoutBuilder();
    builder.AddBinding(0, recipe.descType);
    var layout;
    layout, info := builder.Build(device, recipe.stages, made.value);
    assert builder.bindings[0] == Descriptors.AddStages(VkInit.LayoutBinding(0, 1, recipe.descType, 0), recipe.stages);
    res.descSetLayouts := res.descSetLayouts[recipe.name := layout];
    r := Ok(());
  }

  /** The registry after the first `n` layouts of `LAYOUT_RECIPES` were added. */
  function WithLayouts(layouts: map<string, Handle>, made: seq<Result<Handle>>, n: nat): (r: map<string, Handle>)
    requires n <= |LAYOUT_RECIPES| == |made| && forall i :: 0 <= i < n ==> made[i].Ok?
  {
    if n == 0 then layouts else WithLayouts(layouts, made, n - 1)[LAYOUT_RECIPES[n - 1].name := made[n - 1].value]
  }

  /** After all three layouts are in, the keys `init_materials` indexes are present. */
  lemma {:induction false} LayoutsReadyForMaterials(layouts: map<string, Handle>, made: seq<Result<Handle>>)
    requires |made| == |LAYOUT_RECIPES| && forall i :: 0 <= i < |made| ==> made[i].Ok?
    ensures var r := WithLayouts(layouts, made, 3);
            COMPUTE_TEXTURE in r && GRAPHICS_TEXTURE in r && SCENE_BUFFER in r
    ensures var r := WithLayouts(layouts, made, 3);
            r[COMPUTE_TEXTURE] == made[0].value && r[GRAPHICS_TEXTURE] == made[1].value && r[SCENE_BUFFER] == made[2].value
    ensures WithLayouts(layouts, made, 3).Keys == layouts.Keys + {COMPUTE_TEXTURE, GRAPHICS_TEXTURE, SCENE_BUFFER}
  {
    assert COMPUTE_TEXTURE != GRAPHICS_TEXTURE && COMPUTE_TEXTURE != SCENE_BUFFER && GRAPHICS_TEXTURE != SCENE_BUFFER;
    assert LAYOUT_RECIPES[0].name == COMPUTE_TEXTURE && LAYOUT_RECIPES[1].name == GRAPHICS_TEXTURE;
    assert LAYOUT_RECIPES[2].name == SCENE_BUFFER;
    assert WithLayouts(layouts, made, 0) == layouts;
    var r1 := WithLayouts(layouts, made, 1);
    var r2 := WithLayouts(layouts, made, 2);
    assert r1 == layouts[COMPUTE_TEXTURE := made[0].value];
    assert r2 == r1[GRAPHICS_TEXTURE := made[1].value];
    assert WithLayouts(layouts, made, 3) == r2[SCENE_BUFFER := made[2].value];
  }

  /**
   * `init_desc_set_layouts`: "compute texture" (a storage image for the
   * compute stage), "graphics texture" (a combined image sampler for the
   * fragment stage) and "scene buffer" (a uniform buffer for the vertex and
   * fragment stages), in that order, stopping at the first failure.
   */
  method InitDescSetLayouts(res: RR.RenderResources, made: seq<Result<Handle>>, device: Device) returns (r: Result<()>)
    requires |made| == |LAYOUT_RECIPES|
    modifies res, device
    ensures r.Ok? <==> forall i :: 0 <= i < |made| ==> made[i].Ok?
    ensures r.Ok? ==> res.descSetLayouts == WithLayouts(old(res.descSetLayouts), made, 3)
    ensures r.Ok? ==> device.trace == old(device.trace) + [Created(DescriptorSetLayout, made[0].value),
                                                            Created(DescriptorSetLayout, made[1].value),
                                                            Created(DescriptorSetLayout, made[2].value)]
    ensures r.Err? ==> exists i :: 0 <= i < |made| && made[i] == Err(r.msg) && forall j :: 0 <= j < i ==> made[j].Ok?
    ensures res.models == old(res.models) && res.textures == old(res.textures) && res.materials == old(res.materials)
    ensures res.samplers == old(res.samplers)
  {
    ghost var info;
    r, info := AddLayout(res, LAYOUT_RECIPES[0], made[0], device);
    if r.Err? {
      return;
    }
    assert res.descSetLayouts == WithLayouts(old(res.descSetLayouts), made, 1);
    r, info := AddLayout(res, LAYOUT_RECIPES[1], made[1], device);
    if r.Err? {
      return;
    }
    assert res.descSetLayouts == WithLayouts(old(res.descSetLayouts), made, 2);
    r, info := AddLayout(res, LAYOUT_RECIPES[2], made[2], device);
    if r.Err? {
      return;
    }
  }

  // ---------------------------------------------------------------------
  // Models and textures

  /** A texture as the loader hands it over: its sampler filter and its pixels (opaque here). */
  datatype TextureAssetData = TextureAssetData(filter: Filter, pixels: Handle)

  /** `AssetData`: the loaded models and textures waiting to be moved into the registry. */
  class AssetData {
    var models: map<string, Handle>
    var textures: map<string, TextureAssetData>

    constructor (models: map<string, Handle>, textures: map<string, TextureAssetData>)
      ensures this.models == models && this.textures == textures
    {
      this.models := models;
      this.textures := textures;
    }
  }

  const QUAD: string := "quad"

  /** The entries of `m` whose keys are in `keys`. */
  function Restrict<K, V>(m: map<K, V>, keys: set<K>): (r: map<K, V>)
    ensures r.Keys == m.Keys * keys
    ensures forall k :: k in r ==> r[k] == m[k]
  {
    map k | k in m.Keys && k in keys :: m[k]
  }

  lemma RestrictMore<K, V>(before: map<K, V>, m: map<K, V>, keys: set<K>, k: K)
    requires k in m
    ensures before + Restrict(m, keys + {k}) == (before + Restrict(m, keys))[k := m[k]]
  {
  }

  lemma RestrictAll<K, V>(m: map<K, V>, keys: set<K>)
    requires m.Keys <= keys
    ensures Restrict(m, keys) == m
  {
  }

  /** The handles the device returns when asked for a sampler with each filter. */
  datatype SamplerHandles = SamplerHandles(nearest: Handle, linear: Handle)

  function NewSampler(h: SamplerHandles, f: Filter): Handle
  {
    if f == Nearest then h.nearest else h.linear
  }

  /** The sampler a texture with filter `f` gets: the existing one, or the one created for it. */
  function SamplerFor(samplers: map<Filter, Handle>, newSampler: SamplerHandles, f: Filter): Handle
  {
    if f in samplers then samplers[f] else NewSampler(newSampler, f)
  }

  /** The trace of creating a REPEAT sampler for each filter of `fs`, in order. */
  function SamplerEvents(fs: seq<Filter>, newSampler: SamplerHandles): (r: seq<Event>)
    ensures |r| == |fs|
    ensures forall i :: 0 <= i < |fs| ==> r[i] == SamplerCreated(NewSampler(newSampler, fs[i]), VkInit.SamplerCreate(fs[i], Repeat))
  {
    if fs == [] then []
    else SamplerEvents(fs[..|fs| - 1], newSampler) + [SamplerCreated(NewSampler(newSampler, fs[|fs| - 1]), VkInit.SamplerCreate(fs[|fs| - 1], Repeat))]
  }

  lemma SamplerEventsAppend(fs: seq<Filter>, newSampler: SamplerHandles, f: Filter)
    ensures SamplerEvents(fs + [f], newSampler) == SamplerEvents(fs, newSampler) + [SamplerCreated(NewSampler(newSampler, f), VkInit.SamplerCreate(f, Repeat))]
  {
    assert (fs + [f])[..|fs|] == fs;
  }

  /**
   * The samplers grew from `s0` by exactly the filters in `created`, each
   * created once and only if it had no sampler; every existing sampler is
   * kept as it was.
   */
  ghost predicate SamplersGrown(s: map<Filter, Handle>, s0: map<Filter, Handle>, created: seq<Filter>, newSampler: SamplerHandles)
  {
    && (forall f :: f in s <==> f in s0 || f in created)
    && (forall f :: f in s ==> s[f] == SamplerFor(s0, newSampler, f))
    && (forall i :: 0 <= i < |created| ==> created[i] !in s0)
    && (forall i, j :: 0 <= i < j < |created| ==> created[i] != created[j])
  }

  /** Creating the sampler for a filter without one keeps the samplers grown by exactly `created` and that filter. */
  lemma SamplersGrowBy(s: map<Filter, Handle>, s0: map<Filter, Handle>, created: seq<Filter>, newSampler: SamplerHandles,
                       f: Filter)
    requires SamplersGrown(s, s0, created, newSampler) && f !in s
    ensures SamplersGrown(s[f := NewSampler(newSampler, f)], s0, created + [f], newSampler)
  {
    var c := created + [f];
    forall i | 0 <= i < |c|
      ensures c[i] !in s0
    {
      if i == |created| { assert c[i] == f; } else { assert c[i] == created[i]; }
    }
    forall i, j | 0 <= i < j < |c|
      ensures c[i] != c[j]
    {
      assert c[i] == created[i];
      if j == |created| { assert created[i] in s; } else { assert c[j] == created[j]; }
    }
  }

  /** Every loaded model uploads and so does the quad: `init_models` succeeds. */
  predicate ModelsLoad(models: map<string, Handle>, uploadFailures: map<string, string>, quadUpload: Result<()>)
  {
    (forall k :: k in models ==> k !in uploadFailures) && quadUpload.Ok?
  }

  /** Every loaded texture is made: `init_textures` succeeds. */
  predicate TexturesLoad(textures: map<string, TextureAssetData>, samplers: map<Filter, Handle>, newSampler: SamplerHandles,
                         makeTexture: (TextureAssetData, Handle) -> Result<Handle>)
  {
    forall k :: k in textures ==> TextureOutcome(textures[k], samplers, newSampler, makeTexture).Ok?
  }

  /** The filters the textures of `m` ask for. */
  function Filters(m: map<string, TextureAssetData>): set<Filter>
  {
    set k | k in m :: m[k].filter
  }

  /** What creating the texture for `data` returns, given the sampler its filter gets. */
  function TextureOutcome(data: TextureAssetData, samplers: map<Filter, Handle>, newSampler: SamplerHandles,
                          makeTexture: (TextureAssetData, Handle) -> Result<Handle>): Result<Handle>
  {
    makeTexture(data, SamplerFor(samplers, newSampler, data.filter))
  }

  /** The textures made for the entries of `inputs` whose keys are in `keys` (and whose creation succeeded). */
  function MadeTextures(inputs: map<string, TextureAssetData>, keys: set<string>, samplers: map<Filter, Handle>,
                        newSampler: SamplerHandles, makeTexture: (TextureAssetData, Handle) -> Result<Handle>)
    : (r: map<string, Handle>)
    ensures forall k :: k in r <==> k in inputs && k in keys && TextureOutcome(inputs[k], samplers, newSampler, makeTexture).Ok?
  {
    map k | k in inputs.Keys && k in keys && TextureOutcome(inputs[k], samplers, newSampler, makeTexture).Ok?
          :: TextureOutcome(inputs[k], samplers, newSampler, makeTexture).value
  }

  lemma MadeMore(before: map<string, Handle>, inputs: map<string, TextureAssetData>, keys: set<string>, k: string,
                 samplers: map<Filter, Handle>, newSampler: SamplerHandles,
                 makeTexture: (TextureAssetData, Handle) -> Result<Handle>)
    requires k in inputs && TextureOutcome(inputs[k], samplers, newSampler, makeTexture).Ok?
    ensures before + MadeTextures(inputs, keys + {k}, samplers, newSampler, makeTexture)
            == (before + MadeTextures(inputs, keys, samplers, newSampler, makeTexture))
               [k := TextureOutcome(inputs[k], samplers, newSampler, makeTexture).value]
  {
  }

  lemma MadeAll(inputs: map<string, TextureAssetData>, keys: set<string>, samplers: map<Filter, Handle>,
                newSampler: SamplerHandles, makeTexture: (TextureAssetData, Handle) -> Result<Handle>)
    requires inputs.Keys <= keys
    ensures MadeTextures(inputs, keys, samplers, newSampler, makeTexture)
            == MadeTextures(inputs, inputs.Keys, samplers, newSampler, makeTexture)
  {
  }

  // ---------------------------------------------------------------------
  // Materials

  /** One material `init_materials` makes: its registry key (also its shader's name) and the set layouts of its pipeline layout. */
  datatype MaterialRecipe = MaterialRecipe(name: string, setLayouts: seq<Handle>)

  /** "default" and "grid" use the scene buffer layout; "textured" adds the graphics texture layout. */
  function MaterialRecipes(layouts: map<string, Handle>): (r: seq<MaterialRecipe>)
    requires SCENE_BUFFER in layouts && GRAPHICS_TEXTURE in layouts
  {
    [MaterialRecipe("default", [layouts[SCENE_BUFFER]]),
     MaterialRecipe("grid", [layouts[SCENE_BUFFER]]),
     MaterialRecipe("textured", [layouts[SCENE_BUFFER], layouts[GRAPHICS_TEXTURE]])]
  }

  /**
   * What the device and the loader answer while one material is made: the
   * pipeline layout, the shader (`GraphicsShader::new`), and the pipeline
   * (None when its creation fails).
   */
  datatype MaterialCalls = MaterialCalls(layout: Result<Handle>, shader: Result<M.Shader>, pipeline: Option<Handle>)

  /**
   * One material: the pipeline layout is created first; the builder takes
   * it, and if the shader then fails to load, the dropped builder destroys
   * the layout; otherwise the builder builds as `Material.Build` says.
   */
  function MakeOutcome(recipe: MaterialRecipe, calls: MaterialCalls): M.BuildOutcome
  {
    if calls.layout.Err? then M.BuildOutcome(Err(calls.layout.msg), [])
    else
      var l := calls.layout.value;
      var created := [PipelineLayoutCreated(l, recipe.setLayouts)];
      if calls.shader.Err? then
        M.BuildOutcome(Err(calls.shader.msg), created + [Destroyed(PipelineLayout, l)])
      else
        var o := M.Build(M.GraphicsBuilder, Some(calls.shader.value), Some(l), calls.pipeline);
        M.BuildOutcome(o.result, created + o.events)
  }

  /** Making a material creates at most the one pipeline layout its calls return, and never leaks it. */
  lemma MakeReleasesLayout(recipe: MaterialRecipe, calls: MaterialCalls)
    ensures calls.layout.Err? ==> MakeOutcome(recipe, calls) == M.BuildOutcome(Err(calls.layout.msg), [])
    ensures calls.layout.Ok? ==> M.LayoutReleased(MakeOutcome(recipe, calls), Some(calls.layout.value))
    ensures forall l: Handle, s: seq<Handle> :: PipelineLayoutCreated(l, s) in MakeOutcome(recipe, calls).events ==> calls.layout == Ok(l)
    ensures MakeOutcome(recipe, calls).result.Ok? ==> MakeOutcome(recipe, calls).result.value.bindPoint == Graphics
  {
    if calls.layout.Ok? && calls.shader.Ok? {
      var l := calls.layout.value;
      var o := M.Build(M.GraphicsBuilder, Some(calls.shader.value), Some(l), calls.pipeline);
      M.BuildReleasesLayout(M.GraphicsBuilder, Some(calls.shader.value), Some(l), calls.pipeline);
      assert forall e :: e in o.events ==> !e.PipelineLayoutCreated?;
      assert MakeOutcome(recipe, calls).events == [PipelineLayoutCreated(l, recipe.setLayouts)] + o.events;
    }
  }

  /**
   * One material, as `MakeOutcome` says: create the layout, hand it to a
   * fresh graphics builder, load the shader, set the colour and depth
   * formats, build.
   */
  method MakeGraphicsMaterial(recipe: MaterialRecipe, calls: MaterialCalls, colorFormat: Format, depthFormat: Format,
                              device: Device) returns (r: Result<M.Material>)
    modifies device
    ensures var o := MakeOutcome(recipe, calls);
            r == o.result && device.trace == old(device.trace) + o.events
  {
    if calls.layout.Err? {
      return Err(calls.layout.msg);
    }
    var l := calls.layout.value;
    ghost var created := [PipelineLayoutCreated(l, recipe.setLayouts)];
    device.CreatePipelineLayout(l, recipe.setLayouts);
    var builder := new M.GraphicsMaterialBuilder();
    builder.SetPipelineLayout(l, device);
    ghost var before := device.trace;
    assert before == old(device.trace) + created;
    if calls.shader.Err? {
      builder.Drop(device);
      assert device.trace == before + [Destroyed(PipelineLayout, l)];
      return Err(calls.shader.msg);
    }
    builder.SetShader(calls.shader.value, device);
    builder.ColorAttachmentFormat(colorFormat);
    builder.DepthAttachmentFormat(depthFormat);
    assert builder.shader == Some(calls.shader.value) && builder.pipelineLayout == Some(l) && device.trace == before;
    r := builder.BuildMaterial(device, calls.pipeline);
    Assoc(old(device.trace), created, M.Build(M.GraphicsBuilder, Some(calls.shader.value), Some(l), calls.pipeline).events);
  }

  lemma Assoc<T>(a: seq<T>, b: seq<T>, c: seq<T>)
    ensures a + b + c == a + (b + c)
  {
  }

  /** The effect of making the materials `recipes[i..]` in order, stopping at the first failure. */
  datatype InitOutcome = InitOutcome(result: Result<()>, events: seq<Event>, materials: map<string, M.Material>)

  function ChainBuilds(recipes: seq<MaterialRecipe>, calls: seq<MaterialCalls>, materials: map<string, M.Material>, i: nat)
    : (c: InitOutcome)
    requires i <= |recipes| == |calls|
    decreases |recipes| - i
  {
    if i == |recipes| then InitOutcome(Ok(()), [], materials)
    else
      var o := MakeOutcome(recipes[i], calls[i]);
      if o.result.Err? then InitOutcome(Err(o.result.msg), o.events, materials)
      else
        var rest := ChainBuilds(recipes, calls, materials[recipes[i].name := o.result.value], i + 1);
        InitOutcome(rest.result, o.events + rest.events, rest.materials)
  }

  /** Keys no later recipe uses keep their material. */
  lemma {:induction false} ChainKeeps(recipes: seq<MaterialRecipe>, calls: seq<MaterialCalls>,
                                      materials: map<string, M.Material>, i: nat, k: string)
    requires i <= |recipes| == |calls|
    requires k in materials && forall j :: i <= j < |recipes| ==> recipes[j].name != k
    ensures var c := ChainBuilds(recipes, calls, materials, i);
            k in c.materials && c.materials[k] == materials[k]
    decreases |recipes| - i
  {
    if i < |recipes| {
      var o := MakeOutcome(recipes[i], calls[i]);
      if o.result.Ok? {
        ChainKeeps(recipes, calls, materials[recipes[i].name := o.result.value], i + 1, k);
      }
    }
  }

  /**
   * No pipeline layout created while making the materials is leaked: each
   * one is the layout of a material left in the registry, or is destroyed.
   */
  lemma {:induction false} ChainReleasesLayouts(recipes: seq<MaterialRecipe>, calls: seq<MaterialCalls>,
                                                materials: map<string, M.Material>, i: nat)
    requires i <= |recipes| == |calls|
    requires forall j, j' :: i <= j < j' < |recipes| ==> recipes[j].name != recipes[j'].name
    ensures var c := ChainBuilds(recipes, calls, materials, i);
            forall l: Handle, s: seq<Handle> :: PipelineLayoutCreated(l, s) in c.events ==>
              (exists k :: k in c.materials && c.materials[k].pipelineLayout == l) || Destroyed(PipelineLayout, l) in c.events
    decreases |recipes| - i
  {
    if i < |recipes| {
      var o := MakeOutcome(recipes[i], calls[i]);
      var c := ChainBuilds(recipes, calls, materials, i);
      MakeReleasesLayout(recipes[i], calls[i]);
      if o.result.Ok? {
        var name := recipes[i].name;
        var next := materials[name := o.result.value];
        ChainReleasesLayouts(recipes, calls, next, i + 1);
        ChainKeeps(recipes, calls, next, i + 1, name);
        forall l: Handle, s: seq<Handle> | PipelineLayoutCreated(l, s) in c.events
          ensures (exists k :: k in c.materials && c.materials[k].pipelineLayout == l) || Destroyed(PipelineLayout, l) in c.events
        {
          if PipelineLayoutCreated(l, s) in o.events {
            assert calls[i].layout == Ok(l);
            if Destroyed(PipelineLayout, l) !in o.events {
              assert o.result.value.pipelineLayout == l;
              assert c.materials[name].pipelineLayout == l;
            }
          }
        }
      }
    }
  }

  /** The registry's materials end up with all three recipes exactly when all three makes succeed. */
  lemma InitMaterialsSucceedsIffAll(layouts: map<string, Handle>, calls: seq<MaterialCalls>, materials: map<string, M.Material>)
    requires SCENE_BUFFER in layouts && GRAPHICS_TEXTURE in layouts && |calls| == 3
    ensures var rs := MaterialRecipes(layouts);
            var c := ChainBuilds(rs, calls, materials, 0);
            c.result.Ok? <==> forall i :: 0 <= i < 3 ==> MakeOutcome(rs[i], calls[i]).result.Ok?
    ensures var rs := MaterialRecipes(layouts);
            var c := ChainBuilds(rs, calls, materials, 0);
            c.result.Ok? ==> c.materials.Keys == materials.Keys + {"default", "grid", "textured"}
                             && c.materials["textured"].bindPoint == Graphics
                             && c.materials["textured"] == MakeOutcome(rs[2], calls[2]).result.value
  {
    var rs := MaterialRecipes(layouts);
    var o0, o1, o2 := MakeOutcome(rs[0], calls[0]), MakeOutcome(rs[1], calls[1]), MakeOutcome(rs[2], calls[2]);
    MakeReleasesLayout(rs[2], calls[2]);
    var c0 := ChainBuilds(rs, calls, materials, 0);
    if o0.result.Ok? {
      var m1 := materials["default" := o0.result.value];
      var c1 := ChainBuilds(rs, calls, m1, 1);
      assert c0.result == c1.result && c0.materials == c1.materials;
      if o1.result.Ok? {
        var m2 := m1["grid" := o1.result.value];
        var c2 := ChainBuilds(rs, calls, m2, 2);
        assert c1.result == c2.result && c1.materials == c2.materials;
        if o2.result.Ok? {
          var m3 := m2["textured" := o2.result.value];
          assert ChainBuilds(rs, calls, m3, 3) == InitOutcome(Ok(()), [], m3);
          assert c2.materials == m3;
        }
      }
    }
  }

  /** The sampler part of one pass of the `init_textures` loop: a sampler for `filter` unless the registry has one. */
  method EnsureSampler(res: RR.RenderResources, filter: Filter, newSampler: SamplerHandles, device: Device,
                       ghost base: seq<Event>, ghost created: seq<Filter>, ghost s0: map<Filter, Handle>)
    returns (ghost created': seq<Filter>)
    requires SamplersGrown(res.samplers, s0, created, newSampler)
    requires device.trace == base + SamplerEvents(created, newSampler)
    modifies res, device
    ensures SamplersGrown(res.samplers, s0, created', newSampler) && filter in res.samplers
    ensures device.trace == base + SamplerEvents(created', newSampler)
    ensures created' == if filter in old(res.samplers) then created else created + [filter]
    ensures res.textures == old(res.textures)
    ensures res.models == old(res.models) && res.materials == old(res.materials)
    ensures res.descSetLayouts == old(res.descSetLayouts)
  {
    created' := created;
    if filter !in res.samplers {
      SamplersGrowBy(res.samplers, s0, created, newSampler, filter);
      var _ := res.CreateSampler(filter, device, NewSampler(newSampler, filter));
      SamplerEventsAppend(created, newSampler, filter);
      Assoc(base, SamplerEvents(created, newSampler), [SamplerCreated(NewSampler(newSampler, filter), VkInit.SamplerCreate(filter, Repeat))]);
      created' := created + [filter];
    }
  }

  /**
   * Where the `init_textures` loop stands: the textures under the names in
   * `taken` are made and stored, a sampler exists for each of their
   * filters, the samplers grew only by `created`, each for a filter some
   * input asks for, and the device saw exactly those creations.
   */
  ghost predicate TextureProgress(textures: map<string, Handle>, samplers: map<Filter, Handle>, trace: seq<Event>,
                                  textures0: map<string, Handle>, s0: map<Filter, Handle>, trace0: seq<Event>,
                                  inputs: map<string, TextureAssetData>, taken: set<string>, created: seq<Filter>,
                                  newSampler: SamplerHandles, makeTexture: (TextureAssetData, Handle) -> Result<Handle>)
  {
    && taken <= inputs.Keys
    && (forall k :: k in taken ==> TextureOutcome(inputs[k], s0, newSampler, makeTexture).Ok? && inputs[k].filter in samplers)
    && textures == textures0 + MadeTextures(inputs, taken, s0, newSampler, makeTexture)
    && SamplersGrown(samplers, s0, created, newSampler)
    && (forall f :: f in created ==> f in Filters(inputs))
    && trace == trace0 + SamplerEvents(created, newSampler)
  }

  /** The sampler half of one pass: the input's filter gets the sampler it keeps, and the loop's progress holds. */
  method ProvideSampler(res: RR.RenderResources, inputs: map<string, TextureAssetData>, name: string,
                        newSampler: SamplerHandles, makeTexture: (TextureAssetData, Handle) -> Result<Handle>, device: Device,
                        ghost textures0: map<string, Handle>, ghost s0: map<Filter, Handle>, ghost trace0: seq<Event>,
                        ghost taken: set<string>, ghost created: seq<Filter>)
    returns (ghost created': seq<Filter>)
    requires name in inputs
    requires TextureProgress(res.textures, res.samplers, device.trace, textures0, s0, trace0, inputs, taken, created,
                             newSampler, makeTexture)
    modifies res, device
    ensures TextureProgress(res.textures, res.samplers, device.trace, textures0, s0, trace0, inputs, taken, created',
                            newSampler, makeTexture)
    ensures inputs[name].filter in res.samplers
    ensures res.samplers[inputs[name].filter] == SamplerFor(s0, newSampler, inputs[name].filter)
    ensures res.textures == old(res.textures)
    ensures res.models == old(res.models) && res.materials == old(res.materials)
    ensures res.descSetLayouts == old(res.descSetLayouts)
  {
    ghost var samplers := res.samplers;
    created' := EnsureSampler(res, inputs[name].filter, newSampler, device, trace0, created, s0);
    ProgressWithSampler(res.textures, samplers, res.samplers, device.trace, textures0, s0, trace0, inputs, taken,
                        created, created', newSampler, makeTexture, name);
  }

  /**
   * One pass of the `init_textures` loop, for the input under `name`: the
   * sampler for its filter if the registry has none, then the texture with
   * the registry's sampler, stored under `name` if it was made.
   */
  method TakeTexture(res: RR.RenderResources, inputs: map<string, TextureAssetData>, name: string,
                     newSampler: SamplerHandles, makeTexture: (TextureAssetData, Handle) -> Result<Handle>, device: Device,
                     ghost textures0: map<string, Handle>, ghost s0: map<Filter, Handle>, ghost trace0: seq<Event>,
                     ghost taken: set<string>, ghost created: seq<Filter>)
    returns (texture: Result<Handle>, ghost created': seq<Filter>)
    requires name in inputs && name !in taken
    requires TextureProgress(res.textures, res.samplers, device.trace, textures0, s0, trace0, inputs, taken, created,
                             newSampler, makeTexture)
    modifies res, device
    ensures texture == TextureOutcome(inputs[name], s0, newSampler, makeTexture)
    ensures TextureProgress(res.textures, res.samplers, device.trace, textures0, s0, trace0, inputs,
                            if texture.Ok? then taken + {name} else taken, created', newSampler, makeTexture)
    ensures res.models == old(res.models) && res.materials == old(res.materials)
    ensures res.descSetLayouts == old(res.descSetLayouts)
  {
    var data := inputs[name];
    created' := ProvideSampler(res, inputs, name, newSampler, makeTexture, device, textures0, s0, trace0, taken, created);
    var sampler := res.samplers[data.filter];
    texture := makeTexture(data, sampler);
    if texture.Ok? {
      ProgressWithTexture(res.textures, res.samplers, device.trace, textures0, s0, trace0, inputs, taken, created',
                          newSampler, makeTexture, name);
      res.textures := res.textures[name := texture.value];
    }
  }

  /** Creating the sampler an input asks for keeps the loop's progress. */
  lemma ProgressWithSampler(textures: map<string, Handle>, samplers: map<Filter, Handle>, samplers': map<Filter, Handle>,
                            trace': seq<Event>, textures0: map<string, Handle>, s0: map<Filter, Handle>, trace0: seq<Event>,
                            inputs: map<string, TextureAssetData>, taken: set<string>, created: seq<Filter>,
                            created': seq<Filter>, newSampler: SamplerHandles,
                            makeTexture: (TextureAssetData, Handle) -> Result<Handle>, name: string)
    requires name in inputs
    requires TextureProgress(textures, samplers, trace0 + SamplerEvents(created, newSampler), textures0, s0, trace0, inputs, taken,
                             created, newSampler, makeTexture)
    requires SamplersGrown(samplers', s0, created', newSampler) && trace' == trace0 + SamplerEvents(created', newSampler)
    requires created' == if inputs[name].filter in samplers then created else created + [inputs[name].filter]
    ensures TextureProgress(textures, samplers', trace', textures0, s0, trace0, inputs, taken, created', newSampler, makeTexture)
    ensures inputs[name].filter in samplers' && samplers'[inputs[name].filter] == SamplerFor(s0, newSampler, inputs[name].filter)
  {
    assert inputs[name].filter in Filters(inputs);
  }

  /** Storing the texture made for a not yet taken input keeps the loop's progress, with that input taken. */
  lemma ProgressWithTexture(textures: map<string, Handle>, samplers: map<Filter, Handle>, trace: seq<Event>,
                            textures0: map<string, Handle>, s0: map<Filter, Handle>, trace0: seq<Event>,
                            inputs: map<string, TextureAssetData>, taken: set<string>, created: seq<Filter>,
                            newSampler: SamplerHandles, makeTexture: (TextureAssetData, Handle) -> Result<Handle>, name: string)
    requires name in inputs && inputs[name].filter in samplers
    requires TextureOutcome(inputs[name], s0, newSampler, makeTexture).Ok?
    requires TextureProgress(textures, samplers, trace, textures0, s0, trace0, inputs, taken, created, newSampler, makeTexture)
    ensures TextureProgress(textures[name := TextureOutcome(inputs[name], s0, newSampler, makeTexture).value], samplers, trace,
                            textures0, s0, trace0, inputs, taken + {name}, created, newSampler, makeTexture)
  {
    MadeMore(textures0, inputs, taken, name, s0, newSampler, makeTexture);
  }

  /** The loop of `init_textures` over the drained `inputs`, as `InitTextures` describes it. */
  method DrainTextures(res: RR.RenderResources, inputs: map<string, TextureAssetData>, newSampler: SamplerHandles,
                       makeTexture: (TextureAssetData, Handle) -> Result<Handle>, device: Device)
    returns (r: Result<()>, ghost taken: set<string>, ghost created: seq<Filter>)
    modifies res, device
    ensures res.models == old(res.models) && res.materials == old(res.materials)
    ensures res.descSetLayouts == old(res.descSetLayouts)
    ensures TextureProgress(res.textures, res.samplers, device.trace, old(res.textures), old(res.samplers), old(device.trace),
                            inputs, taken, created, newSampler, makeTexture)
    ensures r.Ok? <==> taken == inputs.Keys
    ensures r.Err? ==> exists k :: k in inputs && TextureOutcome(inputs[k], old(res.samplers), newSampler, makeTexture) == Err(r.msg)
  {
    var remaining := inputs.Keys;
    taken, created := {}, [];
    while remaining != {}
      invariant remaining == inputs.Keys - taken
      invariant TextureProgress(res.textures, res.samplers, device.trace, old(res.textures), old(res.samplers), old(device.trace),
                                inputs, taken, created, newSampler, makeTexture)
      invariant res.models == old(res.models) && res.materials == old(res.materials)
      invariant res.descSetLayouts == old(res.descSetLayouts)
      decreases remaining
    {
      var k :| k in remaining;
      var texture;
      texture, created := TakeTexture(res, inputs, k, newSampler, makeTexture, device,
                                      old(res.textures), old(res.samplers), old(device.trace), taken, created);
      if texture.Err? {
        return Err(texture.msg), taken, created;
      }
      remaining := remaining - {k};
      taken := taken + {k};
    }
    r := Ok(());
  }

  /** `FRAME_OVERLAP` frames, the frame counter and the shared registry. */
  class RendererInner {
    var frameNumber: nat
    var frames: seq<Handle>
    var resources: RR.RenderResources
    /** Each `Frame::draw` call so far: the frame asked to draw and the frame number it was given. */
    ghost var drawn: seq<(Handle, nat)>

    ghost predicate Valid()
      reads this
    {
      |frames| == FRAME_OVERLAP && IsU32(frameNumber)
    }

    /** The fields `new` sets once its fallible calls have succeeded: frame number 0. */
    constructor (frames: seq<Handle>, resources: RR.RenderResources)
      requires |frames| == FRAME_OVERLAP
      ensures Valid() && frameNumber == 0 && this.frames == frames && this.resources == resources && drawn == []
    {
      frameNumber := 0;
      this.frames := frames;
      this.resources := resources;
      drawn := [];
    }

    /**
     * `draw_frame`: the current frame (`get_current_frame`) draws with the
     * current frame number; `drawOutcome` is what its `draw` returns. Only
     * a successful draw advances the frame number, by one.
     */
    method DrawFrame(drawOutcome: Result<()>) returns (r: Result<()>)
      requires Valid()
      modifies this
      ensures Valid() && frames == old(frames) && resources == old(resources)
      ensures drawn == old(drawn) + [(frames[FrameSlot(old(frameNumber))], old(frameNumber))]
      ensures r == drawOutcome
      ensures frameNumber == if r.Ok? then NextFrameNumber(old(frameNumber)) else old(frameNumber)
    {
      var current := frames[FrameSlot(frameNumber)];
      drawn := drawn + [(current, frameNumber)];
      if drawOutcome.Err? {
        return drawOutcome;
      }
      frameNumber := NextFrameNumber(frameNumber);
      r := drawOutcome;
    }

    /**
     * `init_models`: drains every loaded model into the registry under its
     * name, uploading each first; a model whose upload fails (its name is
     * in `uploadFailures`, with the error) ends the loop with that error.
     * Then the built-in quad is uploaded and stored as "quad", replacing a
     * loaded model of that name. The loaded map is empty afterwards even
     * on failure, as dropping a drain empties it.
     */
    method InitModels(assets: AssetData, uploadFailures: map<string, string>, quad: Handle, quadUpload: Result<()>)
      returns (r: Result<()>, ghost order: seq<string>)
      modifies assets, resources
      ensures assets.models == map[] && assets.textures == old(assets.textures)
      ensures resources.textures == old(resources.textures) && resources.materials == old(resources.materials)
      ensures resources.samplers == old(resources.samplers) && resources.descSetLayouts == old(resources.descSetLayouts)
      ensures forall k :: k in order ==> k in old(assets.models) && k !in uploadFailures
      ensures r.Ok? <==> (forall k :: k in old(assets.models) ==> k !in uploadFailures) && quadUpload.Ok?
      ensures r.Ok? ==> resources.models == (old(resources.models) + old(assets.models))[QUAD := quad]
      ensures r.Err? ==> resources.models == old(resources.models) + Restrict(old(assets.models), set k | k in order)
      ensures r.Err? ==> (exists k :: k in old(assets.models) && k in uploadFailures && r.msg == uploadFailures[k])
                         || (quadUpload.Err? && r.msg == quadUpload.msg)
    {
      var inputs := assets.models;
      assets.models := map[];
      var remaining := inputs.Keys;
      ghost var done: set<string> := {};
      order := [];
      while remaining != {}
        invariant remaining == inputs.Keys - done && done <= inputs.Keys
        invariant forall k :: k in done <==> k in order
        invariant forall k :: k in order ==> k in inputs && k !in uploadFailures
        invariant resources.models == old(resources.models) + Restrict(inputs, done)
        invariant assets.models == map[] && assets.textures == old(assets.textures)
        invariant resources.textures == old(resources.textures) && resources.materials == old(resources.materials)
        invariant resources.samplers == old(resources.samplers) && resources.descSetLayouts == old(resources.descSetLayouts)
        decreases remaining
      {
        var k :| k in remaining;
        if k in uploadFailures {
          assert (set k | k in order) == done;
          return Err(uploadFailures[k]), order;
        }
        RestrictMore(old(resources.models), inputs, done, k);
        resources.models := resources.models[k := inputs[k]];
        remaining := remaining - {k};
        done := done + {k};
        order := order + [k];
      }
      RestrictAll(inputs, done);
      if quadUpload.Err? {
        assert (set k | k in order) == done;
        return Err(quadUpload.msg), order;
      }
      resources.models := resources.models[QUAD := quad];
      r := Ok(());
    }

    /**
     * `init_textures`: drains every loaded texture into the registry under
     * its name. A sampler for the texture's filter is created first if the
     * registry has none (with `newSampler` the device's handle), then the
     * texture is made with the registry's sampler for that filter;
     * `makeTexture` is what that creation returns. The first failure ends
     * the loop; the loaded map is empty afterwards either way.
     */
    method InitTextures(assets: AssetData, newSampler: SamplerHandles,
                        makeTexture: (TextureAssetData, Handle) -> Result<Handle>, device: Device)
      returns (r: Result<()>, ghost taken: set<string>, ghost created: seq<Filter>)
      modifies assets, resources, device
      ensures assets.textures == map[] && assets.models == old(assets.models)
      ensures resources.models == old(resources.models) && resources.materials == old(resources.materials)
      ensures resources.descSetLayouts == old(resources.descSetLayouts)
      ensures SamplersGrown(resources.samplers, old(resources.samplers), created, newSampler)
      ensures forall f :: f in created ==> f in Filters(old(assets.textures))
      ensures device.trace == old(device.trace) + SamplerEvents(created, newSampler)
      ensures taken <= old(assets.textures).Keys
      ensures r.Ok? <==> forall k :: k in old(assets.textures) ==>
                           TextureOutcome(old(assets.textures)[k], old(resources.samplers), newSampler, makeTexture).Ok?
      ensures r.Ok? ==> forall k :: k in old(assets.textures) ==> old(assets.textures)[k].filter in resources.samplers
      ensures r.Ok? ==> resources.textures == old(resources.textures)
                          + MadeTextures(old(assets.textures), old(assets.textures).Keys, old(resources.samplers), newSampler, makeTexture)
      ensures r.Err? ==> resources.textures == old(resources.textures)
                           + MadeTextures(old(assets.textures), taken, old(resources.samplers), newSampler, makeTexture)
      ensures r.Err? ==> exists k :: k in old(assets.textures) &&
                           TextureOutcome(old(assets.textures)[k], old(resources.samplers), newSampler, makeTexture) == Err(r.msg)
    {
      var inputs := assets.textures;
      assets.textures := map[];
      r, taken, created := DrainTextures(resources, inputs, newSampler, makeTexture, device);
    }

    /**
     * `init_resources`: the models, then the textures, then the materials,
     * stopping at the first stage that fails; a later stage sees the
     * registry the earlier ones left.
     */
    method InitResources(assets: AssetData, uploadFailures: map<string, string>, quad: Handle, quadUpload: Result<()>,
                         newSampler: SamplerHandles, makeTexture: (TextureAssetData, Handle) -> Result<Handle>,
                         calls: seq<MaterialCalls>, colorFormat: Format, depthFormat: Format, device: Device)
      returns (r: Result<()>)
      requires |calls| == 3
      requires SCENE_BUFFER in resources.descSetLayouts && GRAPHICS_TEXTURE in resources.descSetLayouts
      requires COMPUTE_TEXTURE in resources.descSetLayouts
      modifies assets, resources, device
      ensures assets.models == map[] && resources.descSetLayouts == old(resources.descSetLayouts)
      ensures !ModelsLoad(old(assets.models), uploadFailures, quadUpload) ==>
                r.Err? && assets.textures == old(assets.textures) && resources.textures == old(resources.textures)
                && resources.samplers == old(resources.samplers) && resources.materials == old(resources.materials)
                && device.trace == old(device.trace)
      ensures ModelsLoad(old(assets.models), uploadFailures, quadUpload) ==>
                assets.textures == map[] && resources.models == (old(resources.models) + old(assets.models))[QUAD := quad]
      ensures ModelsLoad(old(assets.models), uploadFailures, quadUpload)
              && !TexturesLoad(old(assets.textures), old(resources.samplers), newSampler, makeTexture) ==>
                r.Err? && resources.materials == old(resources.materials)
      ensures ModelsLoad(old(assets.models), uploadFailures, quadUpload)
              && TexturesLoad(old(assets.textures), old(resources.samplers), newSampler, makeTexture) ==>
                && resources.textures == old(resources.textures)
                     + MadeTextures(old(assets.textures), old(assets.textures).Keys, old(resources.samplers), newSampler, makeTexture)
                && var c := ChainBuilds(MaterialRecipes(old(resources.descSetLayouts)), calls, old(resources.materials), 0);
                   r == c.result && resources.materials == c.materials
    {
      var models;
      ghost var order, taken, created;
      models, order := InitModels(assets, uploadFailures, quad, quadUpload);
      if models.Err? {
        return models;
      }
      var textures;
      textures, taken, created := InitTextures(assets, newSampler, makeTexture, device);
      if textures.Err? {
        return textures;
      }
      r := InitMaterials(calls, colorFormat, depthFormat, device);
    }

    /**
     * `init_materials`: reads the three layouts it needs (panicking if
     * one is missing), then makes "default", "grid" and "textured" in that
     * order as `ChainBuilds` says, storing each one made.
     */
    method InitMaterials(calls: seq<MaterialCalls>, colorFormat: Format, depthFormat: Format, device: Device)
      returns (r: Result<()>)
      requires |calls| == 3
      requires SCENE_BUFFER in resources.descSetLayouts && GRAPHICS_TEXTURE in resources.descSetLayouts
      requires COMPUTE_TEXTURE in resources.descSetLayouts
      modifies resources, device
      ensures var c := ChainBuilds(MaterialRecipes(old(resources.descSetLayouts)), calls, old(resources.materials), 0);
              r == c.result && device.trace == old(device.trace) + c.events && resources.materials == c.materials
      ensures resources.models == old(resources.models) && resources.textures == old(resources.textures)
      ensures resources.samplers == old(resources.samplers) && resources.descSetLayouts == old(resources.descSetLayouts)
    {
      var rs := MaterialRecipes(resources.descSetLayouts);
      ghost var c0 := ChainBuilds(rs, calls, resources.materials, 0);
      var m := MakeGraphicsMaterial(rs[0], calls[0], colorFormat, depthFormat, device);
      if m.Err? {
        return Err(m.msg);
      }
      resources.materials := resources.materials["default" := m.value];
      ghost var c1 := ChainBuilds(rs, calls, resources.materials, 1);
      ghost var t1 := device.trace;
      m := MakeGraphicsMaterial(rs[1], calls[1], colorFormat, depthFormat, device);
      if m.Err? {
        Assoc(old(device.trace), MakeOutcome(rs[0], calls[0]).events, MakeOutcome(rs[1], calls[1]).events);
        return Err(m.msg);
      }
      resources.materials := resources.materials["grid" := m.value];
      ghost var c2 := ChainBuilds(rs, calls, resources.materials, 2);
      ghost var t2 := device.trace;
      m := MakeGraphicsMaterial(rs[2], calls[2], colorFormat, depthFormat, device);
      Assoc(old(device.trace), MakeOutcome(rs[0], calls[0]).events, MakeOutcome(rs[1], calls[1]).events);
      if m.Err? {
        Assoc(old(device.trace) + MakeOutcome(rs[0], calls[0]).events, MakeOutcome(rs[1], calls[1]).events, MakeOutcome(rs[2], calls[2]).events);
        Assoc(old(device.trace), MakeOutcome(rs[0], calls[0]).events, MakeOutcome(rs[1], calls[1]).events + MakeOutcome(rs[2], calls[2]).events);
        return Err(m.msg);
      }
      resources.materials := resources.materials["textured" := m.value];
      assert ChainBuilds(rs, calls, resources.materials, 3) == InitOutcome(Ok(()), [], resources.materials);
      Assoc(old(device.trace) + MakeOutcome(rs[0], calls[0]).events, MakeOutcome(rs[1], calls[1]).events, MakeOutcome(rs[2], calls[2]).events);
      Assoc(old(device.trace), MakeOutcome(rs[0], calls[0]).events, MakeOutcome(rs[1], calls[1]).events + MakeOutcome(rs[2], calls[2]).events);
      r := Ok(());
    }
  }

  /**
   * `RendererInner::new`, from the registry on: an empty registry gets the
   * three descriptor set layouts (whose creations return `layoutsMade`),
   * then `FRAME_OVERLAP` frames are made (returning `framesMade`), and the
   * renderer starts at frame number 0. A failed layout stops it before any
   * frame is made.
   */
  method NewRendererInner(layoutsMade: seq<Result<Handle>>, framesMade: seq<Result<Handle>>, device: Device)
    returns (r: Result<RendererInner>)
    requires |layoutsMade| == |LAYOUT_RECIPES| && |framesMade| == FRAME_OVERLAP
    modifies device
    ensures r.Ok? <==> (forall i :: 0 <= i < |layoutsMade| ==> layoutsMade[i].Ok?)
                       && (forall i :: 0 <= i < FRAME_OVERLAP ==> framesMade[i].Ok?)
    ensures r.Ok? ==> fresh(r.value) && fresh(r.value.resources) && r.value.Valid() && r.value.frameNumber == 0
    ensures r.Ok? ==> forall i :: 0 <= i < FRAME_OVERLAP ==> framesMade[i] == Ok(r.value.frames[i])
    ensures r.Ok? ==> var res := r.value.resources;
                      && res.descSetLayouts.Keys == {COMPUTE_TEXTURE, GRAPHICS_TEXTURE, SCENE_BUFFER}
                      && res.descSetLayouts[COMPUTE_TEXTURE] == layoutsMade[0].value
                      && res.descSetLayouts[GRAPHICS_TEXTURE] == layoutsMade[1].value
                      && res.descSetLayouts[SCENE_BUFFER] == layoutsMade[2].value
                      && res.models == map[] && res.textures == map[] && res.materials == map[] && res.samplers == map[]
  {
    var resources := new RR.RenderResources();
    var layouts := InitDescSetLayouts(resources, layoutsMade, device);
    if layouts.Err? {
      return Err(layouts.msg);
    }
    LayoutsReadyForMaterials(map[], layoutsMade);
    var frames := CreateFrames(framesMade);
    if frames.Err? {
      return Err(frames.msg);
    }
    var inner := new RendererInner(frames.value, resources);
    r := Ok(inner);
  }
}
