// src/renderer/material.rs: materials, the graphics and compute builders
// that make them, and the size of the material constants block.
//
// A builder owns a shader and a pipeline layout until `build` hands them
// to the new material (or its `Drop` destroys them). Destroying and
// creating Vulkan objects are events on the device's trace.

module Material {
  import opened Vk
  import opened Gpu
  import VkInit
  import Vertex
  import Layout

  /** `Material` (derives PartialEq): two materials are equal iff all three fields are. */
  datatype Material = Material(pipeline: Handle, pipelineLayout: Handle, bindPoint: PipelineBindPoint)

  // ---------------------------------------------------------------------
  // Fixed-function state of the graphics builder

  datatype Topology = PointList | LineList | LineStrip | TriangleList | TriangleStrip | TriangleFan
  datatype PolygonMode = Fill | Line | Point
  datatype FrontFace = CounterClockwise | Clockwise
  datatype BlendFactor = Zero | One | SrcAlpha | OneMinusSrcAlpha | DstAlpha | OtherFactor(code: nat)
  datatype BlendOp = Add | OtherOp(code: nat)

  const CULL_NONE: bv32 := 0
  const COLOR_RGBA: bv32 := 0xF

  datatype InputAssembly = InputAssembly(topology: Topology, primitiveRestart: bv32)

  datatype Rasterization = Rasterization(depthClamp: bv32, discard: bv32, polygonMode: PolygonMode, lineWidth: real,
                                         cullMode: bv32, frontFace: FrontFace, depthBias: bv32)

  datatype Blend = Blend(writeMask: bv32, enable: bv32, srcColor: BlendFactor, dstColor: BlendFactor, colorOp: BlendOp,
                         srcAlpha: BlendFactor, dstAlpha: BlendFactor, alphaOp: BlendOp)

  datatype Multisample = Multisample(sampleShading: bv32, samples: nat, minSampleShading: real,
                                     alphaToCoverage: bv32, alphaToOne: bv32)

  /** `vk::PipelineRenderingCreateInfo`: how many colour attachments, and the depth format. */
  datatype Rendering = Rendering(colorAttachmentCount: nat, depthFormat: Format)

  /** Everything the graphics builder configures besides its shader, layout and descriptor sets. */
  datatype GraphicsConfig = GraphicsConfig(
    vertexInput: Vertex.VertexInputDescription, inputAssembly: InputAssembly, rasterization: Rasterization,
    blend: Blend, multisample: Multisample, depthStencil: VkInit.DepthStencilInfo,
    colorFormat: Format, rendering: Rendering)

  const DEFAULT_BLEND: Blend := Blend(COLOR_RGBA, VkInit.VK_TRUE, SrcAlpha, OneMinusSrcAlpha, Add, One, Zero, Add)
  const ADDITIVE_BLEND: Blend := Blend(COLOR_RGBA, VkInit.VK_TRUE, One, DstAlpha, Add, One, Zero, Add)

  /** The builder's starting configuration (`new` and the `default_*` helpers). */
  const DEFAULT_CONFIG: GraphicsConfig := GraphicsConfig(
    Vertex.DefaultDescription(),
    InputAssembly(TriangleList, VkInit.VK_FALSE),
    Rasterization(VkInit.VK_FALSE, VkInit.VK_FALSE, Fill, 1.0, CULL_NONE, Clockwise, VkInit.VK_FALSE),
    DEFAULT_BLEND,
    Multisample(VkInit.VK_FALSE, 1, 1.0, VkInit.VK_FALSE, VkInit.VK_FALSE),
    VkInit.DepthStencil(true, true, LessOrEqual),
    Undefined,
    Rendering(0, Undefined))

  /** The starting depth state is `depth_test_enable(true, None)`'s, and blending starts as alpha blending. */
  lemma DefaultsAgreeWithSetters()
    ensures DEFAULT_CONFIG.depthStencil == DepthTest(DEFAULT_CONFIG.depthStencil, true, None)
    ensures DEFAULT_CONFIG.blend == DEFAULT_BLEND
  {
  }

  /**
   * `depth_test_enable`: test and write follow `enable` together; the
   * compare op is the given one (LESS_OR_EQUAL if none) when enabled and
   * ALWAYS otherwise; the bounds are reset to [0, 1].
   */
  function DepthTest(d: VkInit.DepthStencilInfo, enable: bool, compare: Option<CompareOp>): (r: VkInit.DepthStencilInfo)
    ensures r.depthTestEnable == r.depthWriteEnable == VkInit.Bool32(enable)
    ensures enable ==> r.depthCompareOp == (if compare.Some? then compare.value else LessOrEqual)
    ensures !enable ==> r.depthCompareOp == Always
    ensures r.minDepthBounds == 0.0 && r.maxDepthBounds == 1.0
    ensures r.depthBoundsTestEnable == d.depthBoundsTestEnable && r.stencilTestEnable == d.stencilTestEnable
  {
    var op := if enable then (if compare.Some? then compare.value else LessOrEqual) else Always;
    d.(depthTestEnable := VkInit.Bool32(enable), depthWriteEnable := VkInit.Bool32(enable),
       depthCompareOp := op, minDepthBounds := 0.0, maxDepthBounds := 1.0)
  }

  /** With the test off the compare argument is ignored, and the result is what `depth_stencil_create_info` builds. */
  lemma DepthTestMatchesCreateInfo(enable: bool, compare: CompareOp)
    ensures DepthTest(DEFAULT_CONFIG.depthStencil, enable, Some(compare)) == VkInit.DepthStencil(enable, enable, compare)
    ensures DepthTest(DEFAULT_CONFIG.depthStencil, false, Some(compare)) == DepthTest(DEFAULT_CONFIG.depthStencil, false, None)
  {
  }

  // ---------------------------------------------------------------------
  // Ownership of the shader and the layout

  /** Which builder: the messages and the bind point differ. */
  datatype BuilderKind = GraphicsBuilder | ComputeBuilder

  function BuilderName(kind: BuilderKind): string
  {
    if kind == GraphicsBuilder then "GraphicsMaterialBuilder" else "ComputeMaterialBuilder"
  }

  function NoShaderMessage(kind: BuilderKind): string
  {
    "No shader provided for " + BuilderName(kind)
  }

  function NoLayoutMessage(kind: BuilderKind): string
  {
    "No pipeline layout provided for " + BuilderName(kind)
  }

  function PipelineFailedMessage(kind: BuilderKind): string
  {
    if kind == GraphicsBuilder then "Failed to create graphic pipelines" else "Failed to create compute pipeline"
  }

  function BindPointOf(kind: BuilderKind): PipelineBindPoint
  {
    if kind == GraphicsBuilder then Graphics else Compute
  }

  /**
   * A shader, as the modules its `cleanup` destroys: vertex then fragment
   * for a graphics shader, the one module for a compute shader.
   */
  datatype Shader = Shader(modules: seq<Handle>)

  function ShaderCleanup(s: Shader): (r: seq<Event>)
    ensures |r| == |s.modules|
    ensures forall i :: 0 <= i < |r| ==> r[i] == Destroyed(ShaderModule, s.modules[i])
  {
    seq(|s.modules|, i requires 0 <= i < |s.modules| => Destroyed(ShaderModule, s.modules[i]))
  }

  /** `Drop` of a builder: the layout it still holds is destroyed, then the shader it still holds is cleaned up. */
  function DropEvents(shader: Option<Shader>, layout: Option<Handle>): seq<Event>
  {
    (if layout.Some? then [Destroyed(PipelineLayout, layout.value)] else [])
    + (if shader.Some? then ShaderCleanup(shader.value) else [])
  }

  datatype BuildOutcome = BuildOutcome(result: Result<Material>, events: seq<Event>)

  /**
   * `build` as written, followed by the builder's `Drop`. The shader is
   * checked first, then the layout; `created` is the pipeline the device
   * returns, or None when creation fails. After a successful creation the
   * shader is cleaned up and the material owns the pipeline and layout.
   */
  function BuildAsWritten(kind: BuilderKind, shader: Option<Shader>, layout: Option<Handle>, created: Option<Handle>): (o: BuildOutcome)
    ensures shader.None? ==> o.result == Err(NoShaderMessage(kind))
    ensures shader.Some? && layout.None? ==> o.result == Err(NoLayoutMessage(kind))
    ensures o.result.Ok? <==> shader.Some? && layout.Some? && created.Some?
    ensures o.result.Ok? ==> o.result.value == Material.Material(created.value, layout.value, BindPointOf(kind))
  {
    if shader.None? then
      BuildOutcome(Err(NoShaderMessage(kind)), DropEvents(None, layout))
    else if layout.None? then
      BuildOutcome(Err(NoLayoutMessage(kind)), [])
    else if created.None? then
      BuildOutcome(Err(PipelineFailedMessage(kind)), [])
    else
      BuildOutcome(Ok(Material.Material(created.value, layout.value, BindPointOf(kind))),
                   [Created(Pipeline, created.value)] + ShaderCleanup(shader.value))
  }

  /**
   * `build` with the failed-creation path corrected: the layout it took
   * out of the builder is destroyed, as `Drop` would have done. Every other
   * path is as written.
   */
  function Build(kind: BuilderKind, shader: Option<Shader>, layout: Option<Handle>, created: Option<Handle>): (o: BuildOutcome)
    ensures shader.Some? && layout.Some? && created.None? ==>
              o == BuildOutcome(Err(PipelineFailedMessage(kind)), [Destroyed(PipelineLayout, layout.value)])
    ensures !(shader.Some? && layout.Some? && created.None?) ==> o == BuildAsWritten(kind, shader, layout, created)
  {
    if shader.Some? && layout.Some? && created.None? then
      BuildOutcome(Err(PipelineFailedMessage(kind)), [Destroyed(PipelineLayout, layout.value)])
    else
      BuildAsWritten(kind, shader, layout, created)
  }

  /** A layout handed to the builder ends up owned by the material or destroyed. */
  ghost predicate LayoutReleased(o: BuildOutcome, layout: Option<Handle>)
  {
    layout.Some? ==>
      (o.result.Ok? && o.result.value.pipelineLayout == layout.value)
      || Destroyed(PipelineLayout, layout.value) in o.events
  }

  /** The corrected `build` never leaks the layout. */
  lemma BuildReleasesLayout(kind: BuilderKind, shader: Option<Shader>, layout: Option<Handle>, created: Option<Handle>)
    ensures LayoutReleased(Build(kind, shader, layout, created), layout)
  {
    if shader.None? && layout.Some? {
      assert DropEvents(None, layout)[0] == Destroyed(PipelineLayout, layout.value);
    }
  }

  /** As written, a failed pipeline creation leaks the layout: it is neither destroyed nor returned. */
  lemma FailedCreationLeaksLayout(kind: BuilderKind, s: Shader, l: Handle)
    ensures !LayoutReleased(BuildAsWritten(kind, Some(s), Some(l), None), Some(l))
  {
  }

  // ---------------------------------------------------------------------
  // The builders

  /** `GraphicsMaterialBuilder`. */
  class GraphicsMaterialBuilder {
    var config: GraphicsConfig
    var shader: Option<Shader>
    var pipelineLayout: Option<Handle>
    var descSets: seq<Handle>

    /** `new`: the default configuration, no shader, no layout, no descriptor sets. */
    constructor ()
      ensures config == DEFAULT_CONFIG && shader == None && pipelineLayout == None && descSets == []
    {
      config := DEFAULT_CONFIG;
      shader := None;
      pipelineLayout := None;
      descSets := [];
    }

    /** `shader`: the new shader takes the slot and the previous one, if any, is cleaned up. */
    method SetShader(s: Shader, device: Device)
      modifies this, device
      ensures shader == Some(s)
      ensures config == old(config) && pipelineLayout == old(pipelineLayout) && descSets == old(descSets)
      ensures device.trace == old(device.trace) + (if old(shader).Some? then ShaderCleanup(old(shader).value) else [])
    {
      var previous := shader;
      shader := Some(s);
      if previous.Some? {
        CleanupShader(previous.value, device);
      }
    }

    /** `pipeline_layout`: the new layout takes the slot and the previous one, if any, is destroyed. */
    method SetPipelineLayout(layout: Handle, device: Device)
      modifies this, device
      ensures pipelineLayout == Some(layout)
      ensures config == old(config) && shader == old(shader) && descSets == old(descSets)
      ensures device.trace == old(device.trace) + (if old(pipelineLayout).Some? then [Destroyed(PipelineLayout, old(pipelineLayout).value)] else [])
    {
      var previous := pipelineLayout;
      pipelineLayout := Some(layout);
      if previous.Some? {
        device.Destroy(PipelineLayout, previous.value);
      }
    }

    /** `input_topology`: the topology, with primitive restart off. */
    method InputTopology(t: Topology)
      modifies this
      ensures config == old(config).(inputAssembly := InputAssembly(t, VkInit.VK_FALSE))
      ensures shader == old(shader) && pipelineLayout == old(pipelineLayout) && descSets == old(descSets)
    {
      config := config.(inputAssembly := InputAssembly(t, VkInit.VK_FALSE));
    }

    /** `polygon_mode`: the mode, with line width 1. */
    method SetPolygonMode(mode: PolygonMode)
      modifies this
      ensures config == old(config).(rasterization := old(config).rasterization.(polygonMode := mode, lineWidth := 1.0))
      ensures shader == old(shader) && pipelineLayout == old(pipelineLayout) && descSets == old(descSets)
    {
      config := config.(rasterization := config.rasterization.(polygonMode := mode, lineWidth := 1.0));
    }

    /** `cull_mode`: the cull mode and the front face. */
    method CullMode(cull: bv32, front: FrontFace)
      modifies this
      ensures config == old(config).(rasterization := old(config).rasterization.(cullMode := cull, frontFace := front))
      ensures shader == old(shader) && pipelineLayout == old(pipelineLayout) && descSets == old(descSets)
    {
      config := config.(rasterization := config.rasterization.(cullMode := cull, frontFace := front));
    }

    /** `disable_multisampling`: one sample per pixel, no sample shading, no alpha-to-coverage or alpha-to-one. */
    method DisableMultisampling()
      modifies this
      ensures config == old(config).(multisample := Multisample(VkInit.VK_FALSE, 1, 1.0, VkInit.VK_FALSE, VkInit.VK_FALSE))
      ensures shader == old(shader) && pipelineLayout == old(pipelineLayout) && descSets == old(descSets)
    {
      config := config.(multisample := Multisample(VkInit.VK_FALSE, 1, 1.0, VkInit.VK_FALSE, VkInit.VK_FALSE));
    }

    /** `disable_blending`: an RGBA write mask and blending off; the blend factors are left as they were. */
    method DisableBlending()
      modifies this
      ensures config == old(config).(blend := old(config).blend.(writeMask := COLOR_RGBA, enable := VkInit.VK_FALSE))
      ensures shader == old(shader) && pipelineLayout == old(pipelineLayout) && descSets == old(descSets)
    {
      config := config.(blend := config.blend.(writeMask := COLOR_RGBA, enable := VkInit.VK_FALSE));
    }

    /** `enable_alpha_blending`: source alpha over one-minus-source-alpha, the starting blend state. */
    method EnableAlphaBlending()
      modifies this
      ensures config == old(config).(blend := DEFAULT_BLEND)
      ensures shader == old(shader) && pipelineLayout == old(pipelineLayout) && descSets == old(descSets)
    {
      config := config.(blend := DEFAULT_BLEND);
    }

    /** `enable_additive_blending`: source ONE added to destination DST_ALPHA. */
    method EnableAdditiveBlending()
      modifies this
      ensures config == old(config).(blend := ADDITIVE_BLEND)
      ensures shader == old(shader) && pipelineLayout == old(pipelineLayout) && descSets == old(descSets)
    {
      config := config.(blend := ADDITIVE_BLEND);
    }

    /** `color_attachment_format`: the format, and exactly one colour attachment. */
    method ColorAttachmentFormat(f: Format)
      modifies this
      ensures config == old(config).(colorFormat := f, rendering := old(config).rendering.(colorAttachmentCount := 1))
      ensures shader == old(shader) && pipelineLayout == old(pipelineLayout) && descSets == old(descSets)
    {
      config := config.(colorFormat := f, rendering := config.rendering.(colorAttachmentCount := 1));
    }

    /** `depth_attachment_format`: the depth format only. */
    method DepthAttachmentFormat(f: Format)
      modifies this
      ensures config == old(config).(rendering := old(config).rendering.(depthFormat := f))
      ensures shader == old(shader) && pipelineLayout == old(pipelineLayout) && descSets == old(descSets)
    {
      config := config.(rendering := config.rendering.(depthFormat := f));
    }

    /** `depth_test_enable`. */
    method DepthTestEnable(enable: bool, compare: Option<CompareOp>)
      modifies this
      ensures config == old(config).(depthStencil := DepthTest(old(config).depthStencil, enable, compare))
      ensures shader == old(shader) && pipelineLayout == old(pipelineLayout) && descSets == old(descSets)
    {
      config := config.(depthStencil := DepthTest(config.depthStencil, enable, compare));
    }

    /** `vertex_input`: the description replaces the previous one. */
    method VertexInput(desc: Vertex.VertexInputDescription)
      modifies this
      ensures config == old(config).(vertexInput := desc)
      ensures shader == old(shader) && pipelineLayout == old(pipelineLayout) && descSets == old(descSets)
    {
      config := config.(vertexInput := desc);
    }

    /** `desc_sets`: the list replaces the previous one. */
    method DescSets(sets: seq<Handle>)
      modifies this
      ensures descSets == sets
      ensures config == old(config) && shader == old(shader) && pipelineLayout == old(pipelineLayout)
    {
      descSets := sets;
    }

    /** `Drop`: whatever layout and shader are still held are destroyed, and the slots are empty. */
    method Drop(device: Device)
      modifies this, device
      ensures shader == None && pipelineLayout == None
      ensures device.trace == old(device.trace) + DropEvents(old(shader), old(pipelineLayout))
    {
      var layout := pipelineLayout;
      pipelineLayout := None;
      if layout.Some? {
        device.Destroy(PipelineLayout, layout.value);
      }
      var s := shader;
      shader := None;
      if s.Some? {
        CleanupShader(s.value, device);
      }
    }

    /** `build`, then `Drop` of the consumed builder, as `Build` says. */
    method BuildMaterial(device: Device, created: Option<Handle>) returns (r: Result<Material>)
      modifies this, device
      ensures var o := Build(GraphicsBuilder, old(shader), old(pipelineLayout), created);
              r == o.result && device.trace == old(device.trace) + o.events
      ensures shader == None && pipelineLayout == None
    {
      r := BuildWith(GraphicsBuilder, shader, pipelineLayout, created, device);
      shader, pipelineLayout := None, None;
    }
  }

  /** `ComputeMaterialBuilder`: only a shader and a layout. */
  class ComputeMaterialBuilder {
    var shader: Option<Shader>
    var pipelineLayout: Option<Handle>

    constructor ()
      ensures shader == None && pipelineLayout == None
    {
      shader := None;
      pipelineLayout := None;
    }

    method SetShader(s: Shader, device: Device)
      modifies this, device
      ensures shader == Some(s) && pipelineLayout == old(pipelineLayout)
      ensures device.trace == old(device.trace) + (if old(shader).Some? then ShaderCleanup(old(shader).value) else [])
    {
      var previous := shader;
      shader := Some(s);
      if previous.Some? {
        CleanupShader(previous.value, device);
      }
    }

    method SetPipelineLayout(layout: Handle, device: Device)
      modifies this, device
      ensures pipelineLayout == Some(layout) && shader == old(shader)
      ensures device.trace == old(device.trace) + (if old(pipelineLayout).Some? then [Destroyed(PipelineLayout, old(pipelineLayout).value)] else [])
    {
      var previous := pipelineLayout;
      pipelineLayout := Some(layout);
      if previous.Some? {
        device.Destroy(PipelineLayout, previous.value);
      }
    }

    method Drop(device: Device)
      modifies this, device
      ensures shader == None && pipelineLayout == None
      ensures device.trace == old(device.trace) + DropEvents(old(shader), old(pipelineLayout))
    {
      var layout := pipelineLayout;
      pipelineLayout := None;
      if layout.Some? {
        device.Destroy(PipelineLayout, layout.value);
      }
      var s := shader;
      shader := None;
      if s.Some? {
        CleanupShader(s.value, device);
      }
    }

    method BuildMaterial(device: Device, created: Option<Handle>) returns (r: Result<Material>)
      modifies this, device
      ensures var o := Build(ComputeBuilder, old(shader), old(pipelineLayout), created);
              r == o.result && device.trace == old(device.trace) + o.events
      ensures shader == None && pipelineLayout == None
    {
      r := BuildWith(ComputeBuilder, shader, pipelineLayout, created, device);
      shader, pipelineLayout := None, None;
    }
  }

  /** A shader's `cleanup`: each of its modules is destroyed, in order. */
  method CleanupShader(s: Shader, device: Device)
    modifies device
    ensures device.trace == old(device.trace) + ShaderCleanup(s)
  {
    var i := 0;
    while i < |s.modules|
      invariant 0 <= i <= |s.modules|
      invariant device.trace == old(device.trace) + ShaderCleanup(s)[..i]
    {
      device.Destroy(ShaderModule, s.modules[i]);
      assert ShaderCleanup(s)[..i + 1] == ShaderCleanup(s)[..i] + [Destroyed(ShaderModule, s.modules[i])];
      i := i + 1;
    }
    assert ShaderCleanup(s)[..i] == ShaderCleanup(s);
  }

  /** The body of both builders' `build` and the `Drop` that follows, over the taken shader and layout. */
  method BuildWith(kind: BuilderKind, shader: Option<Shader>, layout: Option<Handle>, created: Option<Handle>, device: Device)
    returns (r: Result<Material>)
    modifies device
    ensures var o := Build(kind, shader, layout, created);
            r == o.result && device.trace == old(device.trace) + o.events
  {
    if shader.None? {
      if layout.Some? {
        device.Destroy(PipelineLayout, layout.value);
      }
      return Err(NoShaderMessage(kind));
    }
    if layout.None? {
      return Err(NoLayoutMessage(kind));
    }
    if created.None? {
      device.Destroy(PipelineLayout, layout.value);
      return Err(PipelineFailedMessage(kind));
    }
    device.Create(Pipeline, created.value);
    CleanupShader(shader.value, device);
    r := Ok(Material.Material(created.value, layout.value, BindPointOf(kind)));
  }

  // ---------------------------------------------------------------------
  // MaterialConstants

  /** `MaterialConstants`: colour factors, metal/roughness factors and fourteen padding vectors. */
  const MATERIAL_CONSTANT_FIELDS: seq<Layout.FieldType> := seq(16, i => Layout.Vec4)

  lemma {:induction false} Vec4sPacked(fields: seq<Layout.FieldType>, n: nat)
    requires n <= |fields|
    requires forall i :: 0 <= i < |fields| ==> fields[i] == Layout.Vec4
    ensures Layout.EndOf(fields, n) == 16 * n
    ensures n < |fields| ==> Layout.OffsetOf(fields, n) == 16 * n
  {
    if n > 0 {
      Vec4sPacked(fields, n - 1);
      assert Layout.AlignUp(16 * (n - 1), 16) == 16 * (n - 1);
    }
    if n < |fields| {
      assert (16 * n) % 16 == 0;
    }
  }

  lemma {:induction false} Vec4sAlign(fields: seq<Layout.FieldType>)
    requires |fields| > 0
    requires forall i :: 0 <= i < |fields| ==> fields[i] == Layout.Vec4
    ensures Layout.StructAlign(fields) == 16
  {
    if |fields| > 1 {
      Vec4sAlign(fields[1..]);
    }
  }

  /**
   * The block is 16 vectors of 16 bytes, 256 bytes in all, with every vector
   * at a multiple of 16. All fields have one type, so this holds whatever
   * order the compiler lays them out in.
   */
  lemma MaterialConstantsSize()
    ensures Layout.StructSize(MATERIAL_CONSTANT_FIELDS) == 256
    ensures forall i :: 0 <= i < 16 ==> Layout.OffsetOf(MATERIAL_CONSTANT_FIELDS, i) == 16 * i
  {
    Vec4sPacked(MATERIAL_CONSTANT_FIELDS, 16);
    Vec4sAlign(MATERIAL_CONSTANT_FIELDS);
    forall i | 0 <= i < 16
      ensures Layout.OffsetOf(MATERIAL_CONSTANT_FIELDS, i) == 16 * i
    {
      Vec4sPacked(MATERIAL_CONSTANT_FIELDS, i);
    }
  }
}
