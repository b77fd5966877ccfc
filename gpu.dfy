// The device calls the renderer makes, as events. Recording into a command
// buffer appends a command to that buffer's list; creating or destroying a
// Vulkan object appends an event to the device's trace. The GPU's response
// to either is not modelled.

module Gpu {
  import opened Vk

  /** The commands the modelled code records (`vkCmd*`). */
  datatype Command =
    | BindPipeline(bindPoint: PipelineBindPoint, pipeline: Handle)
    | PushConstants(layout: Handle, stages: bv32, offset: nat, data: seq<real>)
    | BindDescriptorSets(bindPoint: PipelineBindPoint, layout: Handle, firstSet: nat,
                         sets: seq<Handle>, dynamicOffsets: seq<nat>)
    | BindVertexBuffers(firstBinding: nat, buffers: seq<Handle>, offsets: seq<nat>)
    | BindIndexBuffer(buffer: Handle, offset: nat)
    | Draw(vertexCount: nat, instanceCount: nat, firstVertex: nat, firstInstance: nat)
    | DrawIndexed(indexCount: nat, instanceCount: nat, firstIndex: nat, vertexOffset: int, firstInstance: nat)
    | CopyBuffer(src: Handle, dst: Handle, size: nat)
    // `copy_image_to_image`: a blit of the whole of `src` onto the whole of `dst`
    | CopyImage(src: Handle, dst: Handle, srcSize: Extent2D, dstSize: Extent2D)
    // `cmd_begin_render_pass` with this render pass and framebuffer, and `cmd_end_render_pass`
    | BeginRenderPass(renderPass: Handle, framebuffer: Handle)
    | EndRenderPass

  const SHADER_STAGE_VERTEX: bv32 := 0x1
  const SHADER_STAGE_FRAGMENT: bv32 := 0x10
  const SHADER_STAGE_COMPUTE: bv32 := 0x20

  /** A recording command buffer. */
  class CommandBuffer {
    ghost var commands: seq<Command>

    constructor ()
      ensures commands == []
    {
      commands := [];
    }

    method Record(c: Command)
      modifies this
      ensures commands == old(commands) + [c]
    {
      commands := commands + [c];
    }
  }

  datatype ObjectKind =
    | Buffer | Image | Sampler | Pipeline | PipelineLayout | ShaderModule
    | DescriptorSetLayout | DescriptorPool | Texture | Model | Material
    // the bundles the first renderer queues for shutdown, and its core objects
    | SwapchainObjects | CommandObjects | SyncObjects | Assets | CoreObjects

  datatype Event =
    | Created(kind: ObjectKind, handle: Handle)
    | Destroyed(kind: ObjectKind, handle: Handle)
    | Uploaded(kind: ObjectKind, handle: Handle, size: nat)
    | SamplerCreated(handle: Handle, info: SamplerInfo)
    // `create_pipeline_layout` with these descriptor set layouts
    | PipelineLayoutCreated(handle: Handle, setLayouts: seq<Handle>)

  /** The logical device, as the trace of object lifetimes it sees. */
  class Device {
    ghost var trace: seq<Event>

    constructor ()
      ensures trace == []
    {
      trace := [];
    }

    method Destroy(kind: ObjectKind, handle: Handle)
      modifies this
      ensures trace == old(trace) + [Destroyed(kind, handle)]
    {
      trace := trace + [Destroyed(kind, handle)];
    }

    method Create(kind: ObjectKind, handle: Handle)
      modifies this
      ensures trace == old(trace) + [Created(kind, handle)]
    {
      trace := trace + [Created(kind, handle)];
    }

    method CreateSampler(info: SamplerInfo, handle: Handle)
      modifies this
      ensures trace == old(trace) + [SamplerCreated(handle, info)]
    {
      trace := trace + [SamplerCreated(handle, info)];
    }

    method CreatePipelineLayout(handle: Handle, setLayouts: seq<Handle>)
      modifies this
      ensures trace == old(trace) + [PipelineLayoutCreated(handle, setLayouts)]
    {
      trace := trace + [PipelineLayoutCreated(handle, setLayouts)];
    }

    method Upload(kind: ObjectKind, handle: Handle, size: nat)
      modifies this
      ensures trace == old(trace) + [Uploaded(kind, handle, size)]
    {
      trace := trace + [Uploaded(kind, handle, size)];
    }
  }

  /** The handles of the objects of `kind` destroyed in `trace`, in order. */
  function DestroyedOf(trace: seq<Event>, kind: ObjectKind): seq<Handle>
  {
    if trace == [] then []
    else
      var last := trace[|trace| - 1];
      DestroyedOf(trace[..|trace| - 1], kind)
      + (if last.Destroyed? && last.kind == kind then [last.handle] else [])
  }
}
