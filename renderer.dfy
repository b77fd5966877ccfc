// src/renderer/mod.rs: the first renderer's event loop. It queues the
// swapchain, command, sync and asset bundles for shutdown, toggles between
// two pipelines on Space, draws one triangle per redraw, and tears itself
// down once, on Escape, on a close request or when dropped. Device calls
// that can fail are given by their outcomes.

module Renderer {
  import opened Vk
  import opened Gpu
  import DQ = DestructionQueue
  import Inner

  datatype Key = Escape | Space | OtherKey

  /** The window events the loop tells apart; every key event here is a release unless it is `KeyPressed`. */
  datatype WindowEvent =
    | CloseRequested
    | KeyReleased(key: Key)
    | KeyPressed(key: Key)
    | RedrawRequested
    | OtherWindowEvent

  /** Rust's `%` on integers: the remainder takes the sign of the dividend. */
  function RustRem(a: int, b: int): (r: int)
    requires b > 0
    ensures a >= 0 ==> 0 <= r < b
    ensures a < 0 ==> -b < r <= 0
  {
    if a >= 0 then a % b else -((-a) % b)
  }

  /** `selected_shader = (selected_shader + 1) % 2` on the `i32`. */
  function NextShader(s: int): (r: int)
    ensures 0 <= s <= 1 ==> r == 1 - s
    ensures s >= -1 ==> 0 <= r <= 1
    ensures s < -1 ==> -1 <= r <= 0
  {
    RustRem(s + 1, 2)
  }

  /** From either valid choice, two presses of Space come back to it. */
  lemma ShaderToggleRestores(s: int)
    requires 0 <= s <= 1
    ensures NextShader(s) != s && NextShader(NextShader(s)) == s
  {
  }

  /** The pipeline the draw binds: the first for shader 0, the second for any other value. */
  function PipelineIndex(selectedShader: int): (r: nat)
    ensures r <= 1
    ensures r == 0 <==> selectedShader == 0
  {
    if selectedShader == 0 then 0 else 1
  }

  /** The commands `draw_frame` records for one frame into framebuffer `framebuffer`. */
  function FrameCommands(renderPass: Handle, framebuffer: Handle, pipeline: Handle): (r: seq<Command>)
    ensures |r| == 4 && r[0].BeginRenderPass? && r[|r| - 1] == EndRenderPass
    ensures r[1] == BindPipeline(Graphics, pipeline) && r[2] == Draw(3, 1, 0, 0)
  {
    [BeginRenderPass(renderPass, framebuffer), BindPipeline(Graphics, pipeline), Draw(3, 1, 0, 0), EndRenderPass]
  }

  class Renderer {
    var frameNumber: nat
    var selectedShader: int
    var destroyed: bool
    const queue: DQ.DestructionQueue
    const core: Handle
    /** `assets.renderpasses[0]`: its render pass and its framebuffers, one per swapchain image. */
    const renderPass: Handle
    const framebuffers: seq<Handle>
    /** `assets.pipelines[i].pipeline`. */
    const pipelines: seq<Handle>

    /** The shader choice stays 0 or 1 and the frame number a `u32`. */
    ghost predicate Valid()
      reads this
    {
      0 <= selectedShader <= 1 && IsU32(frameNumber)
    }

    /**
     * `new` once its fallible calls have succeeded: the swapchain, command,
     * sync and asset bundles are queued in that order, the frame number and
     * the shader choice are 0 and the renderer is not destroyed.
     */
    constructor (core: Handle, swapchain: Handle, commands: Handle, sync: Handle, assets: Handle,
                 renderPass: Handle, framebuffers: seq<Handle>, pipelines: seq<Handle>)
      ensures Valid() && frameNumber == 0 && selectedShader == 0 && !destroyed && fresh(queue)
      ensures queue.destroyers == [DQ.Destroyer(SwapchainObjects, swapchain), DQ.Destroyer(CommandObjects, commands),
                                   DQ.Destroyer(SyncObjects, sync), DQ.Destroyer(Assets, assets)]
      ensures this.core == core && this.renderPass == renderPass
      ensures this.framebuffers == framebuffers && this.pipelines == pipelines
    {
      var q := new DQ.DestructionQueue();
      q.Push(DQ.Destroyer(SwapchainObjects, swapchain));
      q.Push(DQ.Destroyer(CommandObjects, commands));
      q.Push(DQ.Destroyer(SyncObjects, sync));
      q.Push(DQ.Destroyer(Assets, assets));
      queue := q;
      this.core := core;
      this.renderPass := renderPass;
      this.framebuffers := framebuffers;
      this.pipelines := pipelines;
      frameNumber := 0;
      selectedShader := 0;
      destroyed := false;
    }

    /**
     * `destroy`: nothing once destroyed; otherwise the queue is flushed
     * (every bundle destroyed once, in queue order), then the core objects
     * are destroyed and the renderer is marked destroyed.
     */
    method Destroy(device: Device)
      modifies this, queue, device
      ensures destroyed
      ensures frameNumber == old(frameNumber) && selectedShader == old(selectedShader)
      ensures old(destroyed) ==> device.trace == old(device.trace) && queue.destroyers == old(queue.destroyers)
      ensures !old(destroyed) ==> queue.destroyers == []
      ensures !old(destroyed) ==> device.trace == old(device.trace) + DQ.DestroyEvents(old(queue.destroyers))
                                                  + [Destroyed(CoreObjects, core)]
    {
      if destroyed {
        return;
      }
      queue.Flush(device);
      device.Destroy(CoreObjects, core);
      destroyed := true;
    }

    /** `Drop`: the same teardown, which does nothing after an earlier `destroy`. */
    method Drop(device: Device)
      modifies this, queue, device
      ensures destroyed
      ensures old(destroyed) ==> device.trace == old(device.trace)
      ensures !old(destroyed) ==> device.trace == old(device.trace) + DQ.DestroyEvents(old(queue.destroyers))
                                                  + [Destroyed(CoreObjects, core)]
    {
      Destroy(device);
    }

    /**
     * `draw_frame`: `acquired` is the outcome of waiting for and resetting
     * the fence, acquiring the next swapchain image and beginning the
     * command buffer; on success the frame is recorded into the image's
     * framebuffer with the pipeline `PipelineIndex` picks, and `submitted`
     * is the outcome of ending and submitting it. The result is the image
     * index. Nothing of the renderer changes.
     */
    method DrawFrame(cmd: CommandBuffer, acquired: Result<nat>, submitted: Result<()>) returns (r: Result<nat>)
      requires PipelineIndex(selectedShader) < |pipelines|
      requires acquired.Ok? ==> acquired.value < |framebuffers|
      modifies cmd
      ensures acquired.Err? ==> r == Err(acquired.msg) && cmd.commands == old(cmd.commands)
      ensures acquired.Ok? ==>
                cmd.commands == old(cmd.commands)
                  + FrameCommands(renderPass, framebuffers[acquired.value], pipelines[PipelineIndex(selectedShader)])
      ensures acquired.Ok? ==> r == if submitted.Ok? then Ok(acquired.value) else Err(submitted.msg)
    {
      if acquired.Err? {
        return Err(acquired.msg);
      }
      var image := acquired.value;
      cmd.Record(BeginRenderPass(renderPass, framebuffers[image]));
      if selectedShader == 0 {
        cmd.Record(BindPipeline(Graphics, pipelines[0]));
      } else {
        cmd.Record(BindPipeline(Graphics, pipelines[1]));
      }
      cmd.Record(Draw(3, 1, 0, 0));
      cmd.Record(EndRenderPass);
      if submitted.Err? {
        return Err(submitted.msg);
      }
      r := Ok(image);
    }

    /** `present_frame`: `presented` is the outcome of `queue_present`; only a success advances the frame number. */
    method PresentFrame(presented: Result<()>) returns (r: Result<()>)
      requires Valid()
      modifies this
      ensures Valid() && selectedShader == old(selectedShader) && destroyed == old(destroyed)
      ensures r == presented
      ensures frameNumber == if presented.Ok? then Inner.NextFrameNumber(old(frameNumber)) else old(frameNumber)
    {
      if presented.Err? {
        return presented;
      }
      frameNumber := Inner.NextFrameNumber(frameNumber);
      r := presented;
    }

    /**
     * One window event of `render_loop`. Closing or releasing Escape tears
     * the renderer down and exits; releasing Space switches the shader; a
     * redraw draws and presents a frame, whose outcomes the loop unwraps.
     * Everything else is ignored.
     */
    method HandleEvent(e: WindowEvent, cmd: CommandBuffer, device: Device,
                       acquired: Result<nat>, submitted: Result<()>, presented: Result<()>)
      returns (exit: bool)
      requires Valid()
      requires e == RedrawRequested ==> acquired.Ok? && submitted.Ok? && presented.Ok?
      requires e == RedrawRequested ==> PipelineIndex(selectedShader) < |pipelines| && acquired.value < |framebuffers|
      modifies this, queue, device, cmd
      ensures Valid()
      ensures exit <==> e == CloseRequested || e == KeyReleased(Escape)
      ensures exit ==> destroyed && frameNumber == old(frameNumber) && selectedShader == old(selectedShader)
      ensures exit && !old(destroyed) ==>
                device.trace == old(device.trace) + DQ.DestroyEvents(old(queue.destroyers)) + [Destroyed(CoreObjects, core)]
      ensures e == KeyReleased(Space) ==> selectedShader == NextShader(old(selectedShader))
      ensures e == RedrawRequested ==>
                frameNumber == Inner.NextFrameNumber(old(frameNumber))
                && cmd.commands == old(cmd.commands)
                     + FrameCommands(renderPass, framebuffers[acquired.value], pipelines[PipelineIndex(old(selectedShader))])
      ensures !exit ==> destroyed == old(destroyed) && device.trace == old(device.trace)
      ensures e != RedrawRequested ==> cmd.commands == old(cmd.commands) && frameNumber == old(frameNumber)
      ensures e != KeyReleased(Space) ==> selectedShader == old(selectedShader)
    {
      exit := false;
      match e {
        case CloseRequested =>
          Destroy(device);
          exit := true;
        case KeyReleased(key) =>
          if key == Escape {
            Destroy(device);
            exit := true;
          } else if key == Space {
            selectedShader := NextShader(selectedShader);
          }
        case RedrawRequested =>
          var image := DrawFrame(cmd, acquired, submitted);
          var _ := PresentFrame(presented);
        case KeyPressed(_) =>
        case OtherWindowEvent =>
      }
    }
  }

  /**
   * `new`: the core, swapchain, command, sync and asset bundles are made in
   * that order (their outcomes given), the first failure ending it before
   * anything is queued.
   */
  method NewRenderer(core: Result<Handle>, swapchain: Result<Handle>, commands: Result<Handle>, sync: Result<Handle>,
                     assets: Result<Handle>, renderPass: Handle, framebuffers: seq<Handle>, pipelines: seq<Handle>)
    returns (r: Result<Renderer>)
    ensures r.Ok? <==> core.Ok? && swapchain.Ok? && commands.Ok? && sync.Ok? && assets.Ok?
    ensures r.Err? ==> Err(r.msg) in [core, swapchain, commands, sync, assets]
    ensures core.Err? ==> r == Err(core.msg)
    ensures core.Ok? && swapchain.Err? ==> r == Err(swapchain.msg)
    ensures core.Ok? && swapchain.Ok? && commands.Err? ==> r == Err(commands.msg)
    ensures core.Ok? && swapchain.Ok? && commands.Ok? && sync.Err? ==> r == Err(sync.msg)
    ensures r.Ok? ==> fresh(r.value) && fresh(r.value.queue) && r.value.Valid() && !r.value.destroyed
    ensures r.Ok? ==> |r.value.queue.destroyers| == 4 && r.value.queue.destroyers[3] == DQ.Destroyer(Assets, assets.value)
  {
    if core.Err? { return Err(core.msg); }
    if swapchain.Err? { return Err(swapchain.msg); }
    if commands.Err? { return Err(commands.msg); }
    if sync.Err? { return Err(sync.msg); }
    if assets.Err? { return Err(assets.msg); }
    var renderer := new Renderer(core.value, swapchain.value, commands.value, sync.value, assets.value,
                                 renderPass, framebuffers, pipelines);
    r := Ok(renderer);
  }

  /**
   * Escape, then the drop at the end of `main`: the bundles and the core
   * are destroyed exactly once between them.
   */
  method EscapeThenDrop(renderer: Renderer, cmd: CommandBuffer, device: Device)
    requires renderer.Valid() && !renderer.destroyed
    modifies renderer, renderer.queue, device, cmd
    ensures device.trace == old(device.trace) + DQ.DestroyEvents(old(renderer.queue.destroyers))
                            + [Destroyed(CoreObjects, renderer.core)]
  {
    var exit := renderer.HandleEvent(KeyReleased(Escape), cmd, device, Err(""), Err(""), Err(""));
    renderer.Drop(device);
  }
}
