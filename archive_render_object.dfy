// archive/render_object.rs: the archived copy of `RenderObject::draw`. It
// holds its model through an `Arc` but makes the same recording and caching
// decisions as the current one, so it is proved against the same plan.

module ArchiveRenderObject {
  import opened Vk
  import opened Gpu
  import RO = RenderObject

  /** The archived `RenderObject::draw`, recording into `cmd` and updating `cache` as `RenderObject.DrawPlan` says. */
  method DrawObject(obj: RO.RenderObject, cmd: CommandBuffer, frame: RO.Frame, frameIndex: nat, cache: RO.DrawCache,
                    offsets: Option<seq<nat>>, instance: nat) returns (r: Result<()>)
    requires RO.OffsetsReadable(obj, cache.State(), frameIndex, offsets)
    modifies cmd, cache
    ensures var o := RO.DrawPlan(obj, old(cache.State()), frame, frameIndex, offsets, instance);
            && cmd.commands == old(cmd.commands) + o.commands
            && cache.State() == o.state
            && r == o.result
  {
    var st := RO.DrawState(cache.lastModel, cache.lastMaterial);
    RO.RecordPipelineAndPush(obj, cmd, st);
    ghost var prefix := cmd.commands;
    var shouldUpdateModel := cache.lastModel.None? || !RO.SameModel(obj.model, cache.lastModel.value);
    var shouldUpdateMaterial := cache.lastMaterial.None? || obj.material != cache.lastMaterial.value;
    if shouldUpdateModel {
      if shouldUpdateMaterial {
        RO.RecordSets(obj, cmd, frame, frameIndex, offsets.value);
        cache.lastMaterial := Some(obj.material);
      }
      assert cmd.commands == prefix + RO.SetsPart(obj, st, frame, frameIndex, offsets);
      match obj.model.vertexBuffer
      case None =>
        RO.AppendParts(old(cmd.commands), RO.PipelinePart(obj, st), RO.PushPart(obj), RO.SetsPart(obj, st, frame, frameIndex, offsets),
                       RO.VertexPart(obj, st), RO.DrawPart(obj, st, instance));
        return Err("No vertex buffer found");
      case Some(buffer) =>
        cmd.Record(BindVertexBuffers(0, [buffer], [0]));
      cache.lastModel := Some(obj.model);
    }
    assert cmd.commands == prefix + RO.SetsPart(obj, st, frame, frameIndex, offsets) + RO.VertexPart(obj, st);
    cmd.Record(Draw(RO.TotalVertices(obj.model.meshes), 1, 0, instance));
    RO.AppendParts(old(cmd.commands), RO.PipelinePart(obj, st), RO.PushPart(obj), RO.SetsPart(obj, st, frame, frameIndex, offsets),
                   RO.VertexPart(obj, st), RO.DrawPart(obj, st, instance));
    r := Ok(());
  }
}
