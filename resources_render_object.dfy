// src/renderer/resources/render_object.rs: the variant of
// `RenderObject::draw` that caches only the last model. It never binds a
// pipeline and binds the descriptor sets whenever the model changed.

module ResourcesRenderObject {
  import opened Vk
  import opened Gpu
  import RO = RenderObject

  datatype RenderObject = RenderObject(model: RO.DrawnModel, pipelineLayout: Handle, transform: seq<real>)

  datatype Outcome = Outcome(commands: seq<Command>, lastModel: Option<RO.DrawnModel>, result: Result<()>)

  predicate ModelChanged(obj: RenderObject, lastModel: Option<RO.DrawnModel>)
  {
    lastModel.None? || !RO.SameModel(obj.model, lastModel.value)
  }

  /** The scene buffer's offsets are read (and unwrapped) whenever the model changed. */
  predicate OffsetsReadable(obj: RenderObject, lastModel: Option<RO.DrawnModel>, frameIndex: nat, offsets: Option<seq<nat>>)
  {
    ModelChanged(obj, lastModel) ==> offsets.Some? && frameIndex + 2 < |offsets.value|
  }

  function PushPart(obj: RenderObject): seq<Command>
  {
    [PushConstants(obj.pipelineLayout, SHADER_STAGE_VERTEX, 0, RO.PushData(obj.transform))]
  }

  function SetsPart(obj: RenderObject, lastModel: Option<RO.DrawnModel>, frame: RO.Frame, frameIndex: nat,
                    offsets: Option<seq<nat>>): seq<Command>
    requires OffsetsReadable(obj, lastModel, frameIndex, offsets)
  {
    if ModelChanged(obj, lastModel) then
      [ BindDescriptorSets(Graphics, obj.pipelineLayout, 0, [frame.globalDescSet],
                           [offsets.value[frameIndex], offsets.value[frameIndex + 2]]),
        BindDescriptorSets(Graphics, obj.pipelineLayout, 1, [frame.objectDescSet], []) ]
    else []
  }

  function VertexPart(obj: RenderObject, lastModel: Option<RO.DrawnModel>): seq<Command>
  {
    if ModelChanged(obj, lastModel) && obj.model.vertexBuffer.Some? then
      [BindVertexBuffers(0, [obj.model.vertexBuffer.value], [0])]
    else []
  }

  predicate DrawSucceeds(obj: RenderObject, lastModel: Option<RO.DrawnModel>)
  {
    !ModelChanged(obj, lastModel) || obj.model.vertexBuffer.Some?
  }

  function DrawPart(obj: RenderObject, lastModel: Option<RO.DrawnModel>, instance: nat): seq<Command>
  {
    if DrawSucceeds(obj, lastModel) then [Draw(RO.TotalVertices(obj.model.meshes), 1, 0, instance)] else []
  }

  /** `RenderObject::draw` of this variant: push constants, then sets and vertex buffer on a model change, then the draw. */
  function DrawPlan(obj: RenderObject, lastModel: Option<RO.DrawnModel>, frame: RO.Frame, frameIndex: nat,
                    offsets: Option<seq<nat>>, instance: nat): (o: Outcome)
    requires OffsetsReadable(obj, lastModel, frameIndex, offsets)
    ensures o.commands == PushPart(obj) + SetsPart(obj, lastModel, frame, frameIndex, offsets)
                          + VertexPart(obj, lastModel) + DrawPart(obj, lastModel, instance)
  {
    var commands := PushPart(obj) + SetsPart(obj, lastModel, frame, frameIndex, offsets)
                    + VertexPart(obj, lastModel) + DrawPart(obj, lastModel, instance);
    if DrawSucceeds(obj, lastModel) then
      Outcome(commands, if ModelChanged(obj, lastModel) then Some(obj.model) else lastModel, Ok(()))
    else
      Outcome(commands, lastModel, Err("No vertex buffer found"))
  }

  /**
   * What a draw of this variant promises: push constants first, failure
   * exactly when a changed model has no vertex buffer (the cached model then
   * kept), and success ending in a draw of every mesh vertex.
   */
  lemma DrawPlanPromises(obj: RenderObject, lastModel: Option<RO.DrawnModel>, frame: RO.Frame, frameIndex: nat,
                         offsets: Option<seq<nat>>, instance: nat)
    requires OffsetsReadable(obj, lastModel, frameIndex, offsets)
    ensures var o := DrawPlan(obj, lastModel, frame, frameIndex, offsets, instance);
            && |o.commands| > 0
            && o.commands[0] == PushConstants(obj.pipelineLayout, SHADER_STAGE_VERTEX, 0, RO.PushData(obj.transform))
            && (o.result.Err? <==> ModelChanged(obj, lastModel) && obj.model.vertexBuffer.None?)
            && (o.result.Err? ==> o.result.msg == "No vertex buffer found" && o.lastModel == lastModel)
            && (o.result.Ok? ==> o.lastModel == if ModelChanged(obj, lastModel) then Some(obj.model) else lastModel)
            && (o.result.Ok? ==> o.commands[|o.commands| - 1] == Draw(RO.TotalVertices(obj.model.meshes), 1, 0, instance))
  {
  }

  /** Recording the parts one after another records their concatenation. */
  lemma AppendParts(before: seq<Command>, p: seq<Command>, s: seq<Command>, v: seq<Command>, d: seq<Command>)
    ensures before + p + s + v + d == before + (p + s + v + d)
  {
  }

  /** The caller's `last_model_drawn`. */
  class ModelCache {
    var lastModel: Option<RO.DrawnModel>

    constructor ()
      ensures lastModel == None
    {
      lastModel := None;
    }
  }

  method DrawObject(obj: RenderObject, cmd: CommandBuffer, frame: RO.Frame, frameIndex: nat, cache: ModelCache,
                    offsets: Option<seq<nat>>, instance: nat) returns (r: Result<()>)
    requires OffsetsReadable(obj, cache.lastModel, frameIndex, offsets)
    modifies cmd, cache
    ensures var o := DrawPlan(obj, old(cache.lastModel), frame, frameIndex, offsets, instance);
            && cmd.commands == old(cmd.commands) + o.commands
            && cache.lastModel == o.lastModel
            && r == o.result
  {
    ghost var last := cache.lastModel;
    cmd.Record(PushConstants(obj.pipelineLayout, SHADER_STAGE_VERTEX, 0, RO.PushData(obj.transform)));
    ghost var prefix := cmd.commands;
    var shouldUpdateModel := cache.lastModel.None? || !RO.SameModel(obj.model, cache.lastModel.value);
    if shouldUpdateModel {
      var sceneOffset := offsets.value[frameIndex];
      var cameraOffset := offsets.value[frameIndex + 2];
      cmd.Record(BindDescriptorSets(Graphics, obj.pipelineLayout, 0, [frame.globalDescSet], [sceneOffset, cameraOffset]));
      cmd.Record(BindDescriptorSets(Graphics, obj.pipelineLayout, 1, [frame.objectDescSet], []));
      if obj.model.vertexBuffer.None? {
        AppendParts(old(cmd.commands), PushPart(obj), SetsPart(obj, last, frame, frameIndex, offsets),
                    VertexPart(obj, last), DrawPart(obj, last, instance));
        return Err("No vertex buffer found");
      }
      cmd.Record(BindVertexBuffers(0, [obj.model.vertexBuffer.value], [0]));
      cache.lastModel := Some(obj.model);
    }
    assert cmd.commands == prefix + SetsPart(obj, last, frame, frameIndex, offsets) + VertexPart(obj, last);
    cmd.Record(Draw(RO.TotalVertices(obj.model.meshes), 1, 0, instance));
    AppendParts(old(cmd.commands), PushPart(obj), SetsPart(obj, last, frame, frameIndex, offsets),
                VertexPart(obj, last), DrawPart(obj, last, instance));
    r := Ok(());
  }

  /** The kinds recorded by a draw, part by part. */
  lemma {:induction false} PlanKinds(obj: RenderObject, lastModel: Option<RO.DrawnModel>, frame: RO.Frame,
                                     frameIndex: nat, offsets: Option<seq<nat>>, instance: nat)
    requires OffsetsReadable(obj, lastModel, frameIndex, offsets)
    ensures RO.Kinds(DrawPlan(obj, lastModel, frame, frameIndex, offsets, instance).commands)
            == [RO.PushCall] + RO.Kinds(SetsPart(obj, lastModel, frame, frameIndex, offsets))
               + (if ModelChanged(obj, lastModel) && obj.model.vertexBuffer.Some? then [RO.VertexBind] else [])
               + (if DrawSucceeds(obj, lastModel) then [RO.DrawCall] else [])
  {
    var p, s, v, d := PushPart(obj), SetsPart(obj, lastModel, frame, frameIndex, offsets),
                      VertexPart(obj, lastModel), DrawPart(obj, lastModel, instance);
    RO.KindsAppend(p, s);
    RO.KindsAppend(p + s, v);
    RO.KindsAppend(p + s + v, d);
    assert RO.Kinds(p) == [RO.PushCall];
    assert RO.Kinds(v) == if ModelChanged(obj, lastModel) && obj.model.vertexBuffer.Some? then [RO.VertexBind] else [];
    assert RO.Kinds(d) == if DrawSucceeds(obj, lastModel) then [RO.DrawCall] else [];
  }

  /**
   * No pipeline is ever bound; push constants are recorded every time; the
   * descriptor sets iff the model changed; the vertex buffer iff the model
   * changed and has one; a draw iff the call succeeds.
   */
  lemma RecordedBinds(obj: RenderObject, lastModel: Option<RO.DrawnModel>, frame: RO.Frame,
                      frameIndex: nat, offsets: Option<seq<nat>>, instance: nat)
    requires OffsetsReadable(obj, lastModel, frameIndex, offsets)
    ensures var o := DrawPlan(obj, lastModel, frame, frameIndex, offsets, instance);
            && !RO.Records(o.commands, RO.PipelineBind)
            && RO.Records(o.commands, RO.PushCall)
            && (RO.Records(o.commands, RO.SetsBind) <==> ModelChanged(obj, lastModel))
            && (RO.Records(o.commands, RO.VertexBind) <==> ModelChanged(obj, lastModel) && obj.model.vertexBuffer.Some?)
            && (RO.Records(o.commands, RO.DrawCall) <==> o.result.Ok?)
  {
    PlanKinds(obj, lastModel, frame, frameIndex, offsets, instance);
    var ks := RO.Kinds(SetsPart(obj, lastModel, frame, frameIndex, offsets));
    assert forall k :: k in ks ==> k == RO.SetsBind;
    if ModelChanged(obj, lastModel) {
      assert ks[0] == RO.SetsBind;
    }
    var v: seq<RO.Kind> := if ModelChanged(obj, lastModel) && obj.model.vertexBuffer.Some? then [RO.VertexBind] else [];
    var d: seq<RO.Kind> := if DrawSucceeds(obj, lastModel) then [RO.DrawCall] else [];
    InParts([RO.PushCall], ks, v, d, RO.PipelineBind);
    InParts([RO.PushCall], ks, v, d, RO.PushCall);
    InParts([RO.PushCall], ks, v, d, RO.SetsBind);
    InParts([RO.PushCall], ks, v, d, RO.VertexBind);
    InParts([RO.PushCall], ks, v, d, RO.DrawCall);
    DrawPlanPromises(obj, lastModel, frame, frameIndex, offsets, instance);
  }

  /** A kind occurs in a concatenation of four parts iff it occurs in one of them. */
  lemma InParts(a: seq<RO.Kind>, b: seq<RO.Kind>, c: seq<RO.Kind>, d: seq<RO.Kind>, k: RO.Kind)
    ensures k in a + b + c + d <==> k in a || k in b || k in c || k in d
  {
  }

  /** Once a model is drawn, drawing it again records only the push constants and the draw. */
  lemma RedrawRecordsOnlyPushAndDraw(obj: RenderObject, lastModel: Option<RO.DrawnModel>, frame: RO.Frame,
                                     frameIndex: nat, offsets: Option<seq<nat>>, instance: nat, next: nat)
    requires OffsetsReadable(obj, lastModel, frameIndex, offsets)
    requires DrawPlan(obj, lastModel, frame, frameIndex, offsets, instance).result.Ok?
    requires ModelChanged(obj, lastModel)
    ensures var m := DrawPlan(obj, lastModel, frame, frameIndex, offsets, instance).lastModel;
            && OffsetsReadable(obj, m, frameIndex, offsets)
            && DrawPlan(obj, m, frame, frameIndex, offsets, next).commands
               == [PushConstants(obj.pipelineLayout, SHADER_STAGE_VERTEX, 0, RO.PushData(obj.transform)),
                   Draw(RO.TotalVertices(obj.model.meshes), 1, 0, next)]
  {
    RO.SameModelReflexive(obj.model);
  }
}
