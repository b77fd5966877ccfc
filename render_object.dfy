// src/renderer/render_object.rs: recording one render object's draw, with
// the bind commands it skips when the last model or material drawn already
// set the needed state. The caller's `last_model_drawn` and
// `last_material_drawn` are the fields of a `DrawCache`.

module RenderObject {
  import opened Vk
  import opened Gpu
  import Mesh
  import M = Material

  /** A model as the draw sees it: its meshes and its GPU vertex buffer, if uploaded. */
  datatype DrawnModel = DrawnModel(meshes: seq<Mesh.Mesh>, vertexBuffer: Option<Handle>)

  /** `PartialEq for Model`: the mesh lists are zipped and compared by id, so only the common prefix counts. */
  predicate SameModel(a: DrawnModel, b: DrawnModel)
  {
    forall i :: 0 <= i < |a.meshes| && i < |b.meshes| ==> a.meshes[i].id == b.meshes[i].id
  }

  /** The vertices drawn: the sum of the meshes' vertex counts. */
  function TotalVertices(meshes: seq<Mesh.Mesh>): (n: nat)
    ensures meshes == [] ==> n == 0
    ensures meshes != [] ==> n >= |meshes[|meshes| - 1].vertices|
  {
    if meshes == [] then 0 else TotalVertices(meshes[..|meshes| - 1]) + |meshes[|meshes| - 1].vertices|
  }

  datatype RenderObject = RenderObject(model: DrawnModel, material: M.Material, texture: Option<Handle>, transform: seq<real>)

  /** The descriptor sets of the frame being recorded. */
  datatype Frame = Frame(globalDescSet: Handle, objectDescSet: Handle)

  datatype DrawState = DrawState(lastModel: Option<DrawnModel>, lastMaterial: Option<M.Material>)

  datatype Outcome = Outcome(commands: seq<Command>, state: DrawState, result: Result<()>)

  /** The push constant block: a zero data vector followed by the object's transform. */
  function PushData(transform: seq<real>): (d: seq<real>)
    ensures |d| == 4 + |transform| && d[..4] == [0.0, 0.0, 0.0, 0.0] && d[4..] == transform
  {
    [0.0, 0.0, 0.0, 0.0] + transform
  }

  predicate PipelineChanged(obj: RenderObject, st: DrawState)
  {
    st.lastMaterial.None? || st.lastMaterial.value.pipeline != obj.material.pipeline
  }

  predicate ModelChanged(obj: RenderObject, st: DrawState)
  {
    st.lastModel.None? || !SameModel(obj.model, st.lastModel.value)
  }

  predicate MaterialChanged(obj: RenderObject, st: DrawState)
  {
    st.lastMaterial.None? || obj.material != st.lastMaterial.value
  }

  /** The scene buffer's offsets are read (and unwrapped) only when both model and material changed. */
  predicate OffsetsReadable(obj: RenderObject, st: DrawState, frameIndex: nat, offsets: Option<seq<nat>>)
  {
    ModelChanged(obj, st) && MaterialChanged(obj, st) ==> offsets.Some? && frameIndex + 2 < |offsets.value|
  }

  function SetBinds(obj: RenderObject, frame: Frame, frameIndex: nat, offsets: seq<nat>): (r: seq<Command>)
    requires frameIndex + 2 < |offsets|
    ensures |r| == if obj.texture.Some? then 3 else 2
    ensures forall i :: 0 <= i < |r| ==>
              (r[i].BindDescriptorSets? && r[i].firstSet == i && r[i].layout == obj.material.pipelineLayout)
  {
    var layout := obj.material.pipelineLayout;
    [ BindDescriptorSets(Graphics, layout, 0, [frame.globalDescSet], [offsets[frameIndex], offsets[frameIndex + 2]]),
      BindDescriptorSets(Graphics, layout, 1, [frame.objectDescSet], []) ]
    + (if obj.texture.Some? then [BindDescriptorSets(Graphics, layout, 2, [obj.texture.value], [])] else [])
  }

  function PipelinePart(obj: RenderObject, st: DrawState): seq<Command>
  {
    if PipelineChanged(obj, st) then [BindPipeline(Graphics, obj.material.pipeline)] else []
  }

  function PushPart(obj: RenderObject): seq<Command>
  {
    [PushConstants(obj.material.pipelineLayout, SHADER_STAGE_VERTEX, 0, PushData(obj.transform))]
  }

  function SetsPart(obj: RenderObject, st: DrawState, frame: Frame, frameIndex: nat, offsets: Option<seq<nat>>): seq<Command>
    requires OffsetsReadable(obj, st, frameIndex, offsets)
  {
    if ModelChanged(obj, st) && MaterialChanged(obj, st) then SetBinds(obj, frame, frameIndex, offsets.value) else []
  }

  function VertexPart(obj: RenderObject, st: DrawState): seq<Command>
  {
    if ModelChanged(obj, st) && obj.model.vertexBuffer.Some? then [BindVertexBuffers(0, [obj.model.vertexBuffer.value], [0])] else []
  }

  /** The draw fails only when the model changed and has no vertex buffer. */
  predicate DrawSucceeds(obj: RenderObject, st: DrawState)
  {
    !ModelChanged(obj, st) || obj.model.vertexBuffer.Some?
  }

  function DrawPart(obj: RenderObject, st: DrawState, instance: nat): seq<Command>
  {
    if DrawSucceeds(obj, st) then [Draw(TotalVertices(obj.model.meshes), 1, 0, instance)] else []
  }

  /**
   * `RenderObject::draw`: what is recorded, in order (pipeline, push
   * constants, descriptor sets, vertex buffer, draw, each where it applies),
   * what the cache holds afterwards and the result.
   */
  function DrawPlan(obj: RenderObject, st: DrawState, frame: Frame, frameIndex: nat,
                    offsets: Option<seq<nat>>, instance: nat): (o: Outcome)
    requires OffsetsReadable(obj, st, frameIndex, offsets)
    ensures o.commands == PipelinePart(obj, st) + PushPart(obj) + SetsPart(obj, st, frame, frameIndex, offsets)
                          + VertexPart(obj, st) + DrawPart(obj, st, instance)
  {
    var commands := PipelinePart(obj, st) + PushPart(obj) + SetsPart(obj, st, frame, frameIndex, offsets)
                    + VertexPart(obj, st) + DrawPart(obj, st, instance);
    var material := if ModelChanged(obj, st) && MaterialChanged(obj, st) then Some(obj.material) else st.lastMaterial;
    if DrawSucceeds(obj, st) then
      var model := if ModelChanged(obj, st) then Some(obj.model) else st.lastModel;
      Outcome(commands, DrawState(model, material), Ok(()))
    else
      Outcome(commands, DrawState(st.lastModel, material), Err("No vertex buffer found"))
  }

  /**
   * What a draw promises: the pipeline bind first when it changed, the push
   * constants right after it, the cached material replaced only when both
   * model and material changed, failure exactly when a changed model has no
   * vertex buffer (the cached model then kept), and success ending in a draw
   * of every mesh vertex.
   */
  lemma DrawPlanPromises(obj: RenderObject, st: DrawState, frame: Frame, frameIndex: nat,
                         offsets: Option<seq<nat>>, instance: nat)
    requires OffsetsReadable(obj, st, frameIndex, offsets)
    ensures var o := DrawPlan(obj, st, frame, frameIndex, offsets, instance);
            && (PipelineChanged(obj, st) ==> |o.commands| > 0 && o.commands[0] == BindPipeline(Graphics, obj.material.pipeline))
            && (var p := if PipelineChanged(obj, st) then 1 else 0;
                p < |o.commands| && o.commands[p] == PushConstants(obj.material.pipelineLayout, SHADER_STAGE_VERTEX, 0, PushData(obj.transform)))
            && o.state.lastMaterial == (if ModelChanged(obj, st) && MaterialChanged(obj, st) then Some(obj.material) else st.lastMaterial)
            && (o.result.Err? <==> ModelChanged(obj, st) && obj.model.vertexBuffer.None?)
            && (o.result.Err? ==> o.result.msg == "No vertex buffer found" && o.state.lastModel == st.lastModel)
            && (o.result.Ok? ==> o.state.lastModel == if ModelChanged(obj, st) then Some(obj.model) else st.lastModel)
            && (o.result.Ok? ==> |o.commands| > 0 && o.commands[|o.commands| - 1] == Draw(TotalVertices(obj.model.meshes), 1, 0, instance))
  {
  }

  /** The caller's `last_model_drawn` and `last_material_drawn`. */
  class DrawCache {
    var lastModel: Option<DrawnModel>
    var lastMaterial: Option<M.Material>

    constructor ()
      ensures lastModel == None && lastMaterial == None
    {
      lastModel := None;
      lastMaterial := None;
    }

    function State(): DrawState
      reads this
    {
      DrawState(lastModel, lastMaterial)
    }
  }

  /** Records the pipeline bind, if the pipeline changed, then the push constants. */
  method RecordPipelineAndPush(obj: RenderObject, cmd: CommandBuffer, st: DrawState)
    modifies cmd
    ensures cmd.commands == old(cmd.commands) + PipelinePart(obj, st) + PushPart(obj)
  {
    if st.lastMaterial.None? || st.lastMaterial.value.pipeline != obj.material.pipeline {
      cmd.Record(BindPipeline(Graphics, obj.material.pipeline));
    }
    cmd.Record(PushConstants(obj.material.pipelineLayout, SHADER_STAGE_VERTEX, 0, PushData(obj.transform)));
  }

  /** Records the global and object descriptor sets, and the texture's set if there is one. */
  method RecordSets(obj: RenderObject, cmd: CommandBuffer, frame: Frame, frameIndex: nat, offsets: seq<nat>)
    requires frameIndex + 2 < |offsets|
    modifies cmd
    ensures cmd.commands == old(cmd.commands) + SetBinds(obj, frame, frameIndex, offsets)
  {
    var layout := obj.material.pipelineLayout;
    var sceneOffset := offsets[frameIndex];
    var cameraOffset := offsets[frameIndex + 2];
    cmd.Record(BindDescriptorSets(Graphics, layout, 0, [frame.globalDescSet], [sceneOffset, cameraOffset]));
    cmd.Record(BindDescriptorSets(Graphics, layout, 1, [frame.objectDescSet], []));
    if obj.texture.Some? {
      cmd.Record(BindDescriptorSets(Graphics, layout, 2, [obj.texture.value], []));
    }
  }

  /** `RenderObject::draw` itself, recording into `cmd` and updating `cache` as `DrawPlan` says. */
  method DrawObject(obj: RenderObject, cmd: CommandBuffer, frame: Frame, frameIndex: nat, cache: DrawCache,
                    offsets: Option<seq<nat>>, instance: nat) returns (r: Result<()>)
    requires OffsetsReadable(obj, cache.State(), frameIndex, offsets)
    modifies cmd, cache
    ensures var o := DrawPlan(obj, old(cache.State()), frame, frameIndex, offsets, instance);
            && cmd.commands == old(cmd.commands) + o.commands
            && cache.State() == o.state
            && r == o.result
  {
    var st := DrawState(cache.lastModel, cache.lastMaterial);
    RecordPipelineAndPush(obj, cmd, st);
    ghost var prefix := cmd.commands;
    var modelChanged := cache.lastModel.None? || !SameModel(obj.model, cache.lastModel.value);
    var materialChanged := cache.lastMaterial.None? || obj.material != cache.lastMaterial.value;
    if modelChanged {
      if materialChanged {
        RecordSets(obj, cmd, frame, frameIndex, offsets.value);
        cache.lastMaterial := Some(obj.material);
      }
      assert cmd.commands == prefix + SetsPart(obj, st, frame, frameIndex, offsets);
      if obj.model.vertexBuffer.None? {
        AppendParts(old(cmd.commands), PipelinePart(obj, st), PushPart(obj), SetsPart(obj, st, frame, frameIndex, offsets),
                    VertexPart(obj, st), DrawPart(obj, st, instance));
        return Err("No vertex buffer found");
      }
      cmd.Record(BindVertexBuffers(0, [obj.model.vertexBuffer.value], [0]));
      cache.lastModel := Some(obj.model);
    }
    assert cmd.commands == prefix + SetsPart(obj, st, frame, frameIndex, offsets) + VertexPart(obj, st);
    cmd.Record(Draw(TotalVertices(obj.model.meshes), 1, 0, instance));
    AppendParts(old(cmd.commands), PipelinePart(obj, st), PushPart(obj), SetsPart(obj, st, frame, frameIndex, offsets),
                VertexPart(obj, st), DrawPart(obj, st, instance));
    r := Ok(());
  }

  /** Recording the parts one after another records their concatenation. */
  lemma AppendParts(before: seq<Command>, p: seq<Command>, q: seq<Command>, s: seq<Command>, v: seq<Command>, d: seq<Command>)
    ensures before + p + q + s + v + d == before + (p + q + s + v + d)
  {
  }

  datatype Kind = PipelineBind | PushCall | SetsBind | VertexBind | IndexBind | DrawCall | Copy | RenderPass

  function KindOf(c: Command): Kind
  {
    match c
    case BindPipeline(_, _) => PipelineBind
    case PushConstants(_, _, _, _) => PushCall
    case BindDescriptorSets(_, _, _, _, _) => SetsBind
    case BindVertexBuffers(_, _, _) => VertexBind
    case BindIndexBuffer(_, _) => IndexBind
    case Draw(_, _, _, _) => DrawCall
    case DrawIndexed(_, _, _, _, _) => DrawCall
    case CopyBuffer(_, _, _) => Copy
    case CopyImage(_, _, _, _) => Copy
    case BeginRenderPass(_, _) => RenderPass
    case EndRenderPass => RenderPass
  }

  /** The kinds of the commands in `cmds`, in order. */
  function Kinds(cmds: seq<Command>): (r: seq<Kind>)
    ensures |r| == |cmds|
    ensures forall i :: 0 <= i < |cmds| ==> r[i] == KindOf(cmds[i])
  {
    seq(|cmds|, i requires 0 <= i < |cmds| => KindOf(cmds[i]))
  }

  lemma KindsAppend(a: seq<Command>, b: seq<Command>)
    ensures Kinds(a + b) == Kinds(a) + Kinds(b)
  {
    assert forall i :: 0 <= i < |a + b| ==> Kinds(a + b)[i] == (Kinds(a) + Kinds(b))[i];
  }

  /** Whether a command of kind `k` occurs in `cmds`. */
  predicate Records(cmds: seq<Command>, k: Kind)
  {
    k in Kinds(cmds)
  }

  /** Every model is equal to itself under the zip comparison. */
  lemma SameModelReflexive(m: DrawnModel)
    ensures SameModel(m, m)
  {
  }

  /** The kinds recorded by a draw, part by part. */
  lemma {:induction false} PlanKinds(obj: RenderObject, st: DrawState, frame: Frame, frameIndex: nat,
                                     offsets: Option<seq<nat>>, instance: nat)
    requires OffsetsReadable(obj, st, frameIndex, offsets)
    ensures Kinds(DrawPlan(obj, st, frame, frameIndex, offsets, instance).commands)
            == (if PipelineChanged(obj, st) then [PipelineBind] else []) + [PushCall]
               + Kinds(SetsPart(obj, st, frame, frameIndex, offsets))
               + (if ModelChanged(obj, st) && obj.model.vertexBuffer.Some? then [VertexBind] else [])
               + (if DrawSucceeds(obj, st) then [DrawCall] else [])
  {
    var p, q, r, v, d := PipelinePart(obj, st), PushPart(obj), SetsPart(obj, st, frame, frameIndex, offsets),
                         VertexPart(obj, st), DrawPart(obj, st, instance);
    KindsAppend(p, q);
    KindsAppend(p + q, r);
    KindsAppend(p + q + r, v);
    KindsAppend(p + q + r + v, d);
    assert Kinds(p) == if PipelineChanged(obj, st) then [PipelineBind] else [];
    assert Kinds(q) == [PushCall];
    assert Kinds(v) == if ModelChanged(obj, st) && obj.model.vertexBuffer.Some? then [VertexBind] else [];
    assert Kinds(d) == if DrawSucceeds(obj, st) then [DrawCall] else [];
  }

  /** The descriptor-set part holds only set binds, and some iff both model and material changed. */
  lemma SetsPartKinds(obj: RenderObject, st: DrawState, frame: Frame, frameIndex: nat, offsets: Option<seq<nat>>)
    requires OffsetsReadable(obj, st, frameIndex, offsets)
    ensures forall k :: k in Kinds(SetsPart(obj, st, frame, frameIndex, offsets)) ==> k == SetsBind
    ensures SetsBind in Kinds(SetsPart(obj, st, frame, frameIndex, offsets)) <==> ModelChanged(obj, st) && MaterialChanged(obj, st)
  {
    var r := SetsPart(obj, st, frame, frameIndex, offsets);
    if ModelChanged(obj, st) && MaterialChanged(obj, st) {
      assert Kinds(r)[0] == SetsBind;
    }
  }

  /**
   * Which binds a draw records: the pipeline iff there is no last material or
   * its pipeline differs; descriptor sets iff both model and material
   * changed; the vertex buffer iff the model changed and has one; a draw iff
   * the call succeeds. Push constants are recorded every time.
   */
  lemma RecordedBinds(obj: RenderObject, st: DrawState, frame: Frame, frameIndex: nat,
                      offsets: Option<seq<nat>>, instance: nat)
    requires OffsetsReadable(obj, st, frameIndex, offsets)
    ensures var o := DrawPlan(obj, st, frame, frameIndex, offsets, instance);
            && (Records(o.commands, PipelineBind) <==> PipelineChanged(obj, st))
            && Records(o.commands, PushCall)
            && (Records(o.commands, SetsBind) <==> ModelChanged(obj, st) && MaterialChanged(obj, st))
            && (Records(o.commands, VertexBind) <==> ModelChanged(obj, st) && obj.model.vertexBuffer.Some?)
            && (Records(o.commands, DrawCall) <==> o.result.Ok?)
  {
    PlanKinds(obj, st, frame, frameIndex, offsets, instance);
    SetsPartKinds(obj, st, frame, frameIndex, offsets);
    var p: seq<Kind> := if PipelineChanged(obj, st) then [PipelineBind] else [];
    var s := Kinds(SetsPart(obj, st, frame, frameIndex, offsets));
    var v: seq<Kind> := if ModelChanged(obj, st) && obj.model.vertexBuffer.Some? then [VertexBind] else [];
    var d: seq<Kind> := if DrawSucceeds(obj, st) then [DrawCall] else [];
    InParts(p, [PushCall], s, v, d, PipelineBind);
    InParts(p, [PushCall], s, v, d, PushCall);
    InParts(p, [PushCall], s, v, d, SetsBind);
    InParts(p, [PushCall], s, v, d, VertexBind);
    InParts(p, [PushCall], s, v, d, DrawCall);
    PlanSucceeds(obj, st, frame, frameIndex, offsets, instance);
  }

  /** A draw succeeds exactly when the model is unchanged or has a vertex buffer. */
  lemma PlanSucceeds(obj: RenderObject, st: DrawState, frame: Frame, frameIndex: nat,
                     offsets: Option<seq<nat>>, instance: nat)
    requires OffsetsReadable(obj, st, frameIndex, offsets)
    ensures DrawPlan(obj, st, frame, frameIndex, offsets, instance).result.Ok? <==> DrawSucceeds(obj, st)
  {
    DrawPlanPromises(obj, st, frame, frameIndex, offsets, instance);
  }

  /** A kind occurs in a concatenation of five parts iff it occurs in one of them. */
  lemma InParts(a: seq<Kind>, b: seq<Kind>, c: seq<Kind>, d: seq<Kind>, e: seq<Kind>, k: Kind)
    ensures k in a + b + c + d + e <==> k in a || k in b || k in c || k in d || k in e
  {
  }

  /**
   * Drawing the same object again right after a successful draw that found
   * the model changed records only the push constants and the draw.
   */
  lemma RedrawRecordsOnlyPushAndDraw(obj: RenderObject, st: DrawState, frame: Frame, frameIndex: nat,
                                     offsets: Option<seq<nat>>, instance: nat, next: nat)
    requires OffsetsReadable(obj, st, frameIndex, offsets)
    requires ModelChanged(obj, st)
    requires DrawPlan(obj, st, frame, frameIndex, offsets, instance).result.Ok?
    ensures var st' := DrawPlan(obj, st, frame, frameIndex, offsets, instance).state;
            && OffsetsReadable(obj, st', frameIndex, offsets)
            && DrawPlan(obj, st', frame, frameIndex, offsets, next).commands
               == [PushConstants(obj.material.pipelineLayout, SHADER_STAGE_VERTEX, 0, PushData(obj.transform)),
                   Draw(TotalVertices(obj.model.meshes), 1, 0, next)]
  {
    var st' := DrawPlan(obj, st, frame, frameIndex, offsets, instance).state;
    SameModelReflexive(obj.model);
    assert !ModelChanged(obj, st');
    assert !PipelineChanged(obj, st');
  }

  /**
   * A material change on an unchanged model records a pipeline bind when the
   * pipelines differ but leaves the cached material stale, so the next
   * object with the same material binds the pipeline again.
   */
  lemma StaleMaterialRebindsPipeline(obj: RenderObject, st: DrawState, frame: Frame, frameIndex: nat,
                                     offsets: Option<seq<nat>>, instance: nat, next: nat)
    requires OffsetsReadable(obj, st, frameIndex, offsets)
    requires !ModelChanged(obj, st) && st.lastMaterial.Some? && st.lastMaterial.value.pipeline != obj.material.pipeline
    ensures var st' := DrawPlan(obj, st, frame, frameIndex, offsets, instance).state;
            && st' == st
            && OffsetsReadable(obj, st', frameIndex, offsets)
            && DrawPlan(obj, st', frame, frameIndex, offsets, next).commands[0] == BindPipeline(Graphics, obj.material.pipeline)
  {
  }
}
