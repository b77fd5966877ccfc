// src/renderer/render_resources.rs: the shared registry of models,
// textures, materials, samplers (one per filter) and descriptor set
// layouts, and its cleanup. Models and textures appear by handle; their own
// cleanup is one `Destroyed` event each.

module RenderResources {
  import opened Vk
  import opened Gpu
  import VkInit
  import M = Material

  const SAMPLER_EXISTS: string := "Sampler already exists"

  /** The events destroying the values of `m` keyed by `order`, in that order. */
  function DrainEvents<K>(kind: ObjectKind, m: map<K, Handle>, order: seq<K>): (r: seq<Event>)
    requires forall i :: 0 <= i < |order| ==> order[i] in m
    ensures |r| == |order|
    ensures forall i :: 0 <= i < |order| ==> r[i] == Destroyed(kind, m[order[i]])
  {
    seq(|order|, i requires 0 <= i < |order| => Destroyed(kind, m[order[i]]))
  }

  /** `Material::cleanup`: its pipeline layout, then its pipeline. */
  function MaterialEvents(m: M.Material): seq<Event>
  {
    [Destroyed(PipelineLayout, m.pipelineLayout), Destroyed(Pipeline, m.pipeline)]
  }

  function MaterialDrainEvents(m: map<string, M.Material>, order: seq<string>): (r: seq<Event>)
    requires forall i :: 0 <= i < |order| ==> order[i] in m
    ensures |r| == 2 * |order|
  {
    if order == [] then []
    else MaterialDrainEvents(m, order[..|order| - 1]) + MaterialEvents(m[order[|order| - 1]])
  }

  lemma MaterialDrainAppend(m: map<string, M.Material>, order: seq<string>, k: string)
    requires forall i :: 0 <= i < |order| ==> order[i] in m
    requires k in m
    ensures MaterialDrainEvents(m, order + [k]) == MaterialDrainEvents(m, order) + MaterialEvents(m[k])
  {
    assert (order + [k])[..|order|] == order;
  }

  lemma Assoc<T>(a: seq<T>, b: seq<T>, c: seq<T>)
    ensures a + b + c == a + (b + c)
  {
  }

  /** `order` lists every key of `m` exactly once. */
  ghost predicate Enumerates<K(!new)>(order: seq<K>, m: map<K, Handle>)
  {
    && (forall k :: k in m <==> k in order)
    && (forall i, j :: 0 <= i < j < |order| ==> order[i] != order[j])
  }

  /** `drain()` of a handle map, destroying each value: every entry once, in the map's own order. */
  method DrainHandles<K(!new)>(m: map<K, Handle>, kind: ObjectKind, device: Device) returns (ghost order: seq<K>)
    modifies device
    ensures Enumerates(order, m)
    ensures forall i :: 0 <= i < |order| ==> order[i] in m
    ensures device.trace == old(device.trace) + DrainEvents(kind, m, order)
  {
    var remaining := m.Keys;
    ghost var done: set<K> := {};
    order := [];
    while remaining != {}
      invariant remaining == m.Keys - done && done <= m.Keys
      invariant forall k :: k in done <==> k in order
      invariant forall i, j :: 0 <= i < j < |order| ==> order[i] != order[j]
      invariant device.trace == old(device.trace) + DrainEvents(kind, m, order)
      decreases remaining
    {
      var k :| k in remaining;
      device.Destroy(kind, m[k]);
      assert DrainEvents(kind, m, order + [k]) == DrainEvents(kind, m, order) + [Destroyed(kind, m[k])];
      Assoc(old(device.trace), DrainEvents(kind, m, order), [Destroyed(kind, m[k])]);
      order := order + [k];
      done := done + {k};
      remaining := remaining - {k};
    }
  }

  /** The same for the materials, each destroying its layout and pipeline. */
  method DrainMaterials(m: map<string, M.Material>, device: Device) returns (ghost order: seq<string>)
    modifies device
    ensures forall k :: k in m <==> k in order
    ensures forall i, j :: 0 <= i < j < |order| ==> order[i] != order[j]
    ensures forall i :: 0 <= i < |order| ==> order[i] in m
    ensures device.trace == old(device.trace) + MaterialDrainEvents(m, order)
  {
    var remaining := m.Keys;
    ghost var done: set<string> := {};
    order := [];
    while remaining != {}
      invariant remaining == m.Keys - done && done <= m.Keys
      invariant forall k :: k in done <==> k in order
      invariant forall i, j :: 0 <= i < j < |order| ==> order[i] != order[j]
      invariant device.trace == old(device.trace) + MaterialDrainEvents(m, order)
      decreases remaining
    {
      var k :| k in remaining;
      CleanupMaterial(m[k], device);
      MaterialDrainAppend(m, order, k);
      Assoc(old(device.trace), MaterialDrainEvents(m, order), MaterialEvents(m[k]));
      order := order + [k];
      done := done + {k};
      remaining := remaining - {k};
    }
  }

  /** `Material::cleanup` on the device. */
  method CleanupMaterial(mat: M.Material, device: Device)
    modifies device
    ensures device.trace == old(device.trace) + MaterialEvents(mat)
  {
    device.Destroy(PipelineLayout, mat.pipelineLayout);
    device.Destroy(Pipeline, mat.pipeline);
  }

  class RenderResources {
    var models: map<string, Handle>
    var textures: map<string, Handle>
    var materials: map<string, M.Material>
    var samplers: map<Filter, Handle>
    var descSetLayouts: map<string, Handle>

    /** `Default`: all five maps empty. */
    constructor ()
      ensures models == map[] && textures == map[] && materials == map[]
      ensures samplers == map[] && descSetLayouts == map[]
    {
      models, textures, materials, samplers, descSetLayouts := map[], map[], map[], map[], map[];
    }

    /**
     * `create_sampler`: refused if the filter already has a sampler, with
     * nothing changed; otherwise a sampler with that filter and REPEAT
     * addressing is created and stored under the filter, and nothing else
     * changes. `newSampler` is the handle the device returns.
     */
    method CreateSampler(filter: Filter, device: Device, newSampler: Handle) returns (r: Result<()>)
      modifies this, device
      ensures models == old(models) && textures == old(textures) && materials == old(materials)
      ensures descSetLayouts == old(descSetLayouts)
      ensures r.Err? <==> filter in old(samplers)
      ensures r.Err? ==> r.msg == SAMPLER_EXISTS && samplers == old(samplers) && device.trace == old(device.trace)
      ensures r.Ok? ==> samplers == old(samplers)[filter := newSampler] && samplers.Keys == old(samplers).Keys + {filter}
      ensures r.Ok? ==> device.trace == old(device.trace) + [SamplerCreated(newSampler, VkInit.SamplerCreate(filter, Repeat))]
    {
      if filter in samplers {
        return Err(SAMPLER_EXISTS);
      }
      var info := VkInit.SamplerCreate(filter, Repeat);
      device.CreateSampler(info, newSampler);
      samplers := samplers[filter := newSampler];
      r := Ok(());
    }

    /**
     * `cleanup`: drains the models, textures, materials, samplers and
     * layouts, in that order, destroying every element once, and leaves all
     * five maps empty.
     */
    method Cleanup(device: Device)
      returns (ghost modelOrder: seq<string>, ghost textureOrder: seq<string>, ghost materialOrder: seq<string>,
               ghost samplerOrder: seq<Filter>, ghost layoutOrder: seq<string>)
      modifies this, device
      ensures models == map[] && textures == map[] && materials == map[]
      ensures samplers == map[] && descSetLayouts == map[]
      ensures Enumerates(modelOrder, old(models)) && Enumerates(textureOrder, old(textures))
      ensures Enumerates(samplerOrder, old(samplers)) && Enumerates(layoutOrder, old(descSetLayouts))
      ensures forall k :: k in old(materials) <==> k in materialOrder
      ensures forall i, j :: 0 <= i < j < |materialOrder| ==> materialOrder[i] != materialOrder[j]
      ensures device.trace == old(device.trace)
                              + DrainEvents(Model, old(models), modelOrder)
                              + DrainEvents(Texture, old(textures), textureOrder)
                              + MaterialDrainEvents(old(materials), materialOrder)
                              + DrainEvents(Sampler, old(samplers), samplerOrder)
                              + DrainEvents(DescriptorSetLayout, old(descSetLayouts), layoutOrder)
    {
      modelOrder := DrainHandles(models, Model, device);
      models := map[];
      textureOrder := DrainHandles(textures, Texture, device);
      textures := map[];
      materialOrder := DrainMaterials(materials, device);
      materials := map[];
      samplerOrder := DrainHandles(samplers, Sampler, device);
      samplers := map[];
      layoutOrder := DrainHandles(descSetLayouts, DescriptorSetLayout, device);
      descSetLayouts := map[];
    }
  }

  /** A drain destroys each value exactly as often as keys map to it: no value is skipped or destroyed twice per key. */
  lemma DrainDestroysEachKeyOnce<K(!new)>(kind: ObjectKind, m: map<K, Handle>, order: seq<K>, k: K)
    requires Enumerates(order, m) && k in m
    ensures forall i :: 0 <= i < |order| ==> order[i] in m
    ensures exists i :: 0 <= i < |order| && order[i] == k && DrainEvents(kind, m, order)[i] == Destroyed(kind, m[k])
  {
    var i :| 0 <= i < |order| && order[i] == k;
  }
}
