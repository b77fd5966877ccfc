// src/renderer/buffer.rs: a GPU buffer with its size and an optional list
// of offsets into it. Creating, binding and freeing the memory is the
// allocator's business; only the bookkeeping is modelled.

module Buffer {
  import opened Vk
  import opened Gpu

  const NO_OFFSETS: string := "No offsets set"
  const INVALID_OFFSET_INDEX: string := "Invalid offset index"

  class AllocatedBuffer {
    var buffer: Handle
    var size: nat
    var offsets: Option<seq<nat>>

    /** `new`: the created buffer with the requested size and no offsets yet. */
    constructor (buffer: Handle, bufferSize: nat)
      ensures this.buffer == buffer && size == bufferSize && offsets == None
    {
      this.buffer := buffer;
      size := bufferSize;
      offsets := None;
    }

    /** `set_offsets`: replaces the offsets, whatever they were. */
    method SetOffsets(list: seq<nat>)
      modifies this
      ensures offsets == Some(list)
      ensures buffer == old(buffer) && size == old(size)
    {
      offsets := Some(list);
    }

    /**
     * `get_offset`: an error when no offsets are set, another when the
     * index is past the list, and otherwise the entry at the index.
     */
    function GetOffset(index: nat): (r: Result<nat>)
      reads this
      ensures offsets.None? ==> r == Err(NO_OFFSETS)
      ensures offsets.Some? && index >= |offsets.value| ==> r == Err(INVALID_OFFSET_INDEX)
      ensures r.Ok? <==> offsets.Some? && index < |offsets.value|
      ensures r.Ok? ==> r.value == offsets.value[index]
    {
      match offsets
      case None => Err(NO_OFFSETS)
      case Some(list) => if index < |list| then Ok(list[index]) else Err(INVALID_OFFSET_INDEX)
    }

    /** `cleanup`: the buffer is destroyed. */
    method Cleanup(device: Device)
      modifies device
      ensures device.trace == old(device.trace) + [Destroyed(Gpu.Buffer, buffer)]
    {
      device.Destroy(Gpu.Buffer, buffer);
    }
  }

  /** After `set_offsets`, every index of the list reads back its own entry. */
  method SetThenGet(b: AllocatedBuffer, list: seq<nat>, index: nat) returns (r: Result<nat>)
    modifies b
    ensures index < |list| ==> r == Ok(list[index])
    ensures index >= |list| ==> r == Err(INVALID_OFFSET_INDEX)
  {
    b.SetOffsets(list);
    r := b.GetOffset(index);
  }
}
