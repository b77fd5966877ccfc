// src/renderer/destruction_queue.rs: a FIFO of objects to destroy when the
// renderer shuts down. Each queued object destroys itself on the device;
// here that is one `Destroyed` event for its kind and handle.

module DestructionQueue {
  import opened Gpu

  /** A queued `Rc<dyn Destroy>`: the object its `destroy` releases. */
  datatype Destroyer = Destroyer(kind: ObjectKind, handle: nat)

  /** The events `destroy` produces for each destroyer, in order. */
  function DestroyEvents(ds: seq<Destroyer>): (r: seq<Event>)
    ensures |r| == |ds|
    ensures forall i :: 0 <= i < |ds| ==> r[i] == Destroyed(ds[i].kind, ds[i].handle)
  {
    if ds == [] then [] else DestroyEvents(ds[..|ds| - 1]) + [Destroyed(ds[|ds| - 1].kind, ds[|ds| - 1].handle)]
  }

  /** Destroying two queued runs in turn is destroying their concatenation. */
  lemma {:induction false} DestroyEventsAppend(a: seq<Destroyer>, b: seq<Destroyer>)
    ensures DestroyEvents(a + b) == DestroyEvents(a) + DestroyEvents(b)
    decreases |b|
  {
    if b == [] {
      assert a + b == a;
    } else {
      var b' := b[..|b| - 1];
      assert (a + b)[..|a + b| - 1] == a + b';
      DestroyEventsAppend(a, b');
    }
  }

  class DestructionQueue {
    var destroyers: seq<Destroyer>

    /** `new`: an empty queue. */
    constructor ()
      ensures destroyers == []
    {
      destroyers := [];
    }

    /** `push`: appends at the back, leaving the queued entries as they were. */
    method Push(d: Destroyer)
      modifies this
      ensures destroyers == old(destroyers) + [d]
    {
      destroyers := destroyers + [d];
    }

    /** `flush`: destroys every entry once, front to back, and leaves the queue empty. */
    method Flush(device: Device)
      modifies this, device
      ensures destroyers == []
      ensures device.trace == old(device.trace) + DestroyEvents(old(destroyers))
    {
      var i := 0;
      while i < |destroyers|
        invariant 0 <= i <= |destroyers| && destroyers == old(destroyers)
        invariant device.trace == old(device.trace) + DestroyEvents(destroyers[..i])
      {
        assert destroyers[..i + 1][..i] == destroyers[..i];
        device.Destroy(destroyers[i].kind, destroyers[i].handle);
        i := i + 1;
      }
      assert destroyers[..i] == destroyers;
      destroyers := [];
    }
  }

  /** Pushes followed by one flush destroy in push order; a second flush destroys nothing. */
  method PushPushFlushFlush(device: Device, a: Destroyer, b: Destroyer)
    modifies device
    ensures device.trace == old(device.trace) + [Destroyed(a.kind, a.handle), Destroyed(b.kind, b.handle)]
  {
    var q := new DestructionQueue();
    q.Push(a);
    q.Push(b);
    q.Flush(device);
    q.Flush(device);
  }
}
