// src/renderer/deletion_queue.rs: a FIFO of plain functions to call at
// shutdown. A function is identified by a number; calling it appends that
// number to the log of calls.

module DeletionQueue {

  /** The functions called so far, in order. */
  class CallLog {
    ghost var calls: seq<nat>

    constructor ()
      ensures calls == []
    {
      calls := [];
    }

    method Call(f: nat)
      modifies this
      ensures calls == old(calls) + [f]
    {
      calls := calls + [f];
    }
  }

  class DeletionQueue {
    var deletors: seq<nat>

    /** `new`: an empty queue. */
    constructor ()
      ensures deletors == []
    {
      deletors := [];
    }

    /** `push`: appends at the back. */
    method Push(deletor: nat)
      modifies this
      ensures deletors == old(deletors) + [deletor]
    {
      deletors := deletors + [deletor];
    }

    /** `flush`: calls every deletor once, in FIFO order, and leaves the queue empty. */
    method Flush(log: CallLog)
      modifies this, log
      ensures deletors == []
      ensures log.calls == old(log.calls) + old(deletors)
    {
      var i := 0;
      while i < |deletors|
        invariant 0 <= i <= |deletors| && deletors == old(deletors)
        invariant log.calls == old(log.calls) + deletors[..i]
      {
        assert deletors[..i + 1] == deletors[..i] + [deletors[i]];
        log.Call(deletors[i]);
        i := i + 1;
      }
      assert deletors[..i] == deletors;
      deletors := [];
    }
  }
}
