/** Unbounded channels: any number of senders, one receiver, first in first out. */
module Channels {

  class Channel<T> {
    var queue: seq<T>
    var open: bool

    constructor ()
      ensures queue == [] && open
    {
      queue, open := [], true;
    }

    /** A send fails exactly when the receiver is gone. */
    method Send(x: T) returns (ok: bool)
      modifies this
      ensures open == old(open) && ok == open
      ensures queue == if ok then old(queue) + [x] else old(queue)
    {
      ok := open;
      if open {
        queue := queue + [x];
      }
    }

    method Receive() returns (x: T)
      requires queue != []
      modifies this
      ensures open == old(open)
      ensures old(queue) == [x] + queue
    {
      x := queue[0];
      queue := queue[1..];
    }

    /** Drops the receiver: what is queued is lost and later sends fail. */
    method Close()
      modifies this
      ensures !open && queue == []
    {
      open, queue := false, [];
    }
  }
}
