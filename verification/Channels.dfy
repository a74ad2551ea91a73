/** The unbounded channels that tasks and sessions talk through. */
module Channels {
  /** The sending half. A send fails once the receiver is gone. */
  class Channel<T> {
    var queue: seq<T>
    var open: bool

    constructor ()
      ensures queue == [] && open
    {
      queue, open := [], true;
    }

    method Send(message: T) returns (ok: bool)
      modifies this`queue
      ensures ok == open
      ensures queue == if open then old(queue) + [message] else old(queue)
    {
      if open {
        queue := queue + [message];
      }
      return open;
    }
  }
}
