/** The mpsc channel that carries readings from the watcher to the consumer loop. */
module Channels {
  import opened Options

  /**
   * An unbounded FIFO channel; `queue` holds what was sent and not yet
   * received. Neither end is ever dropped while the daemon runs, so sends
   * always succeed and receives never report a disconnection.
   */
  class Channel<T> {
    var queue: seq<T>

    constructor ()
      ensures queue == []
    {
      queue := [];
    }

    /** `Sender::send`: appends `x` behind everything already queued. */
    method Send(x: T)
      modifies this
      ensures queue == old(queue) + [x]
    {
      queue := queue + [x];
    }

    /** Several sends by the producer, in order, while the consumer sleeps. */
    method SendAll(xs: seq<T>)
      modifies this
      ensures queue == old(queue) + xs
    {
      queue := queue + xs;
    }

    /**
     * `Receiver::recv` at the moment it returns: the consumer stays blocked
     * until a value is queued, so the call is modelled from that point on.
     */
    method Recv() returns (v: T)
      requires queue != []
      modifies this
      ensures [v] + queue == old(queue)
    {
      v := queue[0];
      queue := queue[1..];
    }

    /** `Receiver::try_recv`: the head of the queue, or nothing when it is empty. */
    method TryRecv() returns (r: Option<T>)
      modifies this
      ensures old(queue) == [] ==> r == None && queue == []
      ensures old(queue) != [] ==> r == Some(old(queue)[0]) && queue == old(queue)[1..]
    {
      if queue == [] {
        r := None;
      } else {
        r := Some(queue[0]);
        queue := queue[1..];
      }
    }
  }
}
