/** A bounded multi-producer channel (`tokio::sync::mpsc`).

    A send waits for room and fails only when the receiver is gone, and then for good. Other
    tasks run while a send waits; `drained` says how many items the receiver takes meanwhile and
    is rounded up to the least number that makes room. */
module Channels {
  import opened Wrappers

  datatype Poll = Done | Pending | Failed

  class Channel<T> {
    const capacity: nat
    var sent: seq<T>  // everything ever accepted, oldest first
    var taken: nat    // how many of them the receiver has taken
    var closed: bool  // the receiver is gone

    ghost predicate Valid()
      reads this
    {
      taken <= |sent| <= taken + capacity && capacity > 0
    }

    ghost function Queue(): seq<T>
      reads this
      requires Valid()
    {
      sent[taken..]
    }

    /** The library refuses a channel without room. */
    constructor (capacity: nat)
      requires capacity > 0
      ensures Valid() && this.capacity == capacity && sent == [] && taken == 0 && !closed
    {
      this.capacity := capacity;
      sent, taken, closed := [], 0, false;
    }

    method Send(x: T, drained: nat, gone: bool) returns (ok: bool)
      requires Valid()
      modifies this
      ensures Valid()
      ensures ok == !(old(closed) || gone) && closed == !ok
      ensures ok ==> sent == old(sent) + [x] && taken >= old(taken)
      ensures !ok ==> sent == old(sent) && taken == old(taken)
    {
      if closed || gone {
        closed := true;
        return false;
      }
      var waiting := |sent| - taken;
      var least := if waiting == capacity then 1 else 0;
      taken := taken + if drained > waiting then waiting else if drained < least then least else drained;
      sent := sent + [x];
      ok := true;
    }

    /** A send that is polled once: it fails if the receiver is gone, completes if there is room, and
        waits otherwise. */
    method Offer(x: T) returns (r: Poll)
      requires Valid()
      modifies `sent
      ensures Valid()
      ensures r.Failed? <==> closed
      ensures r.Done? <==> !closed && |old(Queue())| < capacity
      ensures sent == if r.Done? then old(sent) + [x] else old(sent)
    {
      if closed {
        return Failed;
      }
      if |sent| - taken == capacity {
        return Pending;
      }
      sent := sent + [x];
      r := Done;
    }

    method Receive() returns (r: Option<T>)
      requires Valid()
      modifies `taken
      ensures Valid()
      ensures old(Queue()) == [] ==> r == None && taken == old(taken)
      ensures old(Queue()) != [] ==> r == Some(old(Queue())[0]) && Queue() == old(Queue())[1..]
    {
      if taken == |sent| {
        return None;
      }
      r := Some(sent[taken]);
      taken := taken + 1;
    }
  }
}
