/**
 * The FIFO queue the plugin keeps its deferred events in.  Only the three
 * operations the plugin uses are modelled: add at the back, remove from the
 * front (an error on an empty queue) and size.
 */
module Queues {
  import opened Wrappers

  datatype QueueError = QueueEmpty

  class Queue<T> {
    /** The queued elements, front first. */
    var items: seq<T>

    constructor ()
      ensures items == []
    {
      items := [];
    }

    method Add(x: T)
      modifies this
      ensures items == old(items) + [x]
    {
      items := items + [x];
    }

    /** Removes and returns the front element; fails, changing nothing, when the queue is empty. */
    method Remove() returns (r: Result<T, QueueError>)
      modifies this
      ensures old(items) == [] ==> r == Err(QueueEmpty) && items == []
      ensures old(items) != [] ==> r == Ok(old(items)[0]) && items == old(items)[1..]
    {
      if items == [] {
        r := Err(QueueEmpty);
      } else {
        r := Ok(items[0]);
        items := items[1..];
      }
    }

    method Size() returns (n: nat)
      ensures n == |items|
    {
      n := |items|;
    }
  }
}
