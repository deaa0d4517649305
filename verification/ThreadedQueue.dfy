/** The queue that hands items from the strand to threads.
    Models include/details/threaded_queue.hpp. */
module ThreadedQueue {

  datatype Queue<T> = Queue(items: seq<T>, finished: bool) {
    /** The condition that ends the waits in `pop` and `pop_all`. */
    predicate Ready() {
      finished || items != []
    }

    function AfterPush(item: T): Queue<T> {
      if finished then this else Queue(items + [item], false)
    }

    function AfterFinish(): Queue<T> {
      Queue(items, true)
    }
  }

  datatype Popped<T> = Nothing | Item(item: T)

  class ThreadedQueue<T> {
    var items: seq<T>
    var finished: bool

    function View(): Queue<T>
      reads this
    {
      Queue(items, finished)
    }

    constructor ()
      ensures View() == Queue([], false)
    {
      items, finished := [], false;
    }

    method Push(item: T) returns (ok: bool)
      modifies this
      ensures ok == !old(finished) && View() == old(View()).AfterPush(item)
    {
      if finished {
        return false;
      }
      items := items + [item];
      return true;
    }

    /** The section after the wait. Items that were queued before `finish` are not handed out. */
    method Pop() returns (r: Popped<T>)
      requires View().Ready()
      modifies this
      ensures r == if old(finished) then Nothing else Item(old(items)[0])
      ensures finished == old(finished) && items == if finished then old(items) else old(items)[1..]
    {
      if finished {
        return Nothing;
      }
      r := Item(items[0]);
      items := items[1..];
    }

    method PopAll() returns (ok: bool, data: seq<T>)
      requires View().Ready()
      modifies this
      ensures ok == !old(finished) && data == (if ok then old(items) else [])
      ensures finished == old(finished) && items == if finished then old(items) else []
    {
      data := [];
      if finished {
        return false, data;
      }
      data, items := items, data;
      return true, data;
    }

    method Finish()
      modifies this
      ensures View() == old(View()).AfterFinish()
    {
      finished := true;
    }

    method SwapData(data: seq<T>) returns (swapped: seq<T>)
      modifies this
      ensures swapped == old(items) && items == data && finished == old(finished)
    {
      swapped := items;
      items := data;
    }
  }
}
