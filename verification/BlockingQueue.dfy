/**
 The producer/consumer queue of include/lpr/util/BlockingQueue.h: its critical sections as a class, one method for each
 stretch of code that runs under the mutex. What happens between them is in module QueueProtocol.
 */
module BlockingQueue {
  import opened Plates

  /** What a thread does when it leaves the mutex: go on waiting on a condition variable, notify the other side, or
      return. */
  datatype Exit = Waits | Notifies | Returns

  /** `push`: the oldest item makes room when the queue is bounded and full. */
  function Pushed<T>(queue: seq<T>, maxSize: nat, v: T): seq<T> {
    (if DropsOldest(queue, maxSize) then queue[1..] else queue) + [v]
  }

  predicate DropsOldest<T>(queue: seq<T>, maxSize: nat) {
    maxSize > 0 && |queue| >= maxSize
  }

  /** The predicate that a blocked producer waits for. */
  predicate MayInsert<T>(queue: seq<T>, maxSize: nat, closed: bool) {
    maxSize == 0 || closed || |queue| < maxSize
  }

  /** The predicate that a blocked consumer waits for. */
  predicate MayTake<T>(queue: seq<T>, closed: bool) {
    queue != [] || closed
  }

  class BlockingQueue<T> {
    const maxSize: nat
    var queue: seq<T>
    var closed: bool

    ghost predicate Valid()
      reads this
    {
      maxSize > 0 ==> |queue| <= maxSize
    }

    constructor (maxSize: nat)
      ensures Valid() && this.maxSize == maxSize && queue == [] && !closed
    {
      this.maxSize := maxSize;
      queue, closed := [], false;
    }

    method Push(v: T) returns (kept: bool)
      requires Valid()
      modifies this`queue
      ensures Valid()
      ensures queue == Pushed(old(queue), maxSize, v)
      ensures maxSize == 0 || |old(queue)| < maxSize ==> kept && queue == old(queue) + [v]
      ensures maxSize > 0 && |old(queue)| >= maxSize ==> !kept && queue == old(queue)[1..] + [v]
    {
      var dropped := false;
      if maxSize > 0 && |queue| >= maxSize {
        queue := queue[1..];
        dropped := true;
      }
      queue := queue + [v];
      kept := !dropped;
    }

    /** `pushBlocking` up to and from its wait. */
    method TryInsert(v: T) returns (exit: Exit)
      requires Valid()
      modifies this`queue
      ensures Valid()
      ensures exit ==
        if !MayInsert(old(queue), maxSize, closed) then Waits else if closed then Returns else Notifies
      ensures queue == if exit == Notifies then old(queue) + [v] else old(queue)
    {
      if maxSize > 0 && !(closed || |queue| < maxSize) {
        return Waits;
      }
      if closed {
        return Returns;
      }
      queue := queue + [v];
      exit := Notifies;
    }

    /** `pop` and `popFor` up to and from their wait. */
    method TryTake() returns (exit: Exit, value: Option<T>)
      requires Valid()
      modifies this`queue
      ensures Valid()
      ensures exit ==
        if !MayTake(old(queue), closed) then Waits else if old(queue) == [] then Returns else Notifies
      ensures if exit == Notifies then old(queue) != [] && value == Some(old(queue)[0]) && queue == old(queue)[1..]
        else value == None && queue == old(queue)
    {
      if !(queue != [] || closed) {
        return Waits, None;
      }
      if queue == [] {
        return Returns, None;
      }
      value := Some(queue[0]);
      queue := queue[1..];
      exit := Notifies;
    }

    method TryPop() returns (value: Option<T>)
      requires Valid()
      modifies this`queue
      ensures Valid()
      ensures if old(queue) == [] then value == None && queue == []
        else value == Some(old(queue)[0]) && queue == old(queue)[1..]
    {
      if queue == [] {
        return None;
      }
      value := Some(queue[0]);
      queue := queue[1..];
    }

    method Clear()
      modifies this`queue
      ensures Valid() && queue == []
    {
      queue := [];
    }

    method Close()
      modifies this`closed
      ensures closed
    {
      closed := true;
    }
  }
}
