/**
 * The FIFO work queue of QueueSimulator.cs: items are added at the tail and
 * removed from the head, a stop flag forces the processing loop to end, and a
 * list of other queues keeps the loop alive while any of them still holds
 * work.
 *
 * Only one iteration of `StartProcessingAsync` is modelled (`Step`): check the
 * loop condition, dequeue the head if there is one, and hand it back so that
 * the caller can deliver it to its item-received handler.
 */
module QueueSimulation {
  import opened Wrappers

  class QueueSimulator<T> {
    var items: seq<T>
    var minDelayTime: int
    var maxDelayTime: int
    var uid: string
    var stop: bool
    var dependencies: seq<QueueSimulator<T>>

    /** `QueueCount`: the number of items currently held. */
    function QueueCount(): (n: nat)
      reads this
      ensures n == 0 <==> items == []
    {
      |items|
    }

    /** Some queue this one depends on still holds an item. */
    predicate DependencyPending()
      reads this, dependencies
    {
      exists i :: 0 <= i < |dependencies| && dependencies[i].QueueCount() > 0
    }

    /** The condition of the processing loop. */
    function Continues(): (r: bool)
      reads this, dependencies
      ensures stop ==> !r
      ensures !stop ==> (r <==> |items| > 0 || DependencyPending())
      ensures dependencies == [] ==> (r <==> !stop && |items| > 0)
    {
      !stop && (|items| != 0 || (|dependencies| > 0 && DependencyPending()))
    }

    constructor (minDelayTime: int, maxDelayTime: int, id: Option<string>, freshId: string,
                 dependencyList: Option<seq<QueueSimulator<T>>>)
      ensures items == [] && !stop
      ensures this.minDelayTime == minDelayTime && this.maxDelayTime == maxDelayTime
      ensures uid == id.GetOr(freshId)
      ensures dependencies == if dependencyList.Some? then dependencyList.value else []
    {
      items := [];
      stop := false;
      this.minDelayTime := minDelayTime;
      this.maxDelayTime := maxDelayTime;
      uid := id.GetOr(freshId);
      dependencies := if dependencyList.Some? then dependencyList.value else [];
    }

    /** `AddDependency(queue)`: a null queue is ignored. */
    method AddDependency(queue: QueueSimulator?<T>)
      modifies this
      ensures dependencies == old(dependencies) + (if queue == null then [] else [queue])
      ensures items == old(items) && stop == old(stop) && uid == old(uid)
      ensures minDelayTime == old(minDelayTime) && maxDelayTime == old(maxDelayTime)
    {
      if queue != null {
        dependencies := dependencies + [queue];
      }
    }

    /** `AddDependency(queueList)`: a null list is ignored, otherwise the list is
        appended in order. */
    method AddDependencies(queueList: Option<seq<QueueSimulator<T>>>)
      modifies this
      ensures dependencies == old(dependencies) + queueList.GetOr([])
      ensures items == old(items) && stop == old(stop) && uid == old(uid)
      ensures minDelayTime == old(minDelayTime) && maxDelayTime == old(maxDelayTime)
    {
      if queueList.Some? {
        dependencies := dependencies + queueList.value;
      }
    }

    /** `GetFullQueue`: the contents, head first. */
    method GetFullQueue() returns (r: seq<T>)
      ensures r == items
      ensures |r| == QueueCount()
    {
      r := items;
    }

    /** `Add`: append at the tail. */
    method Add(item: T)
      modifies this
      ensures items == old(items) + [item]
      ensures QueueCount() == old(QueueCount()) + 1
      ensures forall i :: 0 <= i < old(QueueCount()) ==> items[i] == old(items)[i]
      ensures stop == old(stop) && dependencies == old(dependencies) && uid == old(uid)
      ensures minDelayTime == old(minDelayTime) && maxDelayTime == old(maxDelayTime)
    {
      items := items + [item];
    }

    /** `Stop`: raise the stop flag, which ends the processing loop. */
    method Stop()
      modifies this
      ensures stop && !Continues()
      ensures items == old(items) && dependencies == old(dependencies) && uid == old(uid)
      ensures minDelayTime == old(minDelayTime) && maxDelayTime == old(maxDelayTime)
    {
      stop := true;
    }

    /** One iteration of the processing loop: `continued` is the loop condition;
        when it holds and the queue is non-empty the head is removed and
        returned for delivery. */
    method Step() returns (continued: bool, delivered: Option<T>)
      modifies this
      ensures continued == old(Continues())
      ensures continued && old(QueueCount()) > 0 ==>
                delivered == Some(old(items)[0]) && items == old(items)[1..]
      ensures !(continued && old(QueueCount()) > 0) ==> delivered == None && items == old(items)
      ensures old(items) == (if delivered.Some? then [delivered.value] else []) + items
      ensures QueueCount() == old(QueueCount()) - (if delivered.Some? then 1 else 0)
      ensures stop == old(stop) && dependencies == old(dependencies) && uid == old(uid)
      ensures minDelayTime == old(minDelayTime) && maxDelayTime == old(maxDelayTime)
    {
      continued := Continues();
      delivered := None;
      if continued && |items| > 0 {
        delivered := Some(items[0]);
        items := items[1..];
      }
    }
  }

  /** Two steps deliver the first two items in the order they were added. */
  method FifoOrder<T>(q: QueueSimulator<T>, x: T, y: T) returns (first: Option<T>, second: Option<T>)
    requires q.items == [] && !q.stop
    modifies q
    ensures first == Some(x) && second == Some(y)
    ensures q.items == []
  {
    q.Add(x);
    q.Add(y);
    var c;
    c, first := q.Step();
    c, second := q.Step();
  }
}
