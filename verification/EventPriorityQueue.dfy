/** The two kinds of ready queue built on the intrusive list: ordered by priority
    (eventhandling/EventPriorityQueue.cc) and first-in-first-out (eventhandling/EventQueue.cc). */
module EventQueues {
  import opened EventTypes
  import opened IntrusiveQueue
  import opened ReadyQueue
  import opened ReadyScan
  import opened EventHandling

  class EventPriorityQueue {
    const list: Queue<EventTask>

    ghost predicate Valid()
      reads this, list, list.Elements
    {
      list.Valid()
    }

    ghost function Tasks(): seq<EventTask>
      reads list`Elements
    {
      Objects(list.Elements)
    }

    constructor ()
      ensures Valid() && fresh(list) && list.Elements == []
    {
      list := new Queue<EventTask>();
    }

    /** Walks to the first element of lower priority and links the new one in before it. */
    method Enqueue(eventtask: QueueElement<EventTask>)
      requires Valid() && eventtask !in list.Elements
      modifies list, list.Elements`pNext, list.Elements`pPrevious, eventtask`pNext, eventtask`pPrevious
      ensures Valid()
      ensures list.Elements == InsertAt(old(list.Elements), InsertPosition(old(Tasks()), Priority(eventtask.obj)), eventtask)
      ensures Tasks() == PriorityInsert(old(Tasks()), eventtask.obj)
    {
      ghost var before := Tasks();
      var prio := eventtask.obj.trigger.priority;
      if list.pHead == null {
        list.pHead := eventtask;
        list.pTail := eventtask;
        eventtask.pNext := null;
        eventtask.pPrevious := null;
        list.pSize := list.pSize + 1;
        list.Elements := [eventtask];
        assert Linked(list.Elements, 0);
        return;
      }
      var curElement := list.pHead;
      ghost var k := 0;
      while curElement != null && curElement.obj.trigger.priority >= prio
        invariant 0 <= k <= |list.Elements|
        invariant curElement == if k == |list.Elements| then null else list.Elements[k]
        invariant forall i :: 0 <= i < k ==> Priority(before[i]) >= prio
        decreases |list.Elements| - k
      {
        assert Linked(list.Elements, k);
        curElement := curElement.pNext;
        k := k + 1;
      }
      PositionIs(before, prio, k);
      LinkBefore(eventtask, curElement, k);
    }

    /** Links the element in at position k, before `curElement` or at the end. */
    method LinkBefore(eventtask: QueueElement<EventTask>, curElement: QueueElement?<EventTask>, ghost k: nat)
      requires Valid() && eventtask !in list.Elements
      requires k <= |list.Elements| && curElement == if k == |list.Elements| then null else list.Elements[k]
      modifies list, list.Elements`pNext, list.Elements`pPrevious, eventtask`pNext, eventtask`pPrevious
      ensures Valid()
      ensures list.Elements == InsertAt(old(list.Elements), k, eventtask)
      ensures Tasks() == InsertAt(old(Tasks()), k, eventtask.obj)
    {
      ghost var es := list.Elements;
      if curElement == null {
        list.EnqueueFast(eventtask);
      } else {
        list.EnqueueBefore(eventtask, curElement, k);
      }
      ObjectsInsertAt(es, k, eventtask);
    }

    /** Walks past the tasks that have the priority of the one at k. */
    method SkipLevel(task: QueueElement<EventTask>, ghost k: nat)
      returns (next: QueueElement?<EventTask>, ghost l: nat)
      requires Valid() && k < |list.Elements| && task == list.Elements[k]
      ensures l == NextLevel(Tasks(), k)
      ensures next == if l == |list.Elements| then null else list.Elements[l]
    {
      ghost var q := Tasks();
      var curPriority := task.obj.trigger.priority;
      assert Linked(list.Elements, k);
      next := task.pNext;
      l := k + 1;
      while next != null && next.obj.trigger.priority == curPriority
        invariant k < l <= |q|
        invariant next == if l == |q| then null else list.Elements[l]
        invariant NextLevel(q, k) == NextLevel(q, l - 1)
        invariant Priority(q[l - 1]) == curPriority
        decreases |q| - l
      {
        assert Linked(list.Elements, l);
        next := next.pNext;
        l := l + 1;
      }
    }

    /** The loop of dequeueHighestPriority: tries the first task of each priority level in turn; a failed
        attempt skips the level.  Other CPUs may change their slots of the active table before every try;
        `now` is the table that the last one met. */
    method LockHighestPriority(handler: EventHandler, cpu: nat)
      returns (task: QueueElement?<EventTask>, ghost tries: seq<Try>, ghost k: nat, ghost now: seq<Option<EventTask>>)
      requires Valid() && cpu < handler.pActiveEventTask.Length
      modifies handler.pActiveEventTask
      ensures k <= |list.Elements| && Scanning(Tasks(), tries, k)
      ensures OwnSlotStays(tries, cpu, handler.pActiveEventTask.Length, old(handler.pActiveEventTask[cpu]))
      ensures task == if k == |list.Elements| then null else list.Elements[k]
      ensures task == null ==> handler.pActiveEventTask[cpu] == old(handler.pActiveEventTask[cpu])
      ensures task != null ==>
                && |now| == handler.pActiveEventTask.Length && now[cpu] == old(handler.pActiveEventTask[cpu])
                && CanLock(now, task.obj.trigger)
                && handler.pActiveEventTask[..] == now[cpu := Some(task.obj)]
    {
      ghost var q, own, size := Tasks(), handler.pActiveEventTask[cpu], handler.pActiveEventTask.Length;
      task := list.pHead;
      tries, k, now := [], 0, [];
      while task != null
        invariant 0 <= k <= |q|
        invariant task == if k == |q| then null else list.Elements[k]
        invariant Scanning(q, tries, k)
        invariant handler.pActiveEventTask[cpu] == own
        invariant OwnSlotStays(tries, cpu, size, own)
        decreases |q| - k
      {
        var locked;
        locked, now := handler.TryAmongOthers(cpu, task.obj);
        if locked {
          return;
        }
        TryFails(q, tries, k, now);
        tries := tries + [Try(k, now)];
        task, k := SkipLevel(task, k);
      }
    }

    method DequeueHighestPriority(handler: EventHandler, cpu: nat)
      returns (task: QueueElement?<EventTask>, ghost tries: seq<Try>, ghost k: nat, ghost now: seq<Option<EventTask>>)
      requires Valid() && cpu < handler.pActiveEventTask.Length
      modifies list, list.Elements`pNext, list.Elements`pPrevious, handler.pActiveEventTask
      ensures Valid()
      ensures k <= |old(list.Elements)| && Scanning(old(Tasks()), tries, k)
      ensures OwnSlotStays(tries, cpu, handler.pActiveEventTask.Length, old(handler.pActiveEventTask[cpu]))
      ensures task == if k == |old(list.Elements)| then null else old(list.Elements)[k]
      ensures task == null ==>
                && list.Elements == old(list.Elements)
                && handler.pActiveEventTask[cpu] == old(handler.pActiveEventTask[cpu])
      ensures task != null ==>
                && |now| == handler.pActiveEventTask.Length && now[cpu] == old(handler.pActiveEventTask[cpu])
                && CanLock(now, task.obj.trigger)
                && list.Elements == Without(old(list.Elements), k)
                && handler.pActiveEventTask[..] == now[cpu := Some(task.obj)]
    {
      task, tries, k, now := LockHighestPriority(handler, cpu);
      if task != null {
        list.RemoveElementFromList(task, k);
      }
    }
  }

  /** In every try's table the slot of CPU `cpu` is the given one. */
  ghost predicate OwnSlotStays(tries: seq<Try>, cpu: nat, cpus: nat, own: Option<EventTask>)
  {
    forall n :: 0 <= n < |tries| ==> cpu < |tries[n].table| == cpus && tries[n].table[cpu] == own
  }

  lemma {:induction false} PositionIs(q: seq<EventTask>, prio: nat, k: nat)
    requires k <= |q|
    requires forall i :: 0 <= i < k ==> Priority(q[i]) >= prio
    requires k < |q| ==> Priority(q[k]) < prio
    ensures InsertPosition(q, prio) == k
  {
    if k > 0 {
      PositionIs(q[1..], prio, k - 1);
    }
  }

  class EventQueue {
    const list: Queue<EventTask>

    constructor ()
      ensures list.Valid() && fresh(list) && list.Elements == []
    {
      list := new Queue<EventTask>();
    }

    /** The loop of dequeueFirstLocked, with other CPUs as in LockHighestPriority. */
    method LockFirst(handler: EventHandler, cpu: nat)
      returns (event: QueueElement?<EventTask>, ghost tries: seq<Try>, ghost now: seq<Option<EventTask>>)
      requires list.Valid() && cpu < handler.pActiveEventTask.Length
      modifies handler.pActiveEventTask
      ensures |tries| <= |list.Elements|
      ensures forall n :: 0 <= n < |tries| ==> tries[n].pos == n && Failed(Objects(list.Elements), tries[n])
      ensures OwnSlotStays(tries, cpu, handler.pActiveEventTask.Length, old(handler.pActiveEventTask[cpu]))
      ensures event == if |tries| == |list.Elements| then null else list.Elements[|tries|]
      ensures event == null ==> handler.pActiveEventTask[cpu] == old(handler.pActiveEventTask[cpu])
      ensures event != null ==>
                && |now| == handler.pActiveEventTask.Length && now[cpu] == old(handler.pActiveEventTask[cpu])
                && CanLock(now, event.obj.trigger)
                && handler.pActiveEventTask[..] == now[cpu := Some(event.obj)]
    {
      ghost var own, size := handler.pActiveEventTask[cpu], handler.pActiveEventTask.Length;
      event := list.pHead;
      tries, now := [], [];
      while event != null
        invariant |tries| <= |list.Elements|
        invariant event == if |tries| == |list.Elements| then null else list.Elements[|tries|]
        invariant handler.pActiveEventTask[cpu] == own
        invariant forall n :: 0 <= n < |tries| ==> tries[n].pos == n && Failed(Objects(list.Elements), tries[n])
        invariant OwnSlotStays(tries, cpu, size, own)
        decreases |list.Elements| - |tries|
      {
        var locked;
        locked, now := handler.TryAmongOthers(cpu, event.obj);
        if locked {
          return;
        }
        assert Linked(list.Elements, |tries|);
        tries := tries + [Try(|tries|, now)];
        event := event.pNext;
      }
    }

    /** Takes the first task in the queue that can be locked when it is tried, whatever its priority. */
    method DequeueFirstLocked(handler: EventHandler, cpu: nat)
      returns (event: QueueElement?<EventTask>, ghost tries: seq<Try>, ghost now: seq<Option<EventTask>>)
      requires list.Valid() && cpu < handler.pActiveEventTask.Length
      modifies list, list.Elements`pNext, list.Elements`pPrevious, handler.pActiveEventTask
      ensures list.Valid() && |tries| <= |old(list.Elements)|
      ensures forall n :: 0 <= n < |tries| ==> tries[n].pos == n && Failed(old(Objects(list.Elements)), tries[n])
      ensures OwnSlotStays(tries, cpu, handler.pActiveEventTask.Length, old(handler.pActiveEventTask[cpu]))
      ensures event == if |tries| == |old(list.Elements)| then null else old(list.Elements)[|tries|]
      ensures event == null ==>
                && list.Elements == old(list.Elements)
                && handler.pActiveEventTask[cpu] == old(handler.pActiveEventTask[cpu])
      ensures event != null ==>
                && |now| == handler.pActiveEventTask.Length && now[cpu] == old(handler.pActiveEventTask[cpu])
                && CanLock(now, event.obj.trigger)
                && list.Elements == Without(old(list.Elements), |tries|)
                && handler.pActiveEventTask[..] == now[cpu := Some(event.obj)]
    {
      event, tries, now := LockFirst(handler, cpu);
      if event != null {
        list.RemoveElementFromList(event, |tries|);
      }
    }
  }
}
