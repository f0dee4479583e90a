/** The state of eventhandling/EventHandler.cc that tryTaskLock and the task pools work on. */
module EventHandling {
  import opened EventTypes
  import opened IntrusiveQueue
  import opened ReadyQueue
  import opened Dispatch

  /** Queue q is where tasks of the trigger belong: the queue of the CPU it names, or the last one if there is
      no such CPU. */
  predicate Belongs(q: nat, tr: Trigger, cpus: nat) {
    q == if tr.affinity % 256 < cpus then tr.affinity % 256 else cpus
  }

  function TaskCount(queues: seq<seq<EventTask>>): nat {
    if queues == [] then 0 else |queues[0]| + TaskCount(queues[1..])
  }

  /** The tasks ts, and nothing else, have come into the queues: every one into the queue in which it belongs,
      behind the earlier activations of its trigger and in the order of ts, with all queues in priority order. */
  ghost predicate Gained(before: seq<seq<EventTask>>, after: seq<seq<EventTask>>, ts: seq<EventTask>)
  {
    && |after| == |before| && TaskCount(after) == TaskCount(before) + |ts|
    && (forall q :: 0 <= q < |after| ==> Sorted(after[q]))
    && forall q: nat, tr: Trigger :: q < |before| ==> GainedAt(before, after, ts, q, tr)
  }

  ghost predicate GainedAt(before: seq<seq<EventTask>>, after: seq<seq<EventTask>>, ts: seq<EventTask>, q: nat, tr: Trigger)
    requires q < |before| == |after|
  {
    TasksOf(after[q], tr) == TasksOf(before[q], tr) + if Belongs(q, tr, |before| - 1) then TasksOf(ts, tr) else []
  }

  lemma {:induction false} CountUpdate(queues: seq<seq<EventTask>>, k: nat, q: seq<EventTask>)
    requires k < |queues|
    ensures TaskCount(queues[k := q]) == TaskCount(queues) - |queues[k]| + |q|
  {
    if k == 0 {
      assert queues[k := q][1..] == queues[1..];
    } else {
      assert queues[k := q][1..] == queues[1..][k - 1 := q];
      CountUpdate(queues[1..], k - 1, q);
    }
  }

  lemma {:induction false} ReadyGainsAt(queues: seq<seq<EventTask>>, t: EventTask, k: nat, q: nat, tr: Trigger)
    requires k < |queues| && Belongs(k, t.trigger, |queues| - 1) && Sorted(queues[k]) && q < |queues|
    ensures GainedAt(queues, queues[k := PriorityInsert(queues[k], t)], [t], q, tr)
  {
    OneTask(t, tr);
    if q == k {
      InsertIsFifoPerTrigger(queues[k], t, tr);
    }
  }

  lemma {:induction false} OneTask(t: EventTask, tr: Trigger)
    ensures TasksOf([t], tr) == OneIf(t, tr)
  {
    assert [t][1..] == [];
  }

  /** Readying one task. */
  lemma {:induction false} ReadyGains(queues: seq<seq<EventTask>>, t: EventTask, k: nat)
    requires k < |queues| && Belongs(k, t.trigger, |queues| - 1) && forall q :: 0 <= q < |queues| ==> Sorted(queues[q])
    ensures Gained(queues, queues[k := PriorityInsert(queues[k], t)], [t])
  {
    var inserted := PriorityInsert(queues[k], t);
    var after, ts := queues[k := inserted], [t];
    CountUpdate(queues, k, inserted);
    InsertKeepsSorted(queues[k], t);
    forall q: nat, tr: Trigger | q < |queues| ensures GainedAt(queues, after, ts, q, tr) {
      ReadyGainsAt(queues, t, k, q, tr);
    }
  }

  lemma {:induction false} GainsNothing(queues: seq<seq<EventTask>>)
    requires forall q :: 0 <= q < |queues| ==> Sorted(queues[q])
    ensures Gained(queues, queues, [])
  {
  }

  /** Readying tasks one after the other. */
  lemma {:induction false} GainsMore(before: seq<seq<EventTask>>, middle: seq<seq<EventTask>>, after: seq<seq<EventTask>>,
                                     ts: seq<EventTask>, more: seq<EventTask>)
    requires Gained(before, middle, ts) && Gained(middle, after, more)
    ensures Gained(before, after, ts + more)
  {
    forall q: nat, tr: Trigger | q < |before| ensures GainedAt(before, after, ts + more, q, tr) {
      assert GainedAt(before, middle, ts, q, tr) && GainedAt(middle, after, more, q, tr);
      TasksAppend(ts, more, tr);
      Reassociate(TasksOf(before[q], tr), TasksOf(ts, tr), TasksOf(more, tr));
    }
  }

  lemma {:induction false} Reassociate(a: seq<EventTask>, b: seq<EventTask>, c: seq<EventTask>)
    ensures a + b + c == a + (b + c)
  {
  }

  class EventHandler {
    const pActiveEventTask: array<Option<EventTask>>
    var mFifoQueue: seq<seq<EventTask>>         // of the scheduling strategy: one per CPU and the global one
    var pEventTaskPoolQueue: seq<nat>
    var pInterruptTaskPoolQueue: seq<nat>

    ghost predicate Valid()
      reads this
    {
      && |mFifoQueue| == pActiveEventTask.Length + 1
      && forall q :: 0 <= q < |mFifoQueue| ==> Sorted(mFifoQueue[q])
    }

    constructor (cpus: nat)
      ensures Valid()
      ensures fresh(pActiveEventTask) && pActiveEventTask.Length == cpus
      ensures forall c :: 0 <= c < cpus ==> pActiveEventTask[c] == None
      ensures mFifoQueue == seq(cpus + 1, _ => [])
      ensures pEventTaskPoolQueue == seq(EVENT_TASK_POOL_SIZE, i => i)
      ensures pInterruptTaskPoolQueue == seq(INTERRUPT_TASK_POOL_SIZE, i => EVENT_TASK_POOL_SIZE + i)
    {
      pActiveEventTask := new Option<EventTask>[cpus](_ => None);
      var pool, interruptPool := [], [];
      for i := 0 to EVENT_TASK_POOL_SIZE
        invariant pool == seq(i, j => j)
      {
        pool := pool + [i];
      }
      for i := 0 to INTERRUPT_TASK_POOL_SIZE
        invariant interruptPool == seq(i, j => EVENT_TASK_POOL_SIZE + j)
      {
        interruptPool := interruptPool + [EVENT_TASK_POOL_SIZE + i];
      }
      pEventTaskPoolQueue, pInterruptTaskPoolQueue := pool, interruptPool;
      mFifoQueue := seq(cpus + 1, _ => []);
    }

    /** The region under pActiveTaskLock, run by CPU `cpu`: succeeds exactly when none of the
        task's components is in use, and then records the task in the CPU's slot. */
    method TryTaskLock(cpu: nat, task: EventTask) returns (ok: bool)
      requires cpu < pActiveEventTask.Length
      modifies pActiveEventTask
      ensures ok <==> CanLock(old(pActiveEventTask[..]), task.trigger)
      ensures pActiveEventTask[..] ==
              if ok then old(pActiveEventTask[..])[cpu := Some(task)] else old(pActiveEventTask[..])
    {
      ghost var active := pActiveEventTask[..];
      var trigger := task.trigger;
      for c := 0 to pActiveEventTask.Length
        invariant pActiveEventTask[..] == active
        invariant forall d :: 0 <= d < c && active[d].Some? ==> Disjoint(trigger, active[d].value.trigger)
      {
        if pActiveEventTask[c].None? {
          continue;
        }
        var other := pActiveEventTask[c].value.trigger;
        if trigger.osc == other.osc {
          assert trigger.osc in Components(trigger) * Components(other);
          return false;
        }
        for i := 0 to |other.deps|
          invariant trigger.osc !in other.deps[..i]
        {
          if other.deps[i] == trigger.osc {
            assert trigger.osc in Components(trigger) * Components(other);
            return false;
          }
        }
        for j := 0 to |trigger.deps|
          invariant forall x :: x in trigger.deps[..j] ==> x !in Components(other)
        {
          if trigger.deps[j] == other.osc {
            assert other.osc in Components(trigger) * Components(other);
            return false;
          }
          for i := 0 to |other.deps|
            invariant trigger.deps[j] !in other.deps[..i]
          {
            if other.deps[i] == trigger.deps[j] {
              assert trigger.deps[j] in Components(trigger) * Components(other);
              return false;
            }
          }
        }
        assert trigger.deps[..|trigger.deps|] == trigger.deps;
        assert other.deps[..|other.deps|] == other.deps;
      }
      pActiveEventTask[cpu] := Some(task);
      return true;
    }

    /** What may happen while CPU `cpu` is in no region under pActiveTaskLock: the others lock and unlock
        tasks, in their own slots. */
    method OtherCPUs(cpu: nat)
      requires cpu < pActiveEventTask.Length
      modifies pActiveEventTask
      ensures pActiveEventTask[cpu] == old(pActiveEventTask[cpu])
    {
      for c := 0 to pActiveEventTask.Length
        invariant pActiveEventTask[cpu] == old(pActiveEventTask[cpu])
      {
        if c != cpu {
          pActiveEventTask[c] := *;
        }
      }
    }

    /** A try after the others have moved: it meets the table `table`, in which only this CPU's slot is sure
        to be as it was. */
    method TryAmongOthers(cpu: nat, task: EventTask) returns (ok: bool, ghost table: seq<Option<EventTask>>)
      requires cpu < pActiveEventTask.Length
      modifies pActiveEventTask
      ensures |table| == pActiveEventTask.Length && table[cpu] == old(pActiveEventTask[cpu])
      ensures ok <==> CanLock(table, task.trigger)
      ensures pActiveEventTask[..] == if ok then table[cpu := Some(task)] else table
    {
      OtherCPUs(cpu);
      table := pActiveEventTask[..];
      ok := TryTaskLock(cpu, task);
    }

    method UnlockTask(cpu: nat)
      requires cpu < pActiveEventTask.Length
      modifies pActiveEventTask
      ensures pActiveEventTask[..] == old(pActiveEventTask[..])[cpu := None]
    {
      pActiveEventTask[cpu] := None;
    }

    method GetTask() returns (task: Option<nat>)
      modifies `pEventTaskPoolQueue
      ensures task == if old(pEventTaskPoolQueue) == [] then None else Some(old(pEventTaskPoolQueue)[0])
      ensures task.Some? ==> old(pEventTaskPoolQueue) == [task.value] + pEventTaskPoolQueue
      ensures task.None? ==> pEventTaskPoolQueue == []
    {
      if |pEventTaskPoolQueue| == 0 {
        return None;
      }
      task := Some(pEventTaskPoolQueue[0]);
      pEventTaskPoolQueue := pEventTaskPoolQueue[1..];
    }

    method GetInterruptTask() returns (task: Option<nat>)
      modifies `pInterruptTaskPoolQueue
      ensures task == if old(pInterruptTaskPoolQueue) == [] then None else Some(old(pInterruptTaskPoolQueue)[0])
      ensures task.Some? ==> old(pInterruptTaskPoolQueue) == [task.value] + pInterruptTaskPoolQueue
      ensures task.None? ==> pInterruptTaskPoolQueue == []
    {
      if |pInterruptTaskPoolQueue| == 0 {
        return None;
      }
      task := Some(pInterruptTaskPoolQueue[0]);
      pInterruptTaskPoolQueue := pInterruptTaskPoolQueue[1..];
    }

    /** readyTask: hands the task to the scheduling strategy, which puts it into its queue. */
    method ReadyTask(task: EventTask)
      requires Valid()
      modifies `mFifoQueue
      ensures Valid() && Gained(old(mFifoQueue), mFifoQueue, [task])
      ensures var named, cpus := task.trigger.affinity % 256, pActiveEventTask.Length;
              var q := if named < cpus then named else cpus;
              mFifoQueue == old(mFifoQueue)[q := PriorityInsert(old(mFifoQueue[q]), task)]
    {
      var cpuNo := QueueOf(task.trigger, |mFifoQueue| - 1);
      QueueByAffinity(task.trigger, |mFifoQueue| - 1);
      ReadyGains(mFifoQueue, task, cpuNo);
      mFifoQueue := mFifoQueue[cpuNo := PriorityInsert(mFifoQueue[cpuNo], task)];
    }

    /** eventTriggered: sets a task up for each subscriber and readies it, until no task is left; `ts` are
        these tasks. */
    method EventTriggered(subscribers: seq<Trigger>, kind: EventType, arg: nat) returns (ghost ts: seq<EventTask>)
      requires Valid()
      modifies `pEventTaskPoolQueue, `mFifoQueue
      ensures |ts| == if |subscribers| < |old(pEventTaskPoolQueue)| then |subscribers| else |old(pEventTaskPoolQueue)|
      ensures forall i :: 0 <= i < |ts| ==>
                && ts[i].id == old(pEventTaskPoolQueue)[i] && ts[i].trigger == subscribers[i]
                && ts[i].kind == kind && ts[i].arg == arg
      ensures Valid() && Gained(old(mFifoQueue), mFifoQueue, ts)
      ensures pEventTaskPoolQueue == old(pEventTaskPoolQueue)[|ts|..]
    {
      var i := 0;
      ts := [];
      GainsNothing(mFifoQueue);
      while i < |subscribers|
        invariant |ts| == i <= |subscribers| && i <= |old(pEventTaskPoolQueue)|
        invariant forall j :: 0 <= j < i ==> ts[j] == EventTask(old(pEventTaskPoolQueue)[j], subscribers[j], kind, arg, 0)
        invariant Valid() && Gained(old(mFifoQueue), mFifoQueue, ts)
        invariant pEventTaskPoolQueue == old(pEventTaskPoolQueue)[i..]
        decreases |subscribers| - i
      {
        var newCon := GetTask();
        if newCon.None? {
          return;
        }
        var task := EventTask(newCon.value, subscribers[i], kind, arg, 0);
        ghost var middle := mFifoQueue;
        ReadyTask(task);
        GainsMore(old(mFifoQueue), middle, mFifoQueue, ts, [task]);
        ts := ts + [task];
        i := i + 1;
      }
    }

    /** interruptEventTriggered: the same with tasks of the interrupt pool. */
    method InterruptEventTriggered(subscribers: seq<Trigger>, arg: nat) returns (ghost ts: seq<EventTask>)
      requires Valid()
      modifies `pInterruptTaskPoolQueue, `mFifoQueue
      ensures |ts| == if |subscribers| < |old(pInterruptTaskPoolQueue)| then |subscribers| else |old(pInterruptTaskPoolQueue)|
      ensures forall i :: 0 <= i < |ts| ==>
                && ts[i].id == old(pInterruptTaskPoolQueue)[i] && ts[i].trigger == subscribers[i]
                && ts[i].kind.Interrupt? && ts[i].arg == arg
      ensures Valid() && Gained(old(mFifoQueue), mFifoQueue, ts)
      ensures pInterruptTaskPoolQueue == old(pInterruptTaskPoolQueue)[|ts|..]
    {
      var i := 0;
      ts := [];
      GainsNothing(mFifoQueue);
      while i < |subscribers|
        invariant |ts| == i <= |subscribers| && i <= |old(pInterruptTaskPoolQueue)|
        invariant forall j :: 0 <= j < i ==> ts[j] == EventTask(old(pInterruptTaskPoolQueue)[j], subscribers[j], Interrupt, arg, 0)
        invariant Valid() && Gained(old(mFifoQueue), mFifoQueue, ts)
        invariant pInterruptTaskPoolQueue == old(pInterruptTaskPoolQueue)[i..]
        decreases |subscribers| - i
      {
        var newCon := GetInterruptTask();
        if newCon.None? {
          return;
        }
        var task := EventTask(newCon.value, subscribers[i], Interrupt, arg, 0);
        ghost var middle := mFifoQueue;
        ReadyTask(task);
        GainsMore(old(mFifoQueue), middle, mFifoQueue, ts, [task]);
        ts := ts + [task];
        i := i + 1;
      }
    }

    /** callOSCTrigger: one activation with the dummy event, or nothing when no task is left. */
    method CallOSCTrigger(trigger: Trigger, arg: nat)
      requires Valid()
      modifies `pEventTaskPoolQueue, `mFifoQueue
      ensures Valid()
      ensures old(pEventTaskPoolQueue) == [] ==> mFifoQueue == old(mFifoQueue) && pEventTaskPoolQueue == []
      ensures old(pEventTaskPoolQueue) != [] ==>
                && Gained(old(mFifoQueue), mFifoQueue, [EventTask(old(pEventTaskPoolQueue)[0], trigger, DummyCall, arg, 0)])
                && pEventTaskPoolQueue == old(pEventTaskPoolQueue)[1..]
    {
      var con := GetTask();
      if con.Some? {
        ReadyTask(EventTask(con.value, trigger, DummyCall, arg, 0));
      }
    }

    /** eventTaskFinished on CPU `cpu`: unlock, then return the task object to the pool that the
        event's type names.  `returnEvent` says that the event itself goes back to the timer's pool. */
    method EventTaskFinished(cpu: nat) returns (returnEvent: bool)
      requires cpu < pActiveEventTask.Length && pActiveEventTask[cpu].Some?
      modifies this, pActiveEventTask
      ensures pActiveEventTask[..] == old(pActiveEventTask[..])[cpu := None] && mFifoQueue == old(mFifoQueue)
      ensures var t := old(pActiveEventTask[cpu]).value;
              && pInterruptTaskPoolQueue == old(pInterruptTaskPoolQueue) + (if t.kind.Interrupt? then [t.id] else [])
              && pEventTaskPoolQueue == old(pEventTaskPoolQueue) + (if t.kind.Interrupt? then [] else [t.id])
              && (returnEvent <==> t.kind.Oneshot?)
    {
      var eventtask := pActiveEventTask[cpu].value;
      UnlockTask(cpu);
      returnEvent := false;
      if eventtask.kind.Interrupt? {
        pInterruptTaskPoolQueue := pInterruptTaskPoolQueue + [eventtask.id];
      } else {
        returnEvent := eventtask.kind.Oneshot?;
        pEventTaskPoolQueue := pEventTaskPoolQueue + [eventtask.id];
      }
    }
  }
}
