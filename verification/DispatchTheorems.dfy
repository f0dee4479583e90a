/** What holds in every state of every run of the dispatcher, on any number of CPUs. */
module DispatchTheorems {
  import opened EventTypes
  import opened IntrusiveQueue
  import opened ReadyQueue
  import ReadyScan
  import opened Dispatch
  import opened DispatchProofs

  ghost predicate Good(s: State, cpus: nat)
  {
    && Shape(s) && |s.pc| == cpus
    && SlotsMatch(s) && ComponentsExclusive(s)
    && QueuesOk(s)
    && KindsOk(s)
    && StacksOk(s)
    && Numbered(s)
    && (forall tr: Trigger :: Fifo(s, tr))
    && (forall id: nat :: Places(s, id) == if id < TASKS then 1 else 0)
  }

  lemma {:induction false} CountRange(ids: seq<nat>, first: nat, id: nat)
    requires forall i :: 0 <= i < |ids| ==> ids[i] == first + i
    ensures CountIn(ids, id) == if first <= id < first + |ids| then 1 else 0
  {
    if ids != [] {
      CountRange(ids[1..], first + 1, id);
    }
  }

  lemma {:induction false} CountEmptyQueues(qs: seq<seq<EventTask>>, id: nat)
    requires forall i :: 0 <= i < |qs| ==> qs[i] == []
    ensures CountInQueues(qs, id) == 0
  {
    if qs != [] {
      CountEmptyQueues(qs[1..], id);
    }
  }

  lemma {:induction false} CountEmptySlots(pc: seq<Pc>, id: nat)
    requires forall i :: 0 <= i < |pc| ==> pc[i].Start?
    ensures CountInSlots(pc, id) == 0
  {
    if pc != [] {
      CountEmptySlots(pc[1..], id);
    }
  }

  lemma {:induction false} InitIsGood(s: State, cpus: nat)
    requires Init(s, cpus)
    ensures Good(s, cpus)
  {
    forall id: nat ensures Places(s, id) == if id < TASKS then 1 else 0 {
      CountRange(s.pool, 0, id);
      CountRange(s.interruptPool, EVENT_TASK_POOL_SIZE, id);
      CountEmptyQueues(s.ready, id);
      CountEmptyQueues(s.hand, id);
      CountEmptySlots(s.pc, id);
    }
  }

  lemma {:induction false} StepKeepsGood(s: State, s': State, cpus: nat)
    requires Good(s, cpus) && Step(s, s')
    ensures Good(s', cpus)
  {
    var c: nat, a: Action :| c < |s.pc| && Does(s, s', c, a);
    StepKeepsShape(s, s', c, a);
    StepKeepsLocks(s, s', c, a);
    StepKeepsQueues(s, s', c, a);
    StepKeepsKinds(s, s', c, a);
    StepKeepsStacks(s, s', c, a);
    StepKeepsNumbers(s, s', c, a);
    forall tr: Trigger ensures Fifo(s', tr) {
      StepKeepsFifo(s, s', c, a, tr);
    }
    assert CpuStackOk(s', c);
    forall id: nat ensures Places(s', id) == if id < TASKS then 1 else 0 {
      StepConserves(s, s', c, a, id);
    }
  }

  lemma {:induction false} RunIsGood(run: seq<State>, cpus: nat, k: nat)
    requires IsRun(run, cpus) && k < |run|
    ensures Good(run[k], cpus)
  {
    if k == 0 {
      InitIsGood(run[0], cpus);
    } else {
      RunIsGood(run, cpus, k - 1);
      assert StepAt(run, k - 1);
      StepKeepsGood(run[k - 1], run[k], cpus);
    }
  }

  // ----- the theorems -----

  /** Tasks active on two CPUs never share a component, so activations of one trigger, whose
      destination component is the same, never overlap. */
  lemma {:induction false} ComponentExclusivity(run: seq<State>, cpus: nat, k: nat, c: nat, d: nat)
    requires IsRun(run, cpus) && k < |run| && c < cpus && d < cpus && c != d
    ensures |run[k].active| == cpus
    ensures run[k].active[c].Some? && run[k].active[d].Some? ==>
              && Components(run[k].active[c].value.trigger) !! Components(run[k].active[d].value.trigger)
              && run[k].active[c].value.trigger != run[k].active[d].value.trigger
  {
    RunIsGood(run, cpus, k);
    if run[k].active[c].Some? && run[k].active[d].Some? {
      assert Disjoint(run[k].active[c].value.trigger, run[k].active[d].value.trigger);
      assert run[k].active[c].value.trigger.osc in Components(run[k].active[c].value.trigger);
    }
  }

  /** A CPU that looks for work has no active task, and the task it then hands to activateOSC is the
      one in its slot: the dispatcher's check for a "non locked task" never fires. */
  lemma {:induction false} SlotFollowsDispatcher(run: seq<State>, cpus: nat, k: nat, c: nat)
    requires IsRun(run, cpus) && k < |run| && c < cpus
    ensures |run[k].active| == |run[k].pc| == cpus && !run[k].pc[c].Hung?
    ensures run[k].active[c] == LockedTask(run[k].pc[c])
  {
    RunIsGood(run, cpus, k);
    assert CpuStackOk(run[k], c);
  }

  /** Every task object is in exactly one place at any time, and nothing else is anywhere. */
  lemma {:induction false} TaskConservation(run: seq<State>, cpus: nat, k: nat, id: nat)
    requires IsRun(run, cpus) && k < |run|
    ensures Places(run[k], id) == if id < TASKS then 1 else 0
  {
    RunIsGood(run, cpus, k);
  }

  lemma {:induction false} CountedIfIn(ids: seq<nat>, id: nat)
    ensures CountIn(ids, id) > 0 <==> id in ids
  {
    if ids != [] {
      CountedIfIn(ids[1..], id);
    }
  }

  lemma {:induction false} CountedInSlot(pc: seq<Pc>, c: nat)
    requires c < |pc| && TaskOf(pc[c]).Some?
    ensures CountInSlots(pc, TaskOf(pc[c]).value.id) > 0
  {
    if c > 0 {
      CountedInSlot(pc[1..], c - 1);
    }
  }

  /** When a CPU retires a task, the pool that is about to get it with the unchecked enqueueFast is
      the one it came from and does not hold it yet, so the pool lists never become cyclic. */
  lemma {:induction false} RetiredTaskGoesHomeOnce(run: seq<State>, cpus: nat, k: nat, c: nat)
    requires IsRun(run, cpus) && k < |run| && c < |run[k].pc| && run[k].pc[c].Retiring?
    ensures var t := run[k].pc[c].task;
            && t.id < TASKS && t.id !in run[k].pool && t.id !in run[k].interruptPool
            && (t.kind.Interrupt? <==> t.id >= EVENT_TASK_POOL_SIZE)
  {
    RunIsGood(run, cpus, k);
    var t := run[k].pc[c].task;
    assert TaskOf(run[k].pc[c]) == Some(t);
    assert KindOk(t);
    TaskConservation(run, cpus, k, t.id);
    CountedInSlot(run[k].pc, c);
    CountedIfIn(run[k].pool, t.id);
    CountedIfIn(run[k].interruptPool, t.id);
  }

  /** getFreeStack never fails when the dispatcher calls it: the requeue-without-stack branch of
      getEvent is dead code.  And no stack is ever in the hands of two CPUs. */
  lemma {:induction false} StacksSuffice(run: seq<State>, cpus: nat, k: nat, c: nat, d: nat)
    requires IsRun(run, cpus) && k < |run| && c < cpus && d < cpus
    ensures Shape(run[k]) && |run[k].pc| == cpus
    ensures run[k].pc[c].Picked? ==> FreeStack(run[k].used, run[k].cursor, |run[k].used|).Some?
    ensures c != d && StackOf(run[k], c).Some? ==> StackOf(run[k], d) != StackOf(run[k], c)
  {
    RunIsGood(run, cpus, k);
    if run[k].pc[c].Picked? {
      StackAvailable(run[k], c);
    }
    assert CpuStackOk(run[k], c) && CpuStackOk(run[k], d);
  }

  lemma {:induction false} NumbersIncrease(q: seq<EventTask>, tr: Trigger, from: nat)
    requires forall i :: 0 <= i < |q| ==> q[i].serial == from + i
    ensures forall i :: 0 <= i < |TasksOf(q, tr)| ==> TasksOf(q, tr)[i].serial >= from
    ensures forall i, j :: 0 <= i < j < |TasksOf(q, tr)| ==> TasksOf(q, tr)[i].serial < TasksOf(q, tr)[j].serial
  {
    if q != [] {
      NumbersIncrease(q[1..], tr, from + 1);
    }
  }

  /** Activations of one trigger start in the order in which they became ready: what has started is
      at any time an initial piece of what was enqueued, in the same order. */
  lemma {:induction false} StartOrderPerTrigger(run: seq<State>, cpus: nat, k: nat, tr: Trigger)
    requires IsRun(run, cpus) && k < |run|
    ensures var started := TasksOf(run[k].started, tr);
            && started <= TasksOf(run[k].enqueued, tr)
            && forall i, j :: 0 <= i < j < |started| ==> started[i].serial < started[j].serial
  {
    RunIsGood(run, cpus, k);
    assert Fifo(run[k], tr);
    NumbersIncrease(run[k].enqueued, tr, 0);
    var all, started := TasksOf(run[k].enqueued, tr), TasksOf(run[k].started, tr);
    assert forall i :: 0 <= i < |started| ==> started[i] == all[i];
  }

  /** In a list without repetitions, what stands before an element of an initial piece is in the piece. */
  lemma {:induction false} BeforeInPrefix(piece: seq<EventTask>, all: seq<EventTask>, p: nat, r: nat)
    requires piece <= all && p < r < |all| && all[r] in piece
    requires forall i, j :: 0 <= i < j < |all| ==> all[i].serial < all[j].serial
    ensures all[p] in piece
  {
    var m :| 0 <= m < |piece| && piece[m] == all[r];
    assert all[m] == all[r];
    assert piece[p] == all[p];
  }

  lemma {:induction false} ListedIfIn(q: seq<EventTask>, t: EventTask)
    ensures t in TasksOf(q, t.trigger) <==> t in q
  {
    TasksOfCounts(q, t.trigger, t);
    assert t in TasksOf(q, t.trigger) <==> t in multiset(TasksOf(q, t.trigger));
    assert t in q <==> t in multiset(q);
  }

  /** The i-th and the j-th activation that ever became ready are of one trigger: if the later one has
      started, the earlier one has. */
  lemma {:induction false} NoOvertaking(run: seq<State>, cpus: nat, k: nat, i: nat, j: nat)
    requires IsRun(run, cpus) && k < |run| && i < j < |run[k].enqueued|
    requires run[k].enqueued[i].trigger == run[k].enqueued[j].trigger && run[k].enqueued[j] in run[k].started
    ensures run[k].enqueued[i] in run[k].started
  {
    var enqueued, started := run[k].enqueued, run[k].started;
    var tr := enqueued[i].trigger;
    RunIsGood(run, cpus, k);
    NumbersIncrease(enqueued, tr, 0);
    StartOrderPerTrigger(run, cpus, k, tr);
    TasksOfOrder(enqueued, tr, i, j);
    ListedIfIn(started, enqueued[j]);
    BeforeInPrefix(TasksOf(started, tr), TasksOf(enqueued, tr), |TasksOf(enqueued[..i], tr)|, |TasksOf(enqueued[..j], tr)|);
    ListedIfIn(started, enqueued[i]);
  }

  /** A CPU only takes tasks whose trigger names it, or names no CPU of the system. */
  lemma {:induction false} LockedTaskBelongs(run: seq<State>, cpus: nat, k: nat, c: nat)
    requires IsRun(run, cpus) && k + 1 < |run| && Shape(run[k]) && c < |run[k].pc| && LockTask(run[k], run[k + 1], c)
    ensures run[k + 1].pc[c].Picked?
    ensures var affinity := run[k + 1].pc[c].task.trigger.affinity % 256; affinity == c || affinity >= cpus
  {
    RunIsGood(run, cpus, k);
    assert ScanOk(run[k], c) && QueueInOrder(run[k], run[k].pc[c].queue);
    QueueByAffinity(run[k + 1].pc[c].task.trigger, cpus);
  }

  /** Every waiting task is in the queue of the CPU that its trigger names, or in the global queue. */
  lemma {:induction false} WaitingTaskBelongs(run: seq<State>, cpus: nat, k: nat, q: nat, i: nat)
    requires IsRun(run, cpus) && k < |run| && q < |run[k].ready| && i < |run[k].ready[q]|
    ensures var affinity := run[k].ready[q][i].trigger.affinity % 256;
            |run[k].ready| == cpus + 1 && (if affinity < cpus then q == affinity else q == cpus)
  {
    RunIsGood(run, cpus, k);
    assert QueueInOrder(run[k], q);
    QueueByAffinity(run[k].ready[q][i].trigger, cpus);
  }

  /** When no CPU executes anything, a scan of a non-empty queue takes the queue's head. */
  lemma {:induction false} IdleSystemTakesHead(run: seq<State>, cpus: nat, k: nat, c: nat, s': State, a: Action)
    requires IsRun(run, cpus) && k < |run| && Shape(run[k]) && c < |run[k].pc| && Does(run[k], s', c, a)
    requires run[k].pc[c].Scan? && run[k].pc[c].pos == 0
    requires forall d :: 0 <= d < |run[k].active| ==> run[k].active[d].None?
    requires !a.DoTakeTask? && !a.DoTakeInterruptTask? && !a.DoReady?
    ensures run[k].pc[c].queue < |run[k].ready|
    ensures var q := run[k].ready[run[k].pc[c].queue];
            q != [] ==> |s'.active| == cpus && s'.active[c] == Some(q[0]) && s'.pc[c] == Picked(q[0])
  {
    RunIsGood(run, cpus, k);
    assert ScanOk(run[k], c);
    var q := run[k].ready[run[k].pc[c].queue];
    if q != [] {
      ReadyScan.IdleTakesHead(q, run[k].active);
    }
  }
}
