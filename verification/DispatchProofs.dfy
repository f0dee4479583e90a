/** Invariants of the dispatcher machine, one section per concern. */
module DispatchProofs {
  import opened Counting
  import opened EventTypes
  import opened IntrusiveQueue
  import opened ReadyQueue
  import opened Dispatch

  lemma {:induction false} StepKeepsShape(s: State, s': State, c: nat, a: Action)
    requires Shape(s) && c < |s.pc| && Does(s, s', c, a)
    ensures Shape(s') && |s'.pc| == |s.pc|
  {
  }

  // ----- component locks -----

  /** The task a CPU keeps its components locked for. */
  function LockedTask(p: Pc): Option<EventTask> {
    match p
    case Picked(t) => Some(t)
    case Activating(t, _) => Some(t)
    case Running(t, _) => Some(t)
    case _ => None
  }

  ghost predicate SlotsMatch(s: State)
    requires Shape(s)
  {
    forall c :: 0 <= c < |s.pc| && !s.pc[c].Hung? ==> s.active[c] == LockedTask(s.pc[c])
  }

  /** Tasks active on different CPUs need disjoint sets of components. */
  ghost predicate ComponentsExclusive(s: State)
    requires Shape(s)
  {
    forall c, d :: 0 <= c < |s.pc| && 0 <= d < |s.pc| && c != d && s.active[c].Some? && s.active[d].Some? ==>
      Disjoint(s.active[c].value.trigger, s.active[d].value.trigger)
  }

  lemma {:induction false} QuietStep(s: State, s': State, c: nat, a: Action)
    requires Shape(s) && c < |s.pc| && Does(s, s', c, a)
    requires !a.DoLockTask? && !a.DoFinish?
    ensures s'.active == s.active && |s'.pc| == |s.pc| && s'.pc == s.pc[c := s'.pc[c]]
    ensures !s'.pc[c].Hung? ==> !s.pc[c].Hung? && LockedTask(s'.pc[c]) == LockedTask(s.pc[c])
  {
  }

  lemma {:induction false} StepKeepsLocks(s: State, s': State, c: nat, a: Action)
    requires Shape(s) && c < |s.pc| && Does(s, s', c, a)
    requires SlotsMatch(s) && ComponentsExclusive(s)
    ensures Shape(s') && SlotsMatch(s') && ComponentsExclusive(s')
  {
    StepKeepsShape(s, s', c, a);
    match a
    case DoLockTask =>
    case DoFinish =>
    case _ => QuietStep(s, s', c, a);
  }

  // ----- scans and queue order -----

  ghost predicate QueueInOrder(s: State, q: nat)
    requires Shape(s) && q < |s.ready|
  {
    Sorted(s.ready[q]) && forall i :: 0 <= i < |s.ready[q]| ==> QueueOf(s.ready[q][i].trigger, |s.pc|) == q
  }

  /** A scanning CPU holds the lock of the queue it scans and stands at the first task of a level. */
  ghost predicate ScanOk(s: State, c: nat)
    requires Shape(s) && c < |s.pc|
  {
    s.pc[c].Scan? ==>
      var q := s.pc[c].queue;
      && (q == c || q == |s.pc|)
      && s.queueLock[q] == Some(c)
      && (s.pc[c].pos == |s.ready[q]| || LevelHead(s.ready[q], s.pc[c].pos))
  }

  ghost predicate QueuesOk(s: State)
    requires Shape(s)
  {
    && (forall q :: 0 <= q < |s.ready| ==> QueueInOrder(s, q))
    && (forall c :: 0 <= c < |s.pc| ==> ScanOk(s, c))
  }

  /** All steps but two leave every ready queue alone. */
  lemma {:induction false} QueueFrame(s: State, s': State, c: nat, a: Action)
    requires Shape(s) && c < |s.pc| && Does(s, s', c, a) && !a.DoLockTask? && !a.DoReady?
    ensures s'.ready == s.ready && s'.enqueued == s.enqueued && s'.started == s.started && |s'.pc| == |s.pc|
  {
  }

  lemma {:induction false} StepKeepsOrder(s: State, s': State, c: nat, a: Action, q: nat)
    requires Shape(s) && c < |s.pc| && Does(s, s', c, a)
    requires q < |s.ready| && QueueInOrder(s, q)
    ensures Shape(s') && QueueInOrder(s', q)
  {
    StepKeepsShape(s, s', c, a);
    match a
    case DoLockTask =>
      if q == s.pc[c].queue {
        RemoveKeepsSorted(s.ready[q], s.pc[c].pos);
      }
    case DoReady =>
      var t := s.hand[c][|s.hand[c]| - 1].(serial := |s.enqueued|);
      if q == QueueOf(t.trigger, |s.pc|) {
        InsertKeepsSorted(s.ready[q], t);
      }
    case _ => QueueFrame(s, s', c, a);
  }

  lemma {:induction false} StepKeepsScan(s: State, s': State, c: nat, a: Action, d: nat)
    requires Shape(s) && c < |s.pc| && Does(s, s', c, a)
    requires d < |s.pc| && ScanOk(s, c) && ScanOk(s, d)
    ensures Shape(s') && |s'.pc| == |s.pc| && ScanOk(s', d)
  {
    StepKeepsShape(s, s', c, a);
  }

  lemma {:induction false} StepKeepsQueues(s: State, s': State, c: nat, a: Action)
    requires Shape(s) && c < |s.pc| && Does(s, s', c, a) && QueuesOk(s)
    ensures Shape(s') && QueuesOk(s')
  {
    StepKeepsShape(s, s', c, a);
    forall q | 0 <= q < |s'.ready| ensures QueueInOrder(s', q) {
      StepKeepsOrder(s, s', c, a, q);
    }
    forall d | 0 <= d < |s'.pc| ensures ScanOk(s', d) {
      StepKeepsScan(s, s', c, a, d);
    }
  }

  // ----- start order per trigger -----

  /** Every activation of the trigger that was ever enqueued has started or waits in its queue, and
      the order is the order of enqueueing. */
  ghost predicate Fifo(s: State, tr: Trigger)
    requires Shape(s)
  {
    TasksOf(s.enqueued, tr) == TasksOf(s.started, tr) + TasksOf(s.ready[QueueOf(tr, |s.pc|)], tr)
  }

  lemma {:induction false} Regroup(a: seq<EventTask>, x: seq<EventTask>, b: seq<EventTask>)
    ensures (a + x) + b == a + (x + b)
  {
  }

  /** The scanned queue loses its task to the started ones. */
  lemma {:induction false} LockKeepsFifoOfQueue(s: State, s': State, c: nat, tr: Trigger)
    requires Shape(s) && c < |s.pc| && LockTask(s, s', c) && QueuesOk(s) && Fifo(s, tr)
    requires QueueOf(tr, |s.pc|) == s.pc[c].queue
    ensures Shape(s') && Fifo(s', tr)
  {
    var q, i := s.pc[c].queue, s.pc[c].pos;
    var t := s.ready[q][i];
    assert ScanOk(s, c) && QueueInOrder(s, q);
    TasksSnoc(s.started, t, tr);
    LevelHeadIsOldest(s.ready[q], i, tr);
    Regroup(TasksOf(s.started, tr), OneIf(t, tr), TasksOf(s'.ready[q], tr));
  }

  /** Triggers of other queues are not concerned. */
  lemma {:induction false} LockKeepsFifoElsewhere(s: State, s': State, c: nat, tr: Trigger)
    requires Shape(s) && c < |s.pc| && LockTask(s, s', c) && QueuesOk(s) && Fifo(s, tr)
    requires QueueOf(tr, |s.pc|) != s.pc[c].queue
    ensures Shape(s') && Fifo(s', tr)
  {
    var q := s.pc[c].queue;
    assert QueueInOrder(s, q);
    TasksSnoc(s.started, s.ready[q][s.pc[c].pos], tr);
  }

  lemma {:induction false} LockKeepsFifo(s: State, s': State, c: nat, tr: Trigger)
    requires Shape(s) && c < |s.pc| && LockTask(s, s', c) && QueuesOk(s) && Fifo(s, tr)
    ensures Shape(s') && Fifo(s', tr)
  {
    if QueueOf(tr, |s.pc|) == s.pc[c].queue {
      LockKeepsFifoOfQueue(s, s', c, tr);
    } else {
      LockKeepsFifoElsewhere(s, s', c, tr);
    }
  }

  lemma {:induction false} ReadyKeepsFifo(s: State, s': State, c: nat, tr: Trigger)
    requires Shape(s) && c < |s.pc| && Ready(s, s', c) && QueuesOk(s) && Fifo(s, tr)
    ensures Shape(s') && Fifo(s', tr)
  {
    var t := s.hand[c][|s.hand[c]| - 1].(serial := |s.enqueued|);
    var q := QueueOf(t.trigger, |s.pc|);
    assert QueueInOrder(s, q);
    TasksSnoc(s.enqueued, t, tr);
    if QueueOf(tr, |s.pc|) == q {
      InsertIsFifoPerTrigger(s.ready[q], t, tr);
      Regroup(TasksOf(s.started, tr), TasksOf(s.ready[q], tr), OneIf(t, tr));
    }
  }

  lemma {:induction false} StepKeepsFifo(s: State, s': State, c: nat, a: Action, tr: Trigger)
    requires Shape(s) && c < |s.pc| && Does(s, s', c, a) && QueuesOk(s) && Fifo(s, tr)
    ensures Shape(s') && Fifo(s', tr)
  {
    match a
    case DoLockTask => LockKeepsFifo(s, s', c, tr);
    case DoReady => ReadyKeepsFifo(s, s', c, tr);
    case _ =>
      StepKeepsShape(s, s', c, a);
      QueueFrame(s, s', c, a);
  }

  // ----- conservation of task objects -----

  function CountIn(ids: seq<nat>, id: nat): nat {
    if ids == [] then 0 else (if ids[0] == id then 1 else 0) + CountIn(ids[1..], id)
  }

  function CountInQueue(q: seq<EventTask>, id: nat): nat {
    if q == [] then 0 else (if q[0].id == id then 1 else 0) + CountInQueue(q[1..], id)
  }

  function CountInQueues(qs: seq<seq<EventTask>>, id: nat): nat {
    if qs == [] then 0 else CountInQueue(qs[0], id) + CountInQueues(qs[1..], id)
  }

  /** The task a CPU executes or is retiring. */
  function TaskOf(p: Pc): Option<EventTask> {
    match p
    case Retiring(t) => Some(t)
    case _ => LockedTask(p)
  }

  function CountAt(p: Pc, id: nat): nat {
    match TaskOf(p)
    case None => 0
    case Some(t) => if t.id == id then 1 else 0
  }

  function CountInSlots(pc: seq<Pc>, id: nat): nat {
    if pc == [] then 0 else CountAt(pc[0], id) + CountInSlots(pc[1..], id)
  }

  /** In how many places task object `id` is: the two pools, the ready queues, the hands of CPUs that
      are raising events, and the tasks CPUs execute or retire. */
  function Places(s: State, id: nat): nat {
    CountIn(s.pool, id) + CountIn(s.interruptPool, id) + CountInQueues(s.ready, id) + CountInQueues(s.hand, id)
    + CountInSlots(s.pc, id)
  }

  lemma {:induction false} CountSnoc(ids: seq<nat>, x: nat, id: nat)
    ensures CountIn(ids + [x], id) == CountIn(ids, id) + (if x == id then 1 else 0)
  {
    if ids == [] {
      assert (ids + [x])[1..] == [];
    } else {
      assert (ids + [x])[1..] == ids[1..] + [x];
      CountSnoc(ids[1..], x, id);
    }
  }

  lemma {:induction false} CountInsertAt(q: seq<EventTask>, k: nat, t: EventTask, id: nat)
    requires k <= |q|
    ensures CountInQueue(InsertAt(q, k, t), id) == CountInQueue(q, id) + (if t.id == id then 1 else 0)
  {
    if k == 0 {
      assert InsertAt(q, k, t)[1..] == q;
    } else {
      assert InsertAt(q, k, t)[1..] == InsertAt(q[1..], k - 1, t);
      CountInsertAt(q[1..], k - 1, t, id);
    }
  }

  lemma {:induction false} CountWithout(q: seq<EventTask>, k: nat, id: nat)
    requires k < |q|
    ensures CountInQueue(q, id) == CountInQueue(Without(q, k), id) + (if q[k].id == id then 1 else 0)
  {
    var r := Without(q, k);
    assert InsertAt(r, k, q[k]) == q;
    CountInsertAt(r, k, q[k], id);
  }

  lemma {:induction false} QueuesUpdate(qs: seq<seq<EventTask>>, k: nat, q: seq<EventTask>, id: nat)
    requires k < |qs|
    ensures CountInQueues(qs[k := q], id) == CountInQueues(qs, id) - CountInQueue(qs[k], id) + CountInQueue(q, id)
  {
    if k == 0 {
      assert qs[k := q][1..] == qs[1..];
    } else {
      assert qs[k := q][1..] == qs[1..][k - 1 := q];
      QueuesUpdate(qs[1..], k - 1, q, id);
    }
  }

  lemma {:induction false} SlotsUpdate(pc: seq<Pc>, k: nat, p: Pc, id: nat)
    requires k < |pc|
    ensures CountInSlots(pc[k := p], id) == CountInSlots(pc, id) - CountAt(pc[k], id) + CountAt(p, id)
  {
    if k == 0 {
      assert pc[k := p][1..] == pc[1..];
    } else {
      assert pc[k := p][1..] == pc[1..][k - 1 := p];
      SlotsUpdate(pc[1..], k - 1, p, id);
    }
  }

  /** Steps like these move no task object. */
  lemma {:induction false} NoMove(s: State, s': State, c: nat, a: Action)
    requires Shape(s) && c < |s.pc| && Does(s, s', c, a)
    requires a.DoReleaseStack? || a.DoBeginScan? || a.DoSkipLevel? || a.DoEndScan? || a.DoTakeStack? || a.DoActivate?
             || a.DoFinish?
    ensures s'.pool == s.pool && s'.interruptPool == s.interruptPool && s'.ready == s.ready && s'.hand == s.hand
    ensures |s'.pc| == |s.pc| && s'.pc == s.pc[c := s'.pc[c]]
    ensures !s'.pc[c].Hung? ==> TaskOf(s'.pc[c]) == TaskOf(s.pc[c])
  {
  }

  lemma {:induction false} LockMovesOne(s: State, s': State, c: nat, id: nat)
    requires Shape(s) && c < |s.pc| && LockTask(s, s', c)
    ensures Places(s', id) == Places(s, id)
  {
    var q, i := s.pc[c].queue, s.pc[c].pos;
    CountWithout(s.ready[q], i, id);
    QueuesUpdate(s.ready, q, s'.ready[q], id);
    SlotsUpdate(s.pc, c, s'.pc[c], id);
  }

  lemma {:induction false} RequeueMovesOne(s: State, s': State, c: nat, id: nat)
    requires Shape(s) && c < |s.pc| && Requeue(s, s', c)
    ensures Places(s', id) == Places(s, id)
  {
    SlotsUpdate(s.pc, c, Start, id);
    CountSnoc(s.pool, s.pc[c].task.id, id);
    CountSnoc(s.interruptPool, s.pc[c].task.id, id);
  }

  lemma {:induction false} TakeMovesOne(s: State, s': State, c: nat, tr: Trigger, kind: EventType, arg: nat, id: nat)
    requires Shape(s) && c < |s.pc|
    requires TakeTask(s, s', c, tr, kind, arg) || TakeInterruptTask(s, s', c, tr, arg)
    ensures Places(s', id) == Places(s, id)
  {
    var t := s'.hand[c][|s.hand[c]|];
    CountInsertAt(s.hand[c], |s.hand[c]|, t, id);
    assert InsertAt(s.hand[c], |s.hand[c]|, t) == s'.hand[c];
    QueuesUpdate(s.hand, c, s'.hand[c], id);
  }

  lemma {:induction false} ReadyMovesOne(s: State, s': State, c: nat, id: nat)
    requires Shape(s) && c < |s.pc| && Ready(s, s', c)
    ensures Places(s', id) == Places(s, id)
  {
    var n := |s.hand[c]| - 1;
    var t := s.hand[c][n].(serial := |s.enqueued|);
    var q := QueueOf(t.trigger, |s.pc|);
    CountWithout(s.hand[c], n, id);
    assert Without(s.hand[c], n) == s.hand[c][..n];
    QueuesUpdate(s.hand, c, s.hand[c][..n], id);
    CountInsertAt(s.ready[q], InsertPosition(s.ready[q], Priority(t)), t, id);
    QueuesUpdate(s.ready, q, s'.ready[q], id);
  }

  lemma {:induction false} StepConserves(s: State, s': State, c: nat, a: Action, id: nat)
    requires Shape(s) && c < |s.pc| && Does(s, s', c, a)
    requires |s'.pc| == |s.pc| && !s'.pc[c].Hung?
    ensures Places(s', id) == Places(s, id)
  {
    match a
    case DoLockTask => LockMovesOne(s, s', c, id);
    case DoRequeue => RequeueMovesOne(s, s', c, id);
    case DoTakeTask(tr, kind, arg) => TakeMovesOne(s, s', c, tr, kind, arg, id);
    case DoTakeInterruptTask(tr, arg) => TakeMovesOne(s, s', c, tr, Interrupt, arg, id);
    case DoReady => ReadyMovesOne(s, s', c, id);
    case _ =>
      NoMove(s, s', c, a);
      SlotsUpdate(s.pc, c, s'.pc[c], id);
  }

  // ----- each pool keeps its own task objects -----

  /** Interrupt task objects carry interrupt activations, the others carry everything else. */
  predicate KindOk(t: EventTask) {
    t.kind.Interrupt? <==> t.id >= EVENT_TASK_POOL_SIZE
  }

  ghost predicate AllKindsOk(q: seq<EventTask>)
  {
    forall i :: 0 <= i < |q| ==> KindOk(q[i])
  }

  ghost predicate KindsOk(s: State)
  {
    && (forall i :: 0 <= i < |s.pool| ==> s.pool[i] < EVENT_TASK_POOL_SIZE)
    && (forall i :: 0 <= i < |s.interruptPool| ==> s.interruptPool[i] >= EVENT_TASK_POOL_SIZE)
    && (forall q :: 0 <= q < |s.ready| ==> AllKindsOk(s.ready[q]))
    && (forall c :: 0 <= c < |s.hand| ==> AllKindsOk(s.hand[c]))
    && (forall c :: 0 <= c < |s.pc| && TaskOf(s.pc[c]).Some? ==> KindOk(TaskOf(s.pc[c]).value))
  }

  lemma {:induction false} LockKeepsKinds(s: State, s': State, c: nat)
    requires Shape(s) && c < |s.pc| && LockTask(s, s', c) && KindsOk(s)
    ensures KindsOk(s')
  {
    assert AllKindsOk(s.ready[s.pc[c].queue]);
  }

  lemma {:induction false} ReadyKeepsKinds(s: State, s': State, c: nat)
    requires Shape(s) && c < |s.pc| && Ready(s, s', c) && KindsOk(s)
    ensures KindsOk(s')
  {
    assert AllKindsOk(s.hand[c]) && KindOk(s.hand[c][|s.hand[c]| - 1].(serial := |s.enqueued|));
  }

  lemma {:induction false} StepKeepsKinds(s: State, s': State, c: nat, a: Action)
    requires Shape(s) && c < |s.pc| && Does(s, s', c, a) && KindsOk(s)
    ensures KindsOk(s')
  {
    match a
    case DoLockTask => LockKeepsKinds(s, s', c);
    case DoReady => ReadyKeepsKinds(s, s', c);
    case DoRequeue =>
    case DoTakeTask(_, _, _) =>
    case DoTakeInterruptTask(_, _) =>
    case _ => NoMove(s, s', c, a);
  }

  // ----- stacks -----

  /** The stack a CPU has taken from the pool and not yet given back. */
  function StackOf(s: State, c: nat): Option<nat>
    requires Shape(s) && c < |s.pc|
  {
    match s.pc[c]
    case Activating(_, i) => Some(i)
    case _ => s.stackPointer[c]
  }

  ghost predicate CpuStackOk(s: State, c: nat)
    requires Shape(s) && c < |s.pc|
  {
    && !s.pc[c].Hung?
    && (s.pc[c].Running? ==> s.stackPointer[c] == Some(s.pc[c].stack))
    && (s.pc[c].Waiting? || s.pc[c].Scan? || s.pc[c].WantGlobal? || s.pc[c].Picked? || s.pc[c].Activating? ==>
          s.stackPointer[c] == None)
    && (StackOf(s, c).Some? ==> StackOf(s, c).value < |s.used| && s.holder[StackOf(s, c).value] == Some(c))
  }

  ghost predicate StackOk(s: State, i: nat)
    requires Shape(s) && i < |s.used|
  {
    && (s.used[i] <==> s.holder[i].Some?)
    && (s.holder[i].Some? ==> s.holder[i].value < |s.pc| && StackOf(s, s.holder[i].value) == Some(i))
  }

  ghost predicate StacksOk(s: State)
    requires Shape(s)
  {
    && (forall c :: 0 <= c < |s.pc| ==> CpuStackOk(s, c))
    && (forall i :: 0 <= i < |s.used| ==> StackOk(s, i))
  }

  /** How far `k` lies behind `from`, going round. */
  function Distance(from: nat, k: nat, n: nat): int
  {
    if k >= from then k - from else k + n - from
  }

  lemma {:induction false} NoFreeStack(used: seq<bool>, from: nat, tries: nat)
    requires from < |used| && tries <= |used| && FreeStack(used, from, tries) == None
    ensures forall k :: 0 <= k < |used| && Distance(from, k, |used|) < tries ==> used[k]
    decreases tries
  {
    if tries > 0 {
      var next := if from + 1 == |used| then 0 else from + 1;
      NoFreeStack(used, next, tries - 1);
      forall k | 0 <= k < |used| && Distance(from, k, |used|) < tries ensures used[k] {
        assert k != from ==> Distance(next, k, |used|) == Distance(from, k, |used|) - 1;
      }
    }
  }

  /** The stack found is free, and all stacks before it, going round from `from`, are used. */
  lemma {:induction false} FoundIsFirst(used: seq<bool>, from: nat, tries: nat)
    requires from < |used| && tries <= |used| && FreeStack(used, from, tries).Some?
    ensures var i := FreeStack(used, from, tries).value;
            && i < |used| && !used[i] && Distance(from, i, |used|) < tries
            && forall k :: 0 <= k < |used| && Distance(from, k, |used|) < Distance(from, i, |used|) ==> used[k]
    decreases tries
  {
    if used[from] {
      var next := if from + 1 == |used| then 0 else from + 1;
      FoundIsFirst(used, next, tries - 1);
      var i := FreeStack(used, next, tries - 1).value;
      forall k | 0 <= k < |used| && Distance(from, k, |used|) < Distance(from, i, |used|) ensures used[k] {
        assert k != from ==> Distance(next, k, |used|) == Distance(from, k, |used|) - 1;
      }
    }
  }

  /** As many stacks as CPUs, and the asking CPU holds none: one is free. */
  lemma {:induction false} StackAvailable(s: State, c: nat)
    requires Shape(s) && StacksOk(s) && c < |s.pc| && s.pc[c].Picked?
    ensures FreeStack(s.used, s.cursor, |s.used|).Some?
  {
    assert CpuStackOk(s, c);
    var n := |s.used|;
    if FreeStack(s.used, s.cursor, n) == None {
      NoFreeStack(s.used, s.cursor, n);
      forall i | 0 <= i < n ensures s.holder[i].Some? && s.holder[i].value < n && StackOf(s, s.holder[i].value) == Some(i) {
        assert StackOk(s, i);
      }
      var holders := seq(n, i requires 0 <= i < n => s.holder[i].value);
      DistinctCovers(holders, n, c);
    }
  }

  lemma {:induction false} StepKeepsCpuStack(s: State, s': State, c: nat, a: Action, d: nat)
    requires Shape(s) && c < |s.pc| && Does(s, s', c, a) && d < |s.pc|
    requires CpuStackOk(s, c) && CpuStackOk(s, d)
    requires a.DoTakeStack? ==> FreeStack(s.used, s.cursor, |s.used|).Some?
    requires forall i :: 0 <= i < |s.used| ==> StackOk(s, i)
    ensures Shape(s') && |s'.pc| == |s.pc| && CpuStackOk(s', d)
  {
    StepKeepsShape(s, s', c, a);
    match a
    case DoTakeStack => assert StackOk(s, FreeStack(s.used, s.cursor, |s.used|).value);
    case _ =>
  }

  lemma {:induction false} StepKeepsStack(s: State, s': State, c: nat, a: Action, i: nat)
    requires Shape(s) && c < |s.pc| && Does(s, s', c, a) && i < |s.used|
    requires CpuStackOk(s, c) && StackOk(s, i)
    ensures Shape(s') && |s'.used| == |s.used| && StackOk(s', i)
  {
    StepKeepsShape(s, s', c, a);
  }

  lemma {:induction false} StepKeepsStacks(s: State, s': State, c: nat, a: Action)
    requires Shape(s) && c < |s.pc| && Does(s, s', c, a) && StacksOk(s)
    ensures Shape(s') && StacksOk(s')
  {
    StepKeepsShape(s, s', c, a);
    if a.DoTakeStack? {
      StackAvailable(s, c);
    }
    forall d | 0 <= d < |s'.pc| ensures CpuStackOk(s', d) {
      StepKeepsCpuStack(s, s', c, a, d);
    }
    forall i | 0 <= i < |s'.used| ensures StackOk(s', i) {
      StepKeepsStack(s, s', c, a, i);
    }
  }

  // ----- enqueue numbers -----

  /** The i-th activation ever enqueued carries number i. */
  ghost predicate Numbered(s: State)
  {
    forall i :: 0 <= i < |s.enqueued| ==> s.enqueued[i].serial == i
  }

  lemma {:induction false} StepKeepsNumbers(s: State, s': State, c: nat, a: Action)
    requires Shape(s) && c < |s.pc| && Does(s, s', c, a) && Numbered(s)
    ensures Numbered(s')
  {
    match a
    case DoLockTask =>
    case DoReady =>
    case _ => QueueFrame(s, s', c, a);
  }
}
