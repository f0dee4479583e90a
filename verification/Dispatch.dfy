/** The dispatcher of eventhandling/EventHandler.cc with its scheduling strategy and stack pool, as
    one machine: every CPU is somewhere in the loop

        start -> waiting -> scan own queue -> scan global queue -> picked -> activating -> running -> retiring

    and every region the source protects by one spinlock is one step.  A scan holds its queue's lock
    over several steps, one per tryTaskLock call, so other CPUs move in between.  Triggers may be
    raised by any CPU at any time, which covers component code as well as interrupt handlers.  */
module Dispatch {
  import opened EventTypes
  import opened IntrusiveQueue
  import opened ReadyQueue

  const EVENT_TASK_POOL_SIZE: nat := 128
  const INTERRUPT_TASK_POOL_SIZE: nat := 8
  const TASKS: nat := EVENT_TASK_POOL_SIZE + INTERRUPT_TASK_POOL_SIZE

  datatype Pc =
    | Start                                       // dispatching() before its loop
    | Waiting                                     // loop head
    | Scan(queue: nat, pos: nat)                  // dequeueHighestPriority under the queue's lock
    | WantGlobal                                  // nothing lockable in the own queue
    | Picked(task: EventTask)                     // locked and dequeued, no stack yet
    | Activating(task: EventTask, stack: nat)     // activateOSC
    | Running(task: EventTask, stack: nat)        // component code
    | Retiring(task: EventTask)                   // eventTaskFinished after unlockTask
    | Hung                                        // "Trying to activate non locked task"

  datatype State = State(
    pool: seq<nat>,                       // pEventTaskPoolQueue
    interruptPool: seq<nat>,              // pInterruptTaskPoolQueue
    ready: seq<seq<EventTask>>,           // mFifoQueue: one per CPU, then the global one
    queueLock: seq<Option<nat>>,          // CPU that is scanning the queue
    active: seq<Option<EventTask>>,       // pActiveEventTask
    pc: seq<Pc>,
    hand: seq<seq<EventTask>>,            // per CPU: taken from a pool, not yet enqueued
    used: seq<bool>,                      // mUsedStacks
    cursor: nat,                          // mUsedPointer
    stackPointer: seq<Option<nat>>,       // pStackPointers
    holder: seq<Option<nat>>,             // history: CPU that took the stack
    enqueued: seq<EventTask>,             // history: activations in the order they became ready
    started: seq<EventTask>               // history: activations in the order they were locked
  )

  /** The queue an activation belongs in.  cpu_t is a byte; out-of-range affinities mean "any CPU". */
  function QueueOf(tr: Trigger, cpus: nat): (q: nat)
    ensures q <= cpus
  {
    var cpuNo := tr.affinity % 256;
    if cpuNo >= cpus then cpus else cpuNo
  }

  /** A trigger's queue is that of the CPU it names, if there is such a CPU, and the last one otherwise. */
  lemma {:induction false} QueueByAffinity(tr: Trigger, cpus: nat)
    ensures tr.affinity % 256 < cpus ==> QueueOf(tr, cpus) == tr.affinity % 256
    ensures tr.affinity % 256 >= cpus ==> QueueOf(tr, cpus) == cpus
  {
  }

  /** The first free stack in cyclic order from `from`, looking at `tries` stacks. */
  function FreeStack(used: seq<bool>, from: nat, tries: nat): (r: Option<nat>)
    requires from < |used|
    ensures r.Some? ==> r.value < |used| && !used[r.value]
    decreases tries
  {
    if tries == 0 then None
    else if !used[from] then Some(from)
    else FreeStack(used, if from + 1 == |used| then 0 else from + 1, tries - 1)
  }

  ghost predicate Shape(s: State)
  {
    && |s.pc| > 0
    && |s.active| == |s.hand| == |s.used| == |s.stackPointer| == |s.holder| == |s.pc|
    && |s.ready| == |s.queueLock| == |s.pc| + 1
    && s.cursor < |s.used|
  }

  ghost predicate Init(s: State, cpus: nat)
  {
    && cpus > 0
    && s == State(seq(EVENT_TASK_POOL_SIZE, i => i),
                  seq(INTERRUPT_TASK_POOL_SIZE, i => EVENT_TASK_POOL_SIZE + i),
                  seq(cpus + 1, _ => []), seq(cpus + 1, _ => None),
                  seq(cpus, _ => None), seq(cpus, _ => Start), seq(cpus, _ => []),
                  seq(cpus, _ => false), 0, seq(cpus, _ => None), seq(cpus, _ => None), [], [])
  }

  // ----- the steps of CPU c -----

  /** dispatching(): give back the stack of the previous task. */
  ghost predicate ReleaseStack(s: State, s': State, c: nat)
    requires Shape(s) && c < |s.pc|
  {
    && s.pc[c].Start?
    && (s.stackPointer[c].Some? ==> s.stackPointer[c].value < |s.used|)
    && s' == match s.stackPointer[c]
             case None => s.(pc := s.pc[c := Waiting])
             case Some(i) => s.(pc := s.pc[c := Waiting], used := s.used[i := false],
                                stackPointer := s.stackPointer[c := None], holder := s.holder[i := None])
  }

  /** getReadyEvent / getGlobalReadyEvent: take the queue's lock and look at its head. */
  ghost predicate BeginScan(s: State, s': State, c: nat)
    requires Shape(s) && c < |s.pc|
  {
    && (s.pc[c].Waiting? || s.pc[c].WantGlobal?)
    && var q := if s.pc[c].Waiting? then c else |s.pc|;
       && s.queueLock[q] == None
       && s' == s.(queueLock := s.queueLock[q := Some(c)], pc := s.pc[c := Scan(q, 0)])
  }

  /** tryTaskLock succeeds on the scanned task: dequeue it and give the queue's lock back. */
  ghost predicate LockTask(s: State, s': State, c: nat)
    requires Shape(s) && c < |s.pc|
  {
    && s.pc[c].Scan? && s.pc[c].queue <= |s.pc|
    && var q, i := s.pc[c].queue, s.pc[c].pos;
       && i < |s.ready[q]|
       && var t := s.ready[q][i];
          && CanLock(s.active, t.trigger)
          && s' == s.(active := s.active[c := Some(t)],
                      ready := s.ready[q := Without(s.ready[q], i)],
                      queueLock := s.queueLock[q := None],
                      pc := s.pc[c := Picked(t)],
                      started := s.started + [t])
  }

  /** tryTaskLock fails: go on with the next priority level. */
  ghost predicate SkipLevel(s: State, s': State, c: nat)
    requires Shape(s) && c < |s.pc|
  {
    && s.pc[c].Scan? && s.pc[c].queue <= |s.pc|
    && var q, i := s.pc[c].queue, s.pc[c].pos;
       && i < |s.ready[q]|
       && !CanLock(s.active, s.ready[q][i].trigger)
       && s' == s.(pc := s.pc[c := Scan(q, NextLevel(s.ready[q], i))])
  }

  /** The queue has no lockable task: give its lock back, then try the global queue or go to sleep. */
  ghost predicate EndScan(s: State, s': State, c: nat)
    requires Shape(s) && c < |s.pc|
  {
    && s.pc[c].Scan? && s.pc[c].queue <= |s.pc|
    && var q := s.pc[c].queue;
       && s.pc[c].pos == |s.ready[q]|
       && s' == s.(queueLock := s.queueLock[q := None],
                   pc := s.pc[c := if q == c then WantGlobal else Waiting])
  }

  /** getEvent: find a stack.  Without one the dispatcher would hang, see Hung. */
  ghost predicate TakeStack(s: State, s': State, c: nat)
    requires Shape(s) && c < |s.pc|
  {
    && s.pc[c].Picked?
    && s' == match FreeStack(s.used, s.cursor, |s.used|)
             case Some(i) => s.(used := s.used[i := true], cursor := i, holder := s.holder[i := Some(c)],
                                pc := s.pc[c := Activating(s.pc[c].task, i)])
             case None => s.(pc := s.pc[c := Hung])
  }

  ghost predicate Activate(s: State, s': State, c: nat)
    requires Shape(s) && c < |s.pc|
  {
    && s.pc[c].Activating?
    && s' == s.(stackPointer := s.stackPointer[c := Some(s.pc[c].stack)],
                pc := s.pc[c := Running(s.pc[c].task, s.pc[c].stack)])
  }

  /** eventTaskFinished up to and including unlockTask. */
  ghost predicate Finish(s: State, s': State, c: nat)
    requires Shape(s) && c < |s.pc|
  {
    && s.pc[c].Running?
    && s' == s.(active := s.active[c := None], pc := s.pc[c := Retiring(s.pc[c].task)])
  }

  /** The rest of eventTaskFinished: the event's type decides which pool gets the task back. */
  ghost predicate Requeue(s: State, s': State, c: nat)
    requires Shape(s) && c < |s.pc|
  {
    && s.pc[c].Retiring?
    && var t := s.pc[c].task;
       s' == if t.kind.Interrupt?
             then s.(interruptPool := s.interruptPool + [t.id], pc := s.pc[c := Start])
             else s.(pool := s.pool + [t.id], pc := s.pc[c := Start])
  }

  /** getTask for a software or timer event or a direct call. */
  ghost predicate TakeTask(s: State, s': State, c: nat, tr: Trigger, kind: EventType, arg: nat)
    requires Shape(s) && c < |s.pc|
  {
    && s.pool != []
    && !kind.Interrupt?
    && s' == s.(pool := s.pool[1..], hand := s.hand[c := s.hand[c] + [EventTask(s.pool[0], tr, kind, arg, 0)]])
  }

  /** getInterruptTask for an interrupt event. */
  ghost predicate TakeInterruptTask(s: State, s': State, c: nat, tr: Trigger, arg: nat)
    requires Shape(s) && c < |s.pc|
  {
    && s.interruptPool != []
    && s' == s.(interruptPool := s.interruptPool[1..],
                hand := s.hand[c := s.hand[c] + [EventTask(s.interruptPool[0], tr, Interrupt, arg, 0)]])
  }

  /** readyTask: put the task taken last into its queue. */
  ghost predicate Ready(s: State, s': State, c: nat)
    requires Shape(s) && c < |s.pc|
  {
    && s.hand[c] != []
    && var n := |s.hand[c]| - 1;
       var t := s.hand[c][n].(serial := |s.enqueued|);
       var q := QueueOf(t.trigger, |s.pc|);
       && s.queueLock[q] == None
       && s' == s.(ready := s.ready[q := PriorityInsert(s.ready[q], t)],
                   hand := s.hand[c := s.hand[c][..n]],
                   enqueued := s.enqueued + [t])
  }

  datatype Action =
    | DoReleaseStack | DoBeginScan | DoLockTask | DoSkipLevel | DoEndScan | DoTakeStack | DoActivate | DoFinish
    | DoRequeue | DoTakeTask(trigger: Trigger, kind: EventType, arg: nat) | DoTakeInterruptTask(trigger: Trigger, arg: nat)
    | DoReady

  ghost predicate Does(s: State, s': State, c: nat, a: Action)
    requires Shape(s) && c < |s.pc|
  {
    match a
    case DoReleaseStack => ReleaseStack(s, s', c)
    case DoBeginScan => BeginScan(s, s', c)
    case DoLockTask => LockTask(s, s', c)
    case DoSkipLevel => SkipLevel(s, s', c)
    case DoEndScan => EndScan(s, s', c)
    case DoTakeStack => TakeStack(s, s', c)
    case DoActivate => Activate(s, s', c)
    case DoFinish => Finish(s, s', c)
    case DoRequeue => Requeue(s, s', c)
    case DoTakeTask(tr, kind, arg) => TakeTask(s, s', c, tr, kind, arg)
    case DoTakeInterruptTask(tr, arg) => TakeInterruptTask(s, s', c, tr, arg)
    case DoReady => Ready(s, s', c)
  }

  ghost predicate Step(s: State, s': State)
  {
    Shape(s) && exists c: nat, a: Action :: c < |s.pc| && Does(s, s', c, a)
  }

  ghost predicate StepAt(run: seq<State>, i: nat)
  {
    i + 1 < |run| && Step(run[i], run[i + 1])
  }

  ghost predicate IsRun(run: seq<State>, cpus: nat)
  {
    && |run| > 0
    && Init(run[0], cpus)
    && forall i :: 0 <= i < |run| - 1 ==> StepAt(run, i)
  }
}
