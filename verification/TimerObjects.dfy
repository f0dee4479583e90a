/** Where the one-shot event objects of driver/GenericTimer.cc are: a machine of the dispatcher together with
    the pool and the queue of one-shot events.  How long each event still waits is TimerModel's concern; here
    an object may be put anywhere in the queue, and its head may fire at any time. */
module TimerObjects {
  import opened EventTypes
  import opened IntrusiveQueue
  import opened ReadyQueue
  import D = Dispatch
  import opened DispatchProofs
  import DispatchTheorems

  const ONESHOTS: nat := 32

  datatype State = State(
    d: D.State,
    pool: seq<nat>,               // mOneshotEventPool
    setting: seq<nat>,            // in setOneshotEvent: taken from the pool, not yet queued
    queue: seq<nat>,              // mOneshotQueue
    carried: seq<Option<nat>>,    // per task object: the one-shot event it was set up for
    lost: seq<nat>                // history: fired when there was no task
  )

  ghost predicate Init(s: State, cpus: nat)
  {
    && D.Init(s.d, cpus)
    && s == State(s.d, seq(ONESHOTS, i => i), [], [], seq(D.TASKS, _ => None), [])
  }

  datatype Event =
    | Kernel(cpu: nat, action: D.Action)
    | TakeObject
    | QueueObject(i: nat, k: nat)
    | CancelObject(k: nat)
    | Fire(cpu: nat, trigger: Trigger)
    | ReturnObject(cpu: nat)

  /** A step of the dispatcher.  Tasks for one-shot events come from Fire only, and such a task goes back to
      its pool after its event has gone back to the timer's. */
  ghost predicate KernelStep(s: State, s': State, c: nat, a: D.Action)
  {
    && D.Shape(s.d) && c < |s.d.pc| && D.Does(s.d, s'.d, c, a) && s' == s.(d := s'.d)
    && !(a.DoTakeTask? && a.kind.Oneshot?)
    && (a.DoRequeue? && s.d.pc[c].Retiring? && s.d.pc[c].task.kind.Oneshot? ==>
          s.d.pc[c].task.id < |s.carried| && s.carried[s.d.pc[c].task.id] == None)
  }

  /** The tick dequeues the head and calls eventTriggered for it, whose getTask finds a task or not. */
  ghost predicate FireStep(s: State, s': State, c: nat, tr: Trigger)
  {
    && D.Shape(s.d) && c < |s.d.pc| && s.queue != []
    && (if s.d.pool == [] then
          s' == s.(queue := s.queue[1..], lost := s.lost + [s.queue[0]])
        else
          && D.TakeTask(s.d, s'.d, c, tr, Oneshot, 0) && s.d.pool[0] < |s.carried|
          && s' == s.(d := s'.d, queue := s.queue[1..], carried := s.carried[s.d.pool[0] := Some(s.queue[0])]))
  }

  /** eventTaskFinished gives the event of the task back. */
  ghost predicate ReturnStep(s: State, s': State, c: nat)
  {
    && D.Shape(s.d) && c < |s.d.pc| && s.d.pc[c].Retiring? && s.d.pc[c].task.kind.Oneshot?
    && var id := s.d.pc[c].task.id;
       && id < |s.carried| && s.carried[id].Some?
       && s' == s.(pool := s.pool + [s.carried[id].value], carried := s.carried[id := None])
  }

  ghost predicate Does(s: State, s': State, e: Event)
  {
    match e
    case Kernel(c, a) => KernelStep(s, s', c, a)
    case TakeObject => s.pool != [] && s' == s.(pool := s.pool[1..], setting := s.setting + [s.pool[0]])
    case QueueObject(i, k) =>
      && i < |s.setting| && k <= |s.queue|
      && s' == s.(setting := Without(s.setting, i), queue := InsertAt(s.queue, k, s.setting[i]))
    case CancelObject(k) =>
      k < |s.queue| && s' == s.(queue := Without(s.queue, k), pool := s.pool + [s.queue[k]])
    case Fire(c, tr) => FireStep(s, s', c, tr)
    case ReturnObject(c) => ReturnStep(s, s', c)
  }

  ghost predicate StepAt(run: seq<State>, events: seq<Event>, i: nat)
  {
    i < |events| && i + 1 < |run| && Does(run[i], run[i + 1], events[i])
  }

  ghost predicate IsRun(run: seq<State>, events: seq<Event>, cpus: nat)
  {
    |run| == |events| + 1 && Init(run[0], cpus) && forall i :: 0 <= i < |events| ==> StepAt(run, events, i)
  }

  // ----- the dispatcher's part -----

  lemma {:induction false} StepKeepsGood(s: State, s': State, e: Event, cpus: nat)
    requires DispatchTheorems.Good(s.d, cpus) && Does(s, s', e)
    ensures DispatchTheorems.Good(s'.d, cpus)
  {
    match e
    case Kernel(c, a) =>
      assert D.Step(s.d, s'.d);
      DispatchTheorems.StepKeepsGood(s.d, s'.d, cpus);
    case Fire(c, tr) =>
      if s.d.pool != [] {
        assert D.Does(s.d, s'.d, c, D.DoTakeTask(tr, Oneshot, 0));
        assert D.Step(s.d, s'.d);
        DispatchTheorems.StepKeepsGood(s.d, s'.d, cpus);
      }
    case _ =>
  }

  // ----- objects carried by tasks -----

  /** Task value t is in a CPU's hand, in a ready queue, or on a CPU. */
  ghost predicate Out(d: D.State, t: EventTask)
  {
    || (exists c :: 0 <= c < |d.hand| && t in d.hand[c])
    || (exists q :: 0 <= q < |d.ready| && t in d.ready[q])
    || (exists c :: 0 <= c < |d.pc| && TaskOf(d.pc[c]) == Some(t))
  }

  lemma {:induction false} CountedInQueue(q: seq<EventTask>, t: EventTask)
    requires t in q
    ensures CountInQueue(q, t.id) > 0
  {
    if q[0] != t {
      CountedInQueue(q[1..], t);
    }
  }

  lemma {:induction false} CountedInQueues(qs: seq<seq<EventTask>>, k: nat, t: EventTask)
    requires k < |qs| && t in qs[k]
    ensures CountInQueues(qs, t.id) > 0
  {
    if k == 0 {
      CountedInQueue(qs[0], t);
    } else {
      CountedInQueues(qs[1..], k - 1, t);
    }
  }

  /** A task object in its pool is nowhere else. */
  lemma {:induction false} FreeTaskIsNotOut(d: D.State, cpus: nat, t: EventTask)
    requires DispatchTheorems.Good(d, cpus) && t.id in d.pool
    ensures !Out(d, t)
  {
    DispatchTheorems.CountedIfIn(d.pool, t.id);
    assert Places(d, t.id) <= 1;
    forall c | 0 <= c < |d.hand| ensures t !in d.hand[c] {
      if t in d.hand[c] {
        CountedInQueues(d.hand, c, t);
      }
    }
    forall q | 0 <= q < |d.ready| ensures t !in d.ready[q] {
      if t in d.ready[q] {
        CountedInQueues(d.ready, q, t);
      }
    }
    forall c | 0 <= c < |d.pc| ensures TaskOf(d.pc[c]) != Some(t) {
      if TaskOf(d.pc[c]) == Some(t) {
        DispatchTheorems.CountedInSlot(d.pc, c);
      }
    }
  }

  /** A task that carries an event is not free, and whatever is set up with it is an activation for a one-shot
      event. */
  ghost predicate CarrierOk(s: State, id: nat)
  {
    id < |s.carried| && s.carried[id].Some? ==>
      && id < D.EVENT_TASK_POOL_SIZE && id !in s.d.pool
      && forall t :: Out(s.d, t) && t.id == id ==> t.kind.Oneshot?
  }

  ghost predicate CarriersOk(s: State)
  {
    |s.carried| == D.TASKS && forall id: nat :: CarrierOk(s, id)
  }

  lemma {:induction false} OutBeforeReady(d: D.State, d': D.State, c: nat, t: EventTask) returns (u: EventTask)
    requires D.Shape(d) && c < |d.pc| && D.Ready(d, d', c) && Out(d', t)
    ensures Out(d, u) && u.id == t.id && u.kind == t.kind
  {
    u := t;
    if !Out(d, t) {
      u := d.hand[c][|d.hand[c]| - 1];
      assert u in d.hand[c] && t == u.(serial := |d.enqueued|);
    }
  }

  lemma {:induction false} OutBeforeLock(d: D.State, d': D.State, c: nat, t: EventTask)
    requires D.Shape(d) && c < |d.pc| && D.LockTask(d, d', c) && Out(d', t)
    ensures Out(d, t)
  {
    assert d.ready[d.pc[c].queue][d.pc[c].pos] in d.ready[d.pc[c].queue];
  }

  lemma {:induction false} OutBeforeTake(d: D.State, d': D.State, c: nat, taken: EventTask, t: EventTask)
    requires c < |d.hand| && d'.hand == d.hand[c := d.hand[c] + [taken]] && d'.ready == d.ready && d'.pc == d.pc && Out(d', t)
    ensures Out(d, t) || t == taken
  {
  }

  lemma {:induction false} OutBeforeQuiet(d: D.State, d': D.State, c: nat, a: D.Action, t: EventTask)
    requires D.Shape(d) && c < |d.pc| && D.Does(d, d', c, a) && Out(d', t) && !(|d'.pc| == |d.pc| && d'.pc[c].Hung?)
    requires a.DoReleaseStack? || a.DoBeginScan? || a.DoSkipLevel? || a.DoEndScan? || a.DoTakeStack? || a.DoActivate?
             || a.DoFinish?
    ensures Out(d, t)
  {
    NoMove(d, d', c, a);
  }

  /** Where a task value comes from: it was out before, or it has just been taken from a pool. */
  lemma {:induction false} OutBefore(d: D.State, d': D.State, c: nat, a: D.Action, t: EventTask) returns (u: EventTask)
    requires D.Shape(d) && c < |d.pc| && D.Does(d, d', c, a) && Out(d', t) && !(|d'.pc| == |d.pc| && d'.pc[c].Hung?)
    ensures u.id == t.id && u.kind == t.kind
    ensures || Out(d, u)
            || (a.DoTakeTask? && d.pool != [] && t.id == d.pool[0] && t.kind == a.kind)
            || (a.DoTakeInterruptTask? && d.interruptPool != [] && t.id == d.interruptPool[0])
  {
    u := t;
    match a
    case DoReady => u := OutBeforeReady(d, d', c, t);
    case DoLockTask => OutBeforeLock(d, d', c, t);
    case DoRequeue =>
    case DoTakeTask(tr, kind, arg) => OutBeforeTake(d, d', c, EventTask(d.pool[0], tr, kind, arg, 0), t);
    case DoTakeInterruptTask(tr, arg) =>
      OutBeforeTake(d, d', c, EventTask(d.interruptPool[0], tr, Interrupt, arg, 0), t);
    case _ => OutBeforeQuiet(d, d', c, a, t);
  }

  lemma {:induction false} KernelKeepsCarrier(s: State, s': State, c: nat, a: D.Action, cpus: nat, id: nat)
    requires DispatchTheorems.Good(s.d, cpus) && DispatchTheorems.Good(s'.d, cpus) && KernelStep(s, s', c, a) && CarriersOk(s)
    ensures CarrierOk(s', id)
  {
    assert CarrierOk(s, id) && CpuStackOk(s'.d, c);
    if id < |s.carried| && s.carried[id].Some? {
      forall t | Out(s'.d, t) && t.id == id ensures t.kind.Oneshot? {
        var u := OutBefore(s.d, s'.d, c, a, t);
      }
      if a.DoRequeue? {
        assert Out(s.d, s.d.pc[c].task);
      }
    }
  }

  /** The task found for a fired event carried nothing. */
  lemma {:induction false} FireKeepsCarrier(s: State, s': State, c: nat, tr: Trigger, cpus: nat, id: nat)
    requires DispatchTheorems.Good(s.d, cpus) && DispatchTheorems.Good(s'.d, cpus) && FireStep(s, s', c, tr) && CarriersOk(s)
    ensures CarrierOk(s', id)
    ensures s.d.pool != [] ==> s.carried[s.d.pool[0]] == None
  {
    assert CarrierOk(s, id);
    if s.d.pool != [] {
      var taken := s.d.pool[0];
      assert CarrierOk(s, taken) && CpuStackOk(s'.d, c);
      forall t | Out(s'.d, t) && t.id == id && id < |s'.carried| && s'.carried[id].Some? ensures t.kind.Oneshot? {
        var u := OutBefore(s.d, s'.d, c, D.DoTakeTask(tr, Oneshot, 0), t);
        if Out(s.d, u) && id == taken {
          FreeTaskIsNotOut(s.d, cpus, u);
        }
      }
      TakenIsGone(s.d, cpus);
    }
  }

  lemma {:induction false} TakenIsGone(d: D.State, cpus: nat)
    requires DispatchTheorems.Good(d, cpus) && d.pool != []
    ensures d.pool[0] !in d.pool[1..] && d.pool[0] < D.EVENT_TASK_POOL_SIZE
  {
    DispatchTheorems.CountedIfIn(d.pool[1..], d.pool[0]);
    assert Places(d, d.pool[0]) <= 1;
  }

  lemma {:induction false} StepKeepsCarriers(s: State, s': State, e: Event, cpus: nat)
    requires DispatchTheorems.Good(s.d, cpus) && CarriersOk(s) && Does(s, s', e)
    ensures CarriersOk(s')
  {
    StepKeepsGood(s, s', e, cpus);
    forall id: nat ensures CarrierOk(s', id) {
      match e
      case Kernel(c, a) => KernelKeepsCarrier(s, s', c, a, cpus, id);
      case Fire(c, tr) => FireKeepsCarrier(s, s', c, tr, cpus, id);
      case _ => assert CarrierOk(s, id);
    }
  }

  // ----- where an object is -----

  function CountCarried(carried: seq<Option<nat>>, e: nat): nat {
    if carried == [] then 0 else (if carried[0] == Some(e) then 1 else 0) + CountCarried(carried[1..], e)
  }

  /** In how many places event object `e` is. */
  function ObjectPlaces(s: State, e: nat): nat {
    CountIn(s.pool, e) + CountIn(s.setting, e) + CountIn(s.queue, e) + CountCarried(s.carried, e) + CountIn(s.lost, e)
  }

  lemma {:induction false} CarriedUpdate(carried: seq<Option<nat>>, k: nat, x: Option<nat>, e: nat)
    requires k < |carried|
    ensures CountCarried(carried[k := x], e)
            == CountCarried(carried, e) - (if carried[k] == Some(e) then 1 else 0) + (if x == Some(e) then 1 else 0)
  {
    if k == 0 {
      assert carried[k := x][1..] == carried[1..];
    } else {
      assert carried[k := x][1..] == carried[1..][k - 1 := x];
      CarriedUpdate(carried[1..], k - 1, x, e);
    }
  }

  lemma {:induction false} NothingCarried(carried: seq<Option<nat>>, e: nat)
    requires forall k :: 0 <= k < |carried| ==> carried[k] == None
    ensures CountCarried(carried, e) == 0
  {
    if carried != [] {
      NothingCarried(carried[1..], e);
    }
  }

  lemma {:induction false} CountInsert(ids: seq<nat>, k: nat, x: nat, e: nat)
    requires k <= |ids|
    ensures CountIn(InsertAt(ids, k, x), e) == CountIn(ids, e) + (if x == e then 1 else 0)
  {
    if k == 0 {
      assert InsertAt(ids, k, x)[1..] == ids;
    } else {
      assert InsertAt(ids, k, x)[1..] == InsertAt(ids[1..], k - 1, x);
      CountInsert(ids[1..], k - 1, x, e);
    }
  }

  lemma {:induction false} CountRemove(ids: seq<nat>, k: nat, e: nat)
    requires k < |ids|
    ensures CountIn(ids, e) == CountIn(Without(ids, k), e) + (if ids[k] == e then 1 else 0)
  {
    assert InsertAt(Without(ids, k), k, ids[k]) == ids;
    CountInsert(Without(ids, k), k, ids[k], e);
  }

  lemma {:induction false} StepMovesObject(s: State, s': State, e: Event, cpus: nat, x: nat)
    requires DispatchTheorems.Good(s.d, cpus) && CarriersOk(s) && Does(s, s', e)
    ensures ObjectPlaces(s', x) == ObjectPlaces(s, x)
  {
    match e
    case Kernel(c, a) =>
    case TakeObject => CountSnoc(s.setting, s.pool[0], x);
    case QueueObject(i, k) =>
      CountRemove(s.setting, i, x);
      CountInsert(s.queue, k, s.setting[i], x);
    case CancelObject(k) =>
      CountRemove(s.queue, k, x);
      CountSnoc(s.pool, s.queue[k], x);
    case Fire(c, tr) =>
      CountSnoc(s.lost, s.queue[0], x);
      if s.d.pool != [] {
        StepKeepsGood(s, s', e, cpus);
        FireKeepsCarrier(s, s', c, tr, cpus, 0);
        CarriedUpdate(s.carried, s.d.pool[0], Some(s.queue[0]), x);
      }
    case ReturnObject(c) =>
      var id := s.d.pc[c].task.id;
      CountSnoc(s.pool, s.carried[id].value, x);
      CarriedUpdate(s.carried, id, None, x);
  }

  // ----- runs -----

  ghost predicate Kept(s: State, cpus: nat)
  {
    && DispatchTheorems.Good(s.d, cpus) && CarriersOk(s)
    && forall x: nat :: ObjectPlaces(s, x) == if x < ONESHOTS then 1 else 0
  }

  lemma {:induction false} InitIsKept(s: State, cpus: nat)
    requires Init(s, cpus)
    ensures Kept(s, cpus)
  {
    DispatchTheorems.InitIsGood(s.d, cpus);
    forall x: nat ensures ObjectPlaces(s, x) == if x < ONESHOTS then 1 else 0 {
      DispatchTheorems.CountRange(s.pool, 0, x);
      NothingCarried(s.carried, x);
    }
  }

  lemma {:induction false} RunIsKept(run: seq<State>, events: seq<Event>, cpus: nat, k: nat)
    requires IsRun(run, events, cpus) && k < |run|
    ensures Kept(run[k], cpus)
  {
    if k == 0 {
      InitIsKept(run[0], cpus);
    } else {
      RunIsKept(run, events, cpus, k - 1);
      assert StepAt(run, events, k - 1);
      StepKeepsGood(run[k - 1], run[k], events[k - 1], cpus);
      StepKeepsCarriers(run[k - 1], run[k], events[k - 1], cpus);
      forall x: nat ensures ObjectPlaces(run[k], x) == if x < ONESHOTS then 1 else 0 {
        StepMovesObject(run[k - 1], run[k], events[k - 1], cpus, x);
      }
    }
  }

  // ----- the theorems -----

  /** Every one-shot event object is in exactly one place at any time: in the pool, in setOneshotEvent, in the
      queue, with one task, or lost. */
  lemma {:induction false} ObjectConservation(run: seq<State>, events: seq<Event>, cpus: nat, k: nat, x: nat)
    requires IsRun(run, events, cpus) && k < |run|
    ensures ObjectPlaces(run[k], x) == if x < ONESHOTS then 1 else 0
  {
    RunIsKept(run, events, cpus, k);
  }

  /** The tick finds event x due and no free task. */
  ghost predicate FiresInVain(run: seq<State>, events: seq<Event>, m: nat, x: nat)
  {
    && m < |events| && m + 1 < |run| && events[m].Fire?
    && run[m].queue != [] && run[m].queue[0] == x && run[m].d.pool == []
  }

  lemma {:induction false} LostInStep(run: seq<State>, events: seq<Event>, m: nat, x: nat)
    requires StepAt(run, events, m)
    ensures x in run[m + 1].lost <==> x in run[m].lost || FiresInVain(run, events, m, x)
  {
  }

  /** An event object is lost if and only if it fired when no task was free; no other way leads there and
      none leads back. */
  lemma {:induction false} LostExactlyWhen(run: seq<State>, events: seq<Event>, cpus: nat, k: nat, x: nat)
    requires IsRun(run, events, cpus) && k < |run|
    ensures x in run[k].lost <==> exists m :: 0 <= m < k && FiresInVain(run, events, m, x)
  {
    if k > 0 {
      LostExactlyWhen(run, events, cpus, k - 1, x);
      assert StepAt(run, events, k - 1);
      LostInStep(run, events, k - 1, x);
    }
  }

  /** When nothing is being set, queued or carried by a task, the pool has every object that is not lost. */
  lemma {:induction false} RestReturns(run: seq<State>, events: seq<Event>, cpus: nat, k: nat, x: nat)
    requires IsRun(run, events, cpus) && k < |run| && x < ONESHOTS
    requires run[k].setting == [] && run[k].queue == [] && forall id :: 0 <= id < |run[k].carried| ==> run[k].carried[id] == None
    ensures x in run[k].pool <==> forall m :: 0 <= m < k ==> !FiresInVain(run, events, m, x)
  {
    ObjectConservation(run, events, cpus, k, x);
    LostExactlyWhen(run, events, cpus, k, x);
    NothingCarried(run[k].carried, x);
    DispatchTheorems.CountedIfIn(run[k].pool, x);
    DispatchTheorems.CountedIfIn(run[k].lost, x);
  }

  lemma {:induction false} FindInQueue(q: seq<EventTask>, id: nat) returns (t: EventTask)
    requires CountInQueue(q, id) > 0
    ensures t in q && t.id == id
  {
    if q[0].id == id {
      t := q[0];
    } else {
      t := FindInQueue(q[1..], id);
    }
  }

  lemma {:induction false} FindInQueues(qs: seq<seq<EventTask>>, id: nat) returns (k: nat, t: EventTask)
    requires CountInQueues(qs, id) > 0
    ensures k < |qs| && t in qs[k] && t.id == id
  {
    if CountInQueue(qs[0], id) > 0 {
      t := FindInQueue(qs[0], id);
      k := 0;
    } else {
      k, t := FindInQueues(qs[1..], id);
      k := k + 1;
    }
  }

  lemma {:induction false} FindInSlots(pc: seq<D.Pc>, id: nat) returns (c: nat, t: EventTask)
    requires CountInSlots(pc, id) > 0
    ensures c < |pc| && TaskOf(pc[c]) == Some(t) && t.id == id
  {
    if CountAt(pc[0], id) > 0 {
      c, t := 0, TaskOf(pc[0]).value;
    } else {
      c, t := FindInSlots(pc[1..], id);
      c := c + 1;
    }
  }

  /** The task that carries an event object is an unfinished activation for a one-shot event: in a CPU's hand,
      in a ready queue or on a CPU, and not yet back in its pool. */
  lemma {:induction false} CarrierIsUnfinished(run: seq<State>, events: seq<Event>, cpus: nat, k: nat, id: nat)
    requires IsRun(run, events, cpus) && k < |run| && id < |run[k].carried| && run[k].carried[id].Some?
    ensures id !in run[k].d.pool && exists t :: Out(run[k].d, t) && t.id == id && t.kind.Oneshot?
  {
    RunIsKept(run, events, cpus, k);
    var d := run[k].d;
    assert CarrierOk(run[k], id);
    DispatchTheorems.CountedIfIn(d.pool, id);
    DispatchTheorems.CountedIfIn(d.interruptPool, id);
    assert Places(d, id) == 1;
    if CountInQueues(d.ready, id) > 0 {
      var q, t := FindInQueues(d.ready, id);
      assert Out(d, t);
    } else if CountInQueues(d.hand, id) > 0 {
      var c, t := FindInQueues(d.hand, id);
      assert Out(d, t);
    } else {
      var c, t := FindInSlots(d.pc, id);
      assert Out(d, t);
    }
  }

  // ----- a run that loses an object -----

  lemma {:induction false} Extend(run: seq<State>, events: seq<Event>, cpus: nat, e: Event, s': State)
    returns (longer: seq<State>, more: seq<Event>)
    requires IsRun(run, events, cpus) && Does(run[|run| - 1], s', e)
    ensures IsRun(longer, more, cpus) && longer == run + [s'] && more == events + [e]
  {
    longer, more := run + [s'], events + [e];
    forall i | 0 <= i < |more| ensures StepAt(longer, more, i) {
      assert i < |events| ==> StepAt(run, events, i);
    }
  }

  /** CPU 0 takes all tasks from the pool. */
  lemma {:induction false} TakeAll(run: seq<State>, events: seq<Event>, tr: Trigger) returns (longer: seq<State>, more: seq<Event>)
    requires IsRun(run, events, 1) && D.Shape(run[|run| - 1].d) && |run[|run| - 1].d.pc| == 1
    ensures IsRun(longer, more, 1) && D.Shape(longer[|longer| - 1].d) && longer[|longer| - 1].d.pool == []
    ensures longer[|longer| - 1].queue == run[|run| - 1].queue
    decreases |run[|run| - 1].d.pool|
  {
    longer, more := run, events;
    var s := run[|run| - 1];
    if s.d.pool != [] {
      var d' := s.d.(pool := s.d.pool[1..], hand := s.d.hand[0 := s.d.hand[0] + [EventTask(s.d.pool[0], tr, Software, 0, 0)]]);
      assert D.TakeTask(s.d, d', 0, tr, Software, 0);
      longer, more := Extend(run, events, 1, Kernel(0, D.DoTakeTask(tr, Software, 0)), s.(d := d'));
      longer, more := TakeAll(longer, more, tr);
    }
  }

  /** An event is set, all tasks are taken, and the event fires. */
  lemma {:induction false} LosesObject() returns (run: seq<State>, events: seq<Event>)
    ensures IsRun(run, events, 1) && run[|run| - 1].lost != []
  {
    var d := D.State(seq(D.EVENT_TASK_POOL_SIZE, i => i), seq(D.INTERRUPT_TASK_POOL_SIZE, i => D.EVENT_TASK_POOL_SIZE + i),
                     seq(2, _ => []), seq(2, _ => None), seq(1, _ => None), seq(1, _ => D.Start), seq(1, _ => []),
                     seq(1, _ => false), 0, seq(1, _ => None), seq(1, _ => None), [], []);
    var s := State(d, seq(ONESHOTS, i => i), [], [], seq(D.TASKS, _ => None), []);
    run, events := [s], [];
    var s1 := s.(pool := s.pool[1..], setting := [0]);
    run, events := Extend(run, events, 1, TakeObject, s1);
    var s2 := s1.(setting := Without(s1.setting, 0), queue := InsertAt(s1.queue, 0, 0));
    run, events := Extend(run, events, 1, QueueObject(0, 0), s2);
    var tr := Trigger(0, 0, [], 0, 0);
    run, events := TakeAll(run, events, tr);
    var t := run[|run| - 1];
    run, events := Extend(run, events, 1, Fire(0, tr), t.(queue := t.queue[1..], lost := t.lost + [t.queue[0]]));
  }
}
