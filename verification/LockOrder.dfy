/** Nested spinlocks and interrupts on several CPUs: why waiting for a lock always ends.

    Every code path of the kernel is a sequence of lock and interrupt operations.  CPUs carry out their
    operations interleaved; an interrupt can come between any two of them while interrupts are enabled. */
module LockOrder {

  const COUNTERS: nat := 0x1_0000_0000

  datatype Lock =
    | TimerList(kind: nat)          // mOneshotLock, mPeriodicLock
    | Subscribers(event: nat)
    | TaskPool | InterruptPool
    | ReadyQueue(queue: nat)
    | TimerPool(kind: nat)
    | StackPool
    | CacheWays
    | ActiveTasks

  function Rank(l: Lock): (r: nat)
    ensures r <= 3
  {
    match l
    case TimerList(_) => 0
    case Subscribers(_) => 1
    case ActiveTasks => 3
    case _ => 2
  }

  datatype Op = Acquire(l: Lock) | Release(l: Lock) | DisableInterrupts | EnableInterrupts | ReturnFromInterrupt

  // ----- the code paths -----

  function Locked(l: Lock, inner: seq<Op>): seq<Op> {
    [Acquire(l)] + inner + [Release(l)]
  }

  /** An event to be triggered: the ready queues of its subscribers, and whether the task pool runs
      empty after them. */
  datatype Firing = Firing(event: nat, queues: seq<nat>, outOfTasks: bool)

  function Tasks(pool: Lock, queues: seq<nat>, outOfTasks: bool): seq<Op> {
    if queues == [] then if outOfTasks then Locked(pool, []) else []
    else Locked(pool, []) + Locked(ReadyQueue(queues[0]), []) + Tasks(pool, queues[1..], outOfTasks)
  }

  /** eventTriggered and interruptEventTriggered. */
  function Trigger(pool: Lock, f: Firing): seq<Op> {
    Locked(Subscribers(f.event), Tasks(pool, f.queues, f.outOfTasks))
  }

  function TriggerAll(fs: seq<Firing>): seq<Op> {
    if fs == [] then [] else Trigger(TaskPool, fs[0]) + TriggerAll(fs[1..])
  }

  /** Attempts to lock a task while searching a ready queue. */
  function Tries(n: nat): seq<Op> {
    if n == 0 then [] else Locked(ActiveTasks, []) + Tries(n - 1)
  }

  /** What components and the kernel call while a task is dispatched, executed and retired. */
  datatype Call =
    | EventTriggered(f: Firing)
    | CallOSCTrigger(queue: nat)
    | Subscribe(event: nat)
    | SetTimer(kind: nat)
    | CancelTimer(kind: nat)
    | HandleTick(oneshots: seq<Firing>, periodics: seq<Firing>)
    | SimpleCall(l: Lock)           // pools, stacks, cache ways, unlockTask: one lock, nothing inside

  function CallOps(c: Call): seq<Op> {
    match c
    case EventTriggered(f) => Trigger(TaskPool, f)
    case CallOSCTrigger(queue) => Locked(TaskPool, []) + Locked(ReadyQueue(queue), [])
    case Subscribe(event) => Locked(Subscribers(event), [])
    case SetTimer(kind) => Locked(TimerList(kind), [])
    case CancelTimer(kind) => Locked(TimerList(kind), Locked(TimerPool(kind), []))
    case HandleTick(oneshots, periodics) =>
      Locked(TimerList(0), TriggerAll(oneshots)) + Locked(TimerList(1), TriggerAll(periodics))
    case SimpleCall(l) => Locked(l, [])
  }

  function CallsOps(calls: seq<Call>): seq<Op> {
    if calls == [] then [] else CallOps(calls[0]) + CallsOps(calls[1..])
  }

  /** One turn of the loop in dispatching: getEvent on the CPU's queue and on the global one, and, if a
      task is found, all that is called until the loop is entered again. */
  function DispatchRound(queue: nat, tries: nat, globalQueue: nat, globalTries: nat, calls: seq<Call>): seq<Op> {
    [DisableInterrupts]
    + (Locked(ReadyQueue(queue), Tries(tries)) + (Locked(ReadyQueue(globalQueue), Tries(globalTries)) + CallsOps(calls)))
    + [EnableInterrupts]
  }

  // ----- the machine -----

  datatype Cpu = Cpu(ops: seq<Op>, held: seq<Lock>, counter: nat, enabled: bool)

  type State = seq<Cpu>

  ghost predicate Taken(s: State, l: Lock)
  {
    exists d :: 0 <= d < |s| && l in s[d].held
  }

  /** CPU c spins on a lock. */
  ghost predicate Waiting(s: State, c: nat)
    requires c < |s|
  {
    s[c].ops != [] && s[c].ops[0].Acquire? && Taken(s, s[c].ops[0].l)
  }

  function Without(held: seq<Lock>, l: Lock): seq<Lock> {
    if held == [] then [] else if held[|held| - 1] == l then held[..|held| - 1] else Without(held[..|held| - 1], l) + [held[|held| - 1]]
  }

  /** The effect of a CPU's next operation on itself. */
  function Perform(p: Cpu): Cpu
    requires p.ops != []
  {
    var rest := p.ops[1..];
    match p.ops[0]
    case Acquire(l) => p.(ops := rest, held := p.held + [l])
    case Release(l) => p.(ops := rest, held := Without(p.held, l))
    case DisableInterrupts =>
      p.(ops := rest, enabled := if p.counter == 0 then false else p.enabled, counter := (p.counter + 1) % COUNTERS)
    case EnableInterrupts =>
      var counter := (p.counter + (COUNTERS - 1)) % COUNTERS;
      p.(ops := rest, enabled := if counter == 0 then true else p.enabled, counter := counter)
    case ReturnFromInterrupt => p.(ops := rest, enabled := true)
  }

  datatype Action =
    | Operate
    | NewRound(queue: nat, tries: nat, globalQueue: nat, globalTries: nat, calls: seq<Call>)
    | Interrupt(f: Firing)

  ghost predicate Does(s: State, s': State, c: nat, a: Action)
    requires c < |s|
  {
    match a
    case Operate => s[c].ops != [] && !Waiting(s, c) && s' == s[c := Perform(s[c])]
    case NewRound(queue, tries, globalQueue, globalTries, calls) =>
      s[c].ops == [] && s' == s[c := s[c].(ops := DispatchRound(queue, tries, globalQueue, globalTries, calls))]
    case Interrupt(f) =>
      && s[c].enabled
      && s' == s[c := s[c].(ops := Trigger(InterruptPool, f) + ([ReturnFromInterrupt] + s[c].ops), enabled := false)]
  }

  ghost predicate Step(s: State, s': State)
  {
    exists c: nat, a: Action :: c < |s| && Does(s, s', c, a)
  }

  /** How a CPU enters the dispatcher: its interrupt counter, and whether interrupts are on. */
  datatype Mode = Mode(counter: nat, enabled: bool)

  predicate Entry(s: State, modes: seq<Mode>) {
    |s| == |modes| && forall c :: 0 <= c < |s| ==> s[c] == Cpu([EnableInterrupts], [], modes[c].counter, modes[c].enabled)
  }

  ghost predicate IsRun(run: seq<State>, modes: seq<Mode>)
  {
    && |run| > 0 && Entry(run[0], modes)
    && forall i :: 0 <= i < |run| - 1 ==> Step(run[i], run[i + 1])
  }

  /** The counter is 1, or interrupts are off. */
  predicate SafeMode(m: Mode) {
    m.counter == 1 || !m.enabled
  }

  // ----- discipline -----

  /** What a CPU has still to do is in order: it takes locks in rising rank, gives them back in reverse,
      has none while interrupts are enabled, and ends with none; interrupts are enabled then exactly if
      the counter is 0. */
  ghost predicate Disciplined(p: Cpu)
    decreases |p.ops|
  {
    && (p.enabled ==> p.held == [])
    && if p.ops == [] then p.held == [] && p.counter < COUNTERS && (p.enabled <==> p.counter == 0)
       else
         && (p.ops[0].Acquire? ==> Above(p.held, Rank(p.ops[0].l)))
         && (p.ops[0].Release? ==> p.held != [] && p.held[|p.held| - 1] == p.ops[0].l)
         && Disciplined(Perform(p))
  }

  predicate Above(held: seq<Lock>, rank: nat) {
    forall i :: 0 <= i < |held| ==> Rank(held[i]) < rank
  }

  /** Operations that can be put in front, where locks of this rank and more are free to take and
      interrupts are off. */
  ghost predicate Balanced(ops: seq<Op>, rank: nat)
  {
    forall held: seq<Lock>, counter: nat, rest: seq<Op> ::
      Above(held, rank) && Disciplined(Cpu(rest, held, counter, false)) ==> Disciplined(Cpu(ops + rest, held, counter, false))
  }

  lemma {:induction false} BalancedEmpty(rank: nat)
    ensures Balanced([], rank)
  {
    forall held: seq<Lock>, counter: nat, rest: seq<Op> | Above(held, rank) && Disciplined(Cpu(rest, held, counter, false))
      ensures Disciplined(Cpu([] + rest, held, counter, false))
    {
      assert [] + rest == rest;
    }
  }

  lemma {:induction false} BalancedAppend(a: seq<Op>, b: seq<Op>, rank: nat)
    requires Balanced(a, rank) && Balanced(b, rank)
    ensures Balanced(a + b, rank)
  {
    forall held: seq<Lock>, counter: nat, rest: seq<Op> | Above(held, rank) && Disciplined(Cpu(rest, held, counter, false))
      ensures Disciplined(Cpu(a + b + rest, held, counter, false))
    {
      assert Disciplined(Cpu(b + rest, held, counter, false));
      assert a + b + rest == a + (b + rest);
    }
  }

  lemma {:induction false} BalancedLocked(l: Lock, inner: seq<Op>, rank: nat)
    requires rank <= Rank(l) && Balanced(inner, Rank(l) + 1)
    ensures Balanced(Locked(l, inner), rank)
  {
    forall held: seq<Lock>, counter: nat, rest: seq<Op> | Above(held, rank) && Disciplined(Cpu(rest, held, counter, false))
      ensures Disciplined(Cpu(Locked(l, inner) + rest, held, counter, false))
    {
      var before := Cpu(Locked(l, inner) + rest, held, counter, false);
      var ending := Cpu([Release(l)] + rest, held + [l], counter, false);
      assert ending.ops[1..] == rest && (held + [l])[..|held|] == held;
      assert Perform(ending) == Cpu(rest, held, counter, false);
      assert Disciplined(ending);
      assert before.ops[1..] == inner + ending.ops;
      assert Perform(before) == Cpu(inner + ending.ops, held + [l], counter, false);
      assert Disciplined(Perform(before));
    }
  }

  lemma {:induction false} SimpleLocked(l: Lock, rank: nat)
    requires rank <= Rank(l)
    ensures Balanced(Locked(l, []), rank)
  {
    BalancedEmpty(Rank(l) + 1);
    BalancedLocked(l, [], rank);
  }

  lemma {:induction false} TasksBalanced(pool: Lock, queues: seq<nat>, outOfTasks: bool)
    requires Rank(pool) == 2
    ensures Balanced(Tasks(pool, queues, outOfTasks), 2)
  {
    SimpleLocked(pool, 2);
    if queues == [] {
      BalancedEmpty(2);
    } else {
      SimpleLocked(ReadyQueue(queues[0]), 2);
      TasksBalanced(pool, queues[1..], outOfTasks);
      BalancedAppend(Locked(pool, []), Locked(ReadyQueue(queues[0]), []), 2);
      BalancedAppend(Locked(pool, []) + Locked(ReadyQueue(queues[0]), []), Tasks(pool, queues[1..], outOfTasks), 2);
    }
  }

  lemma {:induction false} TriggerBalanced(pool: Lock, f: Firing, rank: nat)
    requires Rank(pool) == 2 && rank <= 1
    ensures Balanced(Trigger(pool, f), rank)
  {
    TasksBalanced(pool, f.queues, f.outOfTasks);
    BalancedLocked(Subscribers(f.event), Tasks(pool, f.queues, f.outOfTasks), rank);
  }

  lemma {:induction false} TriggerAllBalanced(fs: seq<Firing>)
    ensures Balanced(TriggerAll(fs), 1)
  {
    if fs == [] {
      BalancedEmpty(1);
    } else {
      TriggerBalanced(TaskPool, fs[0], 1);
      TriggerAllBalanced(fs[1..]);
      BalancedAppend(Trigger(TaskPool, fs[0]), TriggerAll(fs[1..]), 1);
    }
  }

  lemma {:induction false} TriesBalanced(n: nat)
    ensures Balanced(Tries(n), 3)
  {
    if n == 0 {
      BalancedEmpty(3);
    } else {
      SimpleLocked(ActiveTasks, 3);
      TriesBalanced(n - 1);
      BalancedAppend(Locked(ActiveTasks, []), Tries(n - 1), 3);
    }
  }

  lemma {:induction false} CallBalanced(c: Call)
    ensures Balanced(CallOps(c), 0)
  {
    match c
    case EventTriggered(f) => TriggerBalanced(TaskPool, f, 0);
    case CallOSCTrigger(queue) =>
      SimpleLocked(TaskPool, 0);
      SimpleLocked(ReadyQueue(queue), 0);
      BalancedAppend(Locked(TaskPool, []), Locked(ReadyQueue(queue), []), 0);
    case Subscribe(event) => SimpleLocked(Subscribers(event), 0);
    case SetTimer(kind) => SimpleLocked(TimerList(kind), 0);
    case CancelTimer(kind) =>
      SimpleLocked(TimerPool(kind), 1);
      BalancedLocked(TimerList(kind), Locked(TimerPool(kind), []), 0);
    case HandleTick(oneshots, periodics) =>
      TriggerAllBalanced(oneshots);
      TriggerAllBalanced(periodics);
      BalancedLocked(TimerList(0), TriggerAll(oneshots), 0);
      BalancedLocked(TimerList(1), TriggerAll(periodics), 0);
      BalancedAppend(Locked(TimerList(0), TriggerAll(oneshots)), Locked(TimerList(1), TriggerAll(periodics)), 0);
    case SimpleCall(l) => SimpleLocked(l, 0);
  }

  lemma {:induction false} CallsBalanced(calls: seq<Call>)
    ensures Balanced(CallsOps(calls), 0)
  {
    if calls == [] {
      BalancedEmpty(0);
    } else {
      CallBalanced(calls[0]);
      CallsBalanced(calls[1..]);
      BalancedAppend(CallOps(calls[0]), CallsOps(calls[1..]), 0);
    }
  }

  lemma {:induction false} SearchBalanced(queue: nat, tries: nat)
    ensures Balanced(Locked(ReadyQueue(queue), Tries(tries)), 0)
  {
    TriesBalanced(tries);
    BalancedLocked(ReadyQueue(queue), Tries(tries), 0);
  }

  lemma {:induction false} RoundIsDisciplined(p: Cpu, queue: nat, tries: nat, globalQueue: nat, globalTries: nat, calls: seq<Call>)
    requires Disciplined(p) && p.ops == []
    ensures Disciplined(p.(ops := DispatchRound(queue, tries, globalQueue, globalTries, calls)))
  {
    var first, second := Locked(ReadyQueue(queue), Tries(tries)), Locked(ReadyQueue(globalQueue), Tries(globalTries));
    var third := CallsOps(calls);
    SearchBalanced(queue, tries);
    SearchBalanced(globalQueue, globalTries);
    CallsBalanced(calls);
    BalancedAppend(second, third, 0);
    BalancedAppend(first, second + third, 0);
    BracketIsDisciplined(p, first + (second + third));
  }

  /** Balanced operations between disableInterrupts and enableInterrupts. */
  lemma {:induction false} BracketIsDisciplined(p: Cpu, body: seq<Op>)
    requires Disciplined(p) && p.ops == [] && Balanced(body, 0)
    ensures Disciplined(p.(ops := [DisableInterrupts] + body + [EnableInterrupts]))
  {
    var within := (p.counter + 1) % COUNTERS;
    var ending := Cpu([EnableInterrupts], [], within, false);
    assert ending.ops[1..] == [] && Perform(ending) == p;
    assert Disciplined(Cpu(body + ending.ops, [], within, false));
    var whole := p.(ops := [DisableInterrupts] + body + [EnableInterrupts]);
    assert whole.ops[1..] == body + ending.ops;
    assert Perform(whole) == Cpu(body + ending.ops, [], within, false);
  }

  /** A CPU may enter the dispatcher with counter 1, or with interrupts off. */
  lemma {:induction false} EntryIsDisciplined(m: Mode)
    requires m.counter < COUNTERS && SafeMode(m)
    ensures Disciplined(Cpu([EnableInterrupts], [], m.counter, m.enabled))
  {
    var p := Cpu([EnableInterrupts], [], m.counter, m.enabled);
    assert p.ops[1..] == [];
    assert Disciplined(Perform(p));
  }

  // ----- runs -----

  ghost predicate AllDisciplined(s: State)
  {
    forall c :: 0 <= c < |s| ==> Disciplined(s[c])
  }

  lemma {:induction false} InterruptIsDisciplined(p: Cpu, f: Firing)
    requires Disciplined(p) && p.enabled
    ensures Disciplined(p.(ops := Trigger(InterruptPool, f) + ([ReturnFromInterrupt] + p.ops), enabled := false))
  {
    var back := p.(ops := [ReturnFromInterrupt] + p.ops, enabled := false);
    assert back.ops[1..] == p.ops && Perform(back) == p;
    TriggerBalanced(InterruptPool, f, 0);
    assert Disciplined(Cpu(back.ops, p.held, p.counter, false));
  }

  lemma {:induction false} StepKeepsDiscipline(s: State, s': State)
    requires AllDisciplined(s) && Step(s, s')
    ensures AllDisciplined(s') && |s'| == |s|
  {
    var c: nat, a: Action :| c < |s| && Does(s, s', c, a);
    match a
    case Operate =>
    case NewRound(queue, tries, globalQueue, globalTries, calls) =>
      RoundIsDisciplined(s[c], queue, tries, globalQueue, globalTries, calls);
    case Interrupt(f) => InterruptIsDisciplined(s[c], f);
  }

  lemma {:induction false} RunIsDisciplined(run: seq<State>, k: nat, modes: seq<Mode>)
    requires IsRun(run, modes) && k < |run| && forall c :: 0 <= c < |modes| ==> modes[c].counter < COUNTERS && SafeMode(modes[c])
    ensures AllDisciplined(run[k]) && |run[k]| == |modes|
  {
    if k == 0 {
      forall c | 0 <= c < |modes| ensures Disciplined(run[0][c]) {
        EntryIsDisciplined(modes[c]);
      }
    } else {
      RunIsDisciplined(run, k - 1, modes);
      assert Step(run[k - 1], run[k - 1 + 1]);
      StepKeepsDiscipline(run[k - 1], run[k]);
    }
  }

  /** c waits for a lock of the next CPU, and so on, over n CPUs up to h. */
  ghost predicate Leads(s: State, c: nat, h: nat, n: nat)
    requires c < |s|
    decreases n
  {
    if n == 0 then c == h
    else Waiting(s, c) && exists d: nat :: d < |s| && s[c].ops[0].l in s[d].held && Leads(s, d, h, n - 1)
  }

  lemma {:induction false} ChainEnds(s: State, c: nat) returns (h: nat, n: nat)
    requires AllDisciplined(s) && c < |s| && Waiting(s, c)
    ensures 1 <= n <= 4 - Rank(s[c].ops[0].l) && h < |s| && Leads(s, c, h, n)
    ensures !Waiting(s, h) && s[h].ops != [] && s[h].held != []
    decreases 3 - Rank(s[c].ops[0].l)
  {
    var l := s[c].ops[0].l;
    var d :| 0 <= d < |s| && l in s[d].held;
    assert Disciplined(s[d]);
    if Waiting(s, d) {
      var m: nat;
      h, m := ChainEnds(s, d);
      n := m + 1;
    } else {
      h, n := d, 1;
      assert Leads(s, d, h, 0);
    }
  }

  /** If every CPU enters safely, no reachable state has a wait cycle, not even of one CPU with its own
      interrupt handler: whoever waits, waits along a chain of at most four CPUs for one that holds a lock
      and can go on. */
  lemma {:induction false} WaitingEnds(run: seq<State>, k: nat, modes: seq<Mode>, c: nat) returns (h: nat, n: nat, s': State)
    requires IsRun(run, modes) && forall d :: 0 <= d < |modes| ==> modes[d].counter < COUNTERS && SafeMode(modes[d])
    requires k < |run| && c < |run[k]| && Waiting(run[k], c)
    ensures 1 <= n <= 4 && h < |run[k]| && Leads(run[k], c, h, n)
    ensures run[k][h].held != [] && Does(run[k], s', h, Operate)
  {
    RunIsDisciplined(run, k, modes);
    h, n := ChainEnds(run[k], c);
    s' := run[k][h := Perform(run[k][h])];
  }

  /** Interrupts are enabled only where the CPU holds no lock. */
  lemma {:induction false} EnabledMeansFree(run: seq<State>, k: nat, modes: seq<Mode>, c: nat)
    requires IsRun(run, modes) && forall d :: 0 <= d < |modes| ==> modes[d].counter < COUNTERS && SafeMode(modes[d])
    requires k < |run| && c < |run[k]| && run[k][c].enabled
    ensures run[k][c].held == []
  {
    RunIsDisciplined(run, k, modes);
  }

  // ----- a CPU that does not enter safely -----

  /** CPU c spins on a lock that it holds itself, with interrupts off. */
  ghost predicate SelfLocked(s: State, c: nat)
    requires c < |s|
  {
    s[c].ops != [] && s[c].ops[0].Acquire? && s[c].ops[0].l in s[c].held && !s[c].enabled
  }

  lemma {:induction false} SelfLockedForever(s: State, s': State, c: nat)
    requires c < |s| && SelfLocked(s, c) && Step(s, s')
    ensures |s'| == |s| && SelfLocked(s', c) && s'[c] == s[c]
  {
  }

  function Last(run: seq<State>): State {
    if run == [] then [] else run[|run| - 1]
  }

  /** CPU c goes on; the others stay where they are. */
  lemma {:induction false} Longer(run: seq<State>, modes: seq<Mode>, c: nat, a: Action, p: Cpu) returns (longer: seq<State>)
    requires IsRun(run, modes) && c < |Last(run)| && Does(Last(run), Last(run)[c := p], c, a)
    ensures IsRun(longer, modes) && Last(longer) == Last(run)[c := p]
  {
    longer := run + [Last(run)[c := p]];
    forall i | 0 <= i < |longer| - 1 ensures Step(longer[i], longer[i + 1]) {
      if i < |run| - 1 {
        assert Step(run[i], run[i + 1]);
      } else {
        assert Step(Last(run), Last(longer));
      }
    }
  }

  /** All CPUs but c are still at the entry, and hold nothing. */
  ghost predicate OthersAtEntry(s: State, modes: seq<Mode>, c: nat)
  {
    |s| == |modes| && forall d :: 0 <= d < |s| && d != c ==> s[d] == Cpu([EnableInterrupts], [], modes[d].counter, modes[d].enabled)
  }

  /** With interrupts enabled and a counter other than 1, disableInterrupts does nothing in the loop,
      and the dispatcher takes its queue lock with interrupts enabled. */
  lemma {:induction false} QueueLockedWithInterrupts(modes: seq<Mode>, c: nat) returns (run: seq<State>)
    requires c < |modes| && modes[c].counter < COUNTERS && !SafeMode(modes[c])
    ensures IsRun(run, modes) && OthersAtEntry(Last(run), modes, c)
    ensures Last(run)[c].enabled && Last(run)[c].held == [ReadyQueue(0)]
  {
    var round := DispatchRound(0, 0, 1, 0, []);
    var counter := modes[c].counter;
    var lower := (counter + (COUNTERS - 1)) % COUNTERS;
    var none: seq<Lock> := [];
    assert round[0] == DisableInterrupts && round[1..][0] == Acquire(ReadyQueue(0));
    run := [seq(|modes|, d requires 0 <= d < |modes| => Cpu([EnableInterrupts], [], modes[d].counter, modes[d].enabled))];
    assert [EnableInterrupts][1..] == [] && none + [ReadyQueue(0)] == [ReadyQueue(0)];
    run := Longer(run, modes, c, Operate, Cpu([], none, lower, true));
    run := Longer(run, modes, c, NewRound(0, 0, 1, 0, []), Cpu(round, none, lower, true));
    run := Longer(run, modes, c, Operate, Cpu(round[1..], none, counter, true));
    run := Longer(run, modes, c, Operate, Cpu(round[1..][1..], [ReadyQueue(0)], counter, true));
  }

  /** An interrupt whose event has a subscriber with that queue then waits for its own CPU, for ever. */
  lemma {:induction false} OwnInterruptLocksUp(modes: seq<Mode>, c: nat) returns (run: seq<State>)
    requires c < |modes| && modes[c].counter < COUNTERS && !SafeMode(modes[c])
    ensures IsRun(run, modes) && OthersAtEntry(Last(run), modes, c) && SelfLocked(Last(run), c)
  {
    run := QueueLockedWithInterrupts(modes, c);
    var p := Last(run)[c];
    var ops := Trigger(InterruptPool, Firing(0, [0], false)) + ([ReturnFromInterrupt] + p.ops);
    HandlerOps();
    var held := [ReadyQueue(0)];
    assert ops[0] == Acquire(Subscribers(0)) && ops[1..][0] == Acquire(InterruptPool);
    assert ops[1..][1..][0] == Release(InterruptPool) && ops[1..][1..][1..][0] == Acquire(ReadyQueue(0));
    run := Longer(run, modes, c, Interrupt(Firing(0, [0], false)), Cpu(ops, held, p.counter, false));
    run := Longer(run, modes, c, Operate, Cpu(ops[1..], held + [Subscribers(0)], p.counter, false));
    run := Longer(run, modes, c, Operate, Cpu(ops[1..][1..], held + [Subscribers(0)] + [InterruptPool], p.counter, false));
    assert (held + [Subscribers(0)] + [InterruptPool])[..2] == held + [Subscribers(0)];
    run := Longer(run, modes, c, Operate, Cpu(ops[1..][1..][1..], held + [Subscribers(0)], p.counter, false));
  }

  lemma {:induction false} HandlerOps()
    ensures var handler := Trigger(InterruptPool, Firing(0, [0], false));
            |handler| == 6 && handler[..4] == [Acquire(Subscribers(0)), Acquire(InterruptPool), Release(InterruptPool), Acquire(ReadyQueue(0))]
  {
    assert [0][1..] == [];
    assert Tasks(InterruptPool, [0], false) == Locked(InterruptPool, []) + Locked(ReadyQueue(0), []) + [];
  }

  // ----- exactly when waiting ends -----

  /** The CPUs that c waits for include one that can go on. */
  ghost predicate CanEnd(s: State, c: nat)
    requires c < |s|
  {
    exists h: nat, n: nat :: h < |s| && Leads(s, c, h, n) && !Waiting(s, h)
  }

  ghost predicate DeadlockFree(modes: seq<Mode>)
  {
    forall run: seq<State>, c: nat ::
      IsRun(run, modes) && c < |Last(run)| && Waiting(Last(run), c) ==> CanEnd(Last(run), c)
  }

  /** A CPU that waits for itself waits for nobody else. */
  lemma {:induction false} LeadsNowhere(s: State, modes: seq<Mode>, c: nat, h: nat, n: nat)
    requires c < |s| && SelfLocked(s, c) && OthersAtEntry(s, modes, c) && Leads(s, c, h, n)
    ensures h == c
  {
    if n > 0 {
      var d: nat :| d < |s| && s[c].ops[0].l in s[d].held && Leads(s, d, h, n - 1);
      assert d == c;
      LeadsNowhere(s, modes, c, h, n - 1);
    }
  }

  /** Waiting for locks always ends, on every run, if and only if every CPU enters the dispatcher with
      interrupt counter 1 or with interrupts off.  On x86 the primary CPU enters with counter 1, the
      secondary ones with counter 0 and interrupts on. */
  lemma {:induction false} DeadlockFreeExactlyWhen(modes: seq<Mode>)
    requires forall c :: 0 <= c < |modes| ==> modes[c].counter < COUNTERS
    ensures DeadlockFree(modes) <==> forall c :: 0 <= c < |modes| ==> SafeMode(modes[c])
  {
    if forall c :: 0 <= c < |modes| ==> SafeMode(modes[c]) {
      forall run: seq<State>, c: nat | IsRun(run, modes) && c < |Last(run)| && Waiting(Last(run), c)
        ensures CanEnd(Last(run), c)
      {
        RunIsDisciplined(run, |run| - 1, modes);
        var h, n := ChainEnds(Last(run), c);
      }
    } else {
      var c :| 0 <= c < |modes| && !SafeMode(modes[c]);
      var run := OwnInterruptLocksUp(modes, c);
      NoWayOut(Last(run), modes, c);
      assert IsRun(run, modes) && Waiting(Last(run), c) && !CanEnd(Last(run), c);
    }
  }

  lemma {:induction false} NoWayOut(s: State, modes: seq<Mode>, c: nat)
    requires c < |s| && SelfLocked(s, c) && OthersAtEntry(s, modes, c)
    ensures Waiting(s, c) && !CanEnd(s, c)
  {
    forall h: nat, n: nat | h < |s| && Leads(s, c, h, n) ensures Waiting(s, h) {
      LeadsNowhere(s, modes, c, h, n);
    }
  }

  /** The two kinds of CPUs of an x86 system do not go together. */
  lemma {:induction false} MixedEntryLocksUp(secondaries: nat)
    requires secondaries > 0
    ensures !DeadlockFree([Mode(1, false)] + seq(secondaries, _ => Mode(0, true)))
  {
    var modes := [Mode(1, false)] + seq(secondaries, _ => Mode(0, true));
    DeadlockFreeExactlyWhen(modes);
    assert modes[1] == Mode(0, true);
  }
}
