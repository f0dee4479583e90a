/** The reusable barrier of sync/barrier.h, instruction by instruction.

    Exactly `mSize` threads share it and call await() over and over.  The two spinlocks appear as
    owners (their mutual exclusion is TicketLock's result); a thread that spins takes no step. */
module BarrierProtocol {
  import opened Counting

  datatype Owner = Free | Held(thread: nat)

  /** The instruction a thread executes next, in program order of await(). */
  datatype Pc =
    | Outside             // not in await()
    | LockReady           // mReadyLock.lock()
    | Decrement           // val = mNotReady--
    | Drain               // while (mWaiting > 0) {}
    | Reset               // mNotReady = mSize
    | UnlockReadyLast     // mReadyLock.unlock(), return
    | LockWaiting         // mWaitingLock.lock()
    | CountIn             // mWaiting++
    | UnlockWaiting       // mWaitingLock.unlock()
    | UnlockReady         // mReadyLock.unlock()
    | Spin                // while (mNotReady > 0) {}
    | LockWaitingOut      // mWaitingLock.lock()
    | CountOut            // mWaiting--
    | UnlockWaitingOut    // mWaitingLock.unlock(), return

  datatype State = State(
    notReady: int,
    waiting: int,
    readyLock: Owner,
    waitingLock: Owner,
    pc: seq<Pc>,
    entered: seq<nat>,    // history: calls of await() per thread
    returned: seq<nat>,   // history: returns from await() per thread
    round: nat,           // history: resets so far
    arrived: set<nat>,    // history: threads that decremented mNotReady in this round
    waiters: set<nat>     // history: threads currently counted in mWaiting
  )

  ghost predicate Init(s: State, size: nat)
  {
    s == State(size, 0, Free, Free, seq(size, _ => Outside), seq(size, _ => 0), seq(size, _ => 0), 0, {}, {})
  }

  predicate HoldsReady(p: Pc) {
    (p.Decrement? || p.Drain? || p.Reset? || p.UnlockReadyLast? || p.LockWaiting? || p.CountIn? || p.UnlockWaiting? || p.UnlockReady?)
  }

  predicate HoldsWaiting(p: Pc) {
    (p.CountIn? || p.UnlockWaiting? || p.CountOut? || p.UnlockWaitingOut?)
  }

  predicate CountedWaiting(p: Pc) {
    (p.UnlockWaiting? || p.UnlockReady? || p.Spin? || p.LockWaitingOut? || p.CountOut?)
  }

  /** Thread t calls await(). */
  ghost predicate Enter(s: State, s': State, t: nat)
  {
    && t < |s.pc| == |s.entered| && s.pc[t] == Outside
    && s' == s.(pc := s.pc[t := LockReady], entered := s.entered[t := s.entered[t] + 1])
  }

  /** Thread t executes its next instruction inside await(). */
  ghost predicate Advance(s: State, s': State, t: nat)
  {
    && t < |s.pc| == |s.returned|
    && match s.pc[t]
       case Outside => false
       case LockReady =>
         s.readyLock == Free && s' == s.(readyLock := Held(t), pc := s.pc[t := Decrement])
       case Decrement =>
         s' == s.(notReady := s.notReady - 1,
                  arrived := s.arrived + {t},
                  pc := s.pc[t := if s.notReady == 1 then Drain else LockWaiting])
       case Drain =>
         !(s.waiting > 0) && s' == s.(pc := s.pc[t := Reset])
       case Reset =>
         s' == s.(notReady := |s.pc|, round := s.round + 1, arrived := {}, pc := s.pc[t := UnlockReadyLast])
       case UnlockReadyLast =>
         s' == s.(readyLock := Free, pc := s.pc[t := Outside], returned := s.returned[t := s.returned[t] + 1])
       case LockWaiting =>
         s.waitingLock == Free && s' == s.(waitingLock := Held(t), pc := s.pc[t := CountIn])
       case CountIn =>
         s' == s.(waiting := s.waiting + 1, waiters := s.waiters + {t}, pc := s.pc[t := UnlockWaiting])
       case UnlockWaiting =>
         s' == s.(waitingLock := Free, pc := s.pc[t := UnlockReady])
       case UnlockReady =>
         s' == s.(readyLock := Free, pc := s.pc[t := Spin])
       case Spin =>
         !(s.notReady > 0) && s' == s.(pc := s.pc[t := LockWaitingOut])
       case LockWaitingOut =>
         s.waitingLock == Free && s' == s.(waitingLock := Held(t), pc := s.pc[t := CountOut])
       case CountOut =>
         s' == s.(waiting := s.waiting - 1, waiters := s.waiters - {t}, pc := s.pc[t := UnlockWaitingOut])
       case UnlockWaitingOut =>
         s' == s.(waitingLock := Free, pc := s.pc[t := Outside], returned := s.returned[t := s.returned[t] + 1])
  }

  ghost predicate Step(s: State, s': State)
  {
    exists t: nat :: Enter(s, s', t) || Advance(s, s', t)
  }

  ghost predicate IsRun(run: seq<State>, size: nat)
  {
    && |run| > 0
    && Init(run[0], size)
    && forall i :: 0 <= i < |run| - 1 ==> Step(run[i], run[i + 1])
  }

  // ----- the inductive invariant -----

  /** Decrements of mNotReady that thread t has made. */
  function Decrements(s: State, t: nat): int
    requires t < |s.pc| == |s.entered|
  {
    if (s.pc[t].LockReady? || s.pc[t].Decrement?) then (s.entered[t] as int) - 1 else s.entered[t]
  }

  /** What is known about one thread. */
  ghost predicate ThreadOk(s: State, t: nat)
    requires t < |s.pc| == |s.entered| == |s.returned|
  {
    var p := s.pc[t];
    && Decrements(s, t) == (if t in s.arrived then s.round + 1 else s.round)
    && s.entered[t] == s.returned[t] + (if p == Outside then 0 else 1)
    && (s.readyLock == Held(t) <==> HoldsReady(p))
    && (s.waitingLock == Held(t) <==> HoldsWaiting(p))
    && (t in s.waiters <==> CountedWaiting(p))
    && ((p.Outside? || p.LockReady? || p.UnlockWaitingOut?) && s.notReady > 0 ==> t !in s.arrived)
    && (p == Decrement ==> s.notReady > 0 && t !in s.arrived)
    && ((p.LockWaiting? || p.CountIn? || p.UnlockWaiting? || p.UnlockReady?) ==> s.notReady > 0 && t in s.arrived)
    && (p == Spin ==> t in s.arrived)
    && ((p.LockWaitingOut? || p.CountOut? || p.Drain? || p.Reset?) ==> s.notReady == 0 && t in s.arrived)
    && (p == Reset ==> s.waiting == 0)
    && (p == UnlockReadyLast ==> s.notReady > 0 && t !in s.arrived)
  }

  ghost predicate Invariant(s: State)
  {
    && |s.pc| == |s.entered| == |s.returned|
    && s.notReady >= 0
    && |s.arrived| + s.notReady == |s.pc|
    && |s.waiters| == s.waiting
    && (forall t :: t in s.arrived ==> t < |s.pc|)
    && (forall t :: t in s.waiters ==> t < |s.pc|)
    && (s.notReady == 0 && |s.pc| > 0 ==>
          s.readyLock.Held? && s.readyLock.thread < |s.pc| && (s.pc[s.readyLock.thread].Drain? || s.pc[s.readyLock.thread].Reset?))
    && (forall t :: 0 <= t < |s.pc| ==> ThreadOk(s, t))
    && (s.readyLock.Held? ==> s.readyLock.thread < |s.pc|)
    && (s.waitingLock.Held? ==> s.waitingLock.thread < |s.pc|)
  }

  lemma {:induction false} EnterKeepsInvariant(s: State, s': State, t: nat)
    requires Invariant(s) && Enter(s, s', t)
    ensures Invariant(s')
  {
    forall u | 0 <= u < |s'.pc| ensures ThreadOk(s', u) {
      assert ThreadOk(s, u);
    }
  }

  lemma {:induction false} ReadyLockStepKeepsInvariant(s: State, s': State, t: nat)
    requires Invariant(s) && Advance(s, s', t)
    requires var p := s.pc[t]; p.LockReady? || p.UnlockReadyLast? || p.UnlockReady?
    ensures Invariant(s')
  {
    assert ThreadOk(s, t);
    forall u | 0 <= u < |s'.pc| ensures ThreadOk(s', u) {
      assert ThreadOk(s, u);
    }
  }

  lemma {:induction false} WaitingLockStepKeepsInvariant(s: State, s': State, t: nat)
    requires Invariant(s) && Advance(s, s', t)
    requires var p := s.pc[t]; p.LockWaiting? || p.UnlockWaiting? || p.LockWaitingOut? || p.UnlockWaitingOut?
    ensures Invariant(s')
  {
    assert ThreadOk(s, t);
    forall u | 0 <= u < |s'.pc| ensures ThreadOk(s', u) {
      assert ThreadOk(s, u);
    }
  }

  lemma {:induction false} PollStepKeepsInvariant(s: State, s': State, t: nat)
    requires Invariant(s) && Advance(s, s', t)
    requires var p := s.pc[t]; p.Drain? || p.Spin?
    ensures Invariant(s')
  {
    assert ThreadOk(s, t);
    forall u | 0 <= u < |s'.pc| ensures ThreadOk(s', u) {
      assert ThreadOk(s, u);
    }
  }

  lemma {:induction false} CounterStepKeepsInvariant(s: State, s': State, t: nat)
    requires Invariant(s) && Advance(s, s', t)
    requires var p := s.pc[t]; p.Decrement? || p.CountIn? || p.CountOut?
    ensures Invariant(s')
  {
    assert ThreadOk(s, t);
    forall u | 0 <= u < |s'.pc| ensures ThreadOk(s', u) {
      assert ThreadOk(s, u);
    }
  }

  lemma {:induction false} ResetKeepsInvariant(s: State, s': State, t: nat)
    requires Invariant(s) && Advance(s, s', t) && s.pc[t].Reset?
    ensures Invariant(s')
  {
    assert ThreadOk(s, t);
    Below(s.arrived, |s.pc|);
    forall u | 0 <= u < |s'.pc| ensures ThreadOk(s', u) {
      assert ThreadOk(s, u);
    }
  }

  lemma {:induction false} StepKeepsInvariant(s: State, s': State)
    requires Invariant(s) && Step(s, s')
    ensures Invariant(s')
  {
    var t: nat :| Enter(s, s', t) || Advance(s, s', t);
    if Enter(s, s', t) {
      EnterKeepsInvariant(s, s', t);
    } else {
      match s.pc[t]
      case Decrement | CountIn | CountOut => CounterStepKeepsInvariant(s, s', t);
      case Drain | Spin => PollStepKeepsInvariant(s, s', t);
      case Reset => ResetKeepsInvariant(s, s', t);
      case LockReady | UnlockReadyLast | UnlockReady => ReadyLockStepKeepsInvariant(s, s', t);
      case _ => WaitingLockStepKeepsInvariant(s, s', t);
    }
  }

  lemma {:induction false} RunKeepsInvariant(run: seq<State>, size: nat, k: nat)
    requires IsRun(run, size) && k < |run|
    ensures Invariant(run[k]) && |run[k].pc| == size
  {
    if k > 0 {
      RunKeepsInvariant(run, size, k - 1);
      assert Step(run[k - 1], run[k - 1 + 1]);
      StepKeepsInvariant(run[k - 1], run[k]);
    }
  }

  // ----- safety -----

  /** On every run: a thread that has returned from its k-th await() finds that every thread has
      entered its own k-th. */
  lemma {:induction false} NoEarlyReturn(run: seq<State>, size: nat, k: nat, t: nat, u: nat)
    requires IsRun(run, size) && k < |run| && t < size && u < size
    ensures |run[k].returned| == |run[k].entered| == size
    ensures run[k].returned[t] <= run[k].entered[u]
  {
    var s := run[k];
    RunKeepsInvariant(run, size, k);
    assert ThreadOk(s, t) && ThreadOk(s, u);
    Below(s.arrived, size);
  }

  /** While a waiter has not yet seen mNotReady == 0 and been uncounted, nobody resets mNotReady:
      the window is never missed.  A thread that spins belongs to the current round. */
  lemma {:induction false} ResetWaitsForEveryWaiter(run: seq<State>, size: nat, k: nat, t: nat, u: nat)
    requires IsRun(run, size) && k < |run| && t < size && u < size
    requires |run[k].pc| == size && run[k].pc[t] == Reset
    ensures !CountedWaiting(run[k].pc[u]) && run[k].pc[u] !in {LockWaiting, CountIn}
  {
    RunKeepsInvariant(run, size, k);
    assert ThreadOk(run[k], t) && ThreadOk(run[k], u);
    assert |run[k].waiters| == 0;
  }

  // ----- progress -----

  ghost predicate CanAdvance(s: State, t: nat)
  {
    exists s' :: Advance(s, s', t)
  }

  /** Whether thread t's next instruction goes through. */
  ghost predicate Enabled(s: State, t: nat)
    requires t < |s.pc|
  {
    match s.pc[t]
    case Outside => false
    case LockReady => s.readyLock == Free
    case Drain => s.waiting <= 0
    case LockWaiting => s.waitingLock == Free
    case LockWaitingOut => s.waitingLock == Free
    case Spin => s.notReady <= 0
    case _ => true
  }

  lemma {:induction false} EnabledCanAdvance(s: State, t: nat)
    requires t < |s.pc| == |s.returned|
    ensures Enabled(s, t) <==> CanAdvance(s, t)
  {
    if Enabled(s, t) {
      var s1 := s.(pc := s.pc[t := if s.notReady == 1 then Drain else LockWaiting],
                   notReady := s.notReady - 1, arrived := s.arrived + {t});
      var ret := s.returned[t := s.returned[t] + 1];
      var s' := match s.pc[t]
        case Outside => s
        case LockReady => s.(readyLock := Held(t), pc := s.pc[t := Decrement])
        case Decrement => s1
        case Drain => s.(pc := s.pc[t := Reset])
        case Reset => s.(notReady := |s.pc|, round := s.round + 1, arrived := {}, pc := s.pc[t := UnlockReadyLast])
        case UnlockReadyLast => s.(readyLock := Free, pc := s.pc[t := Outside], returned := ret)
        case LockWaiting => s.(waitingLock := Held(t), pc := s.pc[t := CountIn])
        case CountIn => s.(waiting := s.waiting + 1, waiters := s.waiters + {t}, pc := s.pc[t := UnlockWaiting])
        case UnlockWaiting => s.(waitingLock := Free, pc := s.pc[t := UnlockReady])
        case UnlockReady => s.(readyLock := Free, pc := s.pc[t := Spin])
        case Spin => s.(pc := s.pc[t := LockWaitingOut])
        case LockWaitingOut => s.(waitingLock := Held(t), pc := s.pc[t := CountOut])
        case CountOut => s.(waiting := s.waiting - 1, waiters := s.waiters - {t}, pc := s.pc[t := UnlockWaitingOut])
        case UnlockWaitingOut => s.(waitingLock := Free, pc := s.pc[t := Outside], returned := ret);
      assert Advance(s, s', t);
    }
  }

  /** In an invariant state where thread t is inside, some thread's next instruction goes through,
      unless t spins and another thread has not even entered the await() that t is in. */
  lemma {:induction false} SomebodyMoves(s: State, t: nat) returns (u: nat)
    requires Invariant(s) && t < |s.pc| && s.pc[t] != Outside
    ensures u < |s.pc|
    ensures Enabled(s, u) || (s.pc[u] == Outside && s.entered[u] < s.entered[t])
  {
    u := t;
    assert ThreadOk(s, t);
    if s.readyLock.Held? {
      u := s.readyLock.thread;
      assert ThreadOk(s, u);
      if s.pc[u] == Drain && s.waiting > 0 {
        u :| u in s.waiters;
        assert ThreadOk(s, u);
      }
      if !Enabled(s, u) && s.waitingLock.Held? {
        u := s.waitingLock.thread;
        assert ThreadOk(s, u);
      }
    } else if s.pc[t] == Spin {
      u := MissingThread(s);
      assert ThreadOk(s, u);
    }
  }

  lemma {:induction false} MissingThread(s: State) returns (u: nat)
    requires Invariant(s) && s.notReady > 0
    ensures u < |s.pc| && u !in s.arrived
  {
    Below(s.arrived, |s.pc|);
    u :| u < |s.pc| && u !in s.arrived;
  }

  /** No reachable state is stuck: as long as thread t is inside await(), either some thread inside
      can move, or t is rightly waiting for a thread that has not entered the same await() yet. */
  lemma {:induction false} NeverStuck(run: seq<State>, size: nat, k: nat, t: nat)
    requires IsRun(run, size) && k < |run| && t < size && t < |run[k].pc| && run[k].pc[t] != Outside
    ensures |run[k].entered| == size
    ensures (exists u: nat :: CanAdvance(run[k], u)) ||
            (exists u: nat :: u < size && run[k].entered[u] < run[k].entered[t])
  {
    RunKeepsInvariant(run, size, k);
    var u := SomebodyMoves(run[k], t);
    EnabledCanAdvance(run[k], u);
  }

  /** Instructions that separate a thread from its return. */
  function ToGo(p: Pc): nat {
    match p
    case Outside => 0
    case LockReady => 11
    case Decrement => 10
    case Drain => 3
    case Reset => 2
    case UnlockReadyLast => 1
    case LockWaiting => 9
    case CountIn => 8
    case UnlockWaiting => 7
    case UnlockReady => 6
    case Spin => 5
    case LockWaitingOut => 4
    case CountOut => 3
    case UnlockWaitingOut => 2
  }

  function Work(pc: seq<Pc>): nat {
    if pc == [] then 0 else ToGo(pc[0]) + Work(pc[1..])
  }

  lemma {:induction false} WorkUpdate(pc: seq<Pc>, t: nat, p: Pc)
    requires t < |pc|
    ensures Work(pc[t := p]) == Work(pc) - ToGo(pc[t]) + ToGo(p)
  {
    if t == 0 {
      assert pc[t := p][1..] == pc[1..];
    } else {
      assert pc[t := p][1..] == pc[1..][t - 1 := p];
      WorkUpdate(pc[1..], t - 1, p);
    }
  }

  lemma {:induction false} WorkBound(pc: seq<Pc>)
    ensures Work(pc) <= 11 * |pc|
  {
    if pc != [] {
      WorkBound(pc[1..]);
    }
  }

  ghost predicate Inside(s: State, s': State)
  {
    exists t: nat :: Advance(s, s', t)
  }

  lemma {:induction false} AdvanceMovesOn(s: State, s': State, t: nat)
    requires Advance(s, s', t)
    ensures |s'.pc| == |s.pc| && s'.pc == s.pc[t := s'.pc[t]]
    ensures ToGo(s'.pc[t]) < ToGo(s.pc[t])
  {
  }

  lemma {:induction false} AdvanceUsesWork(s: State, s': State)
    requires Inside(s, s')
    ensures Work(s'.pc) < Work(s.pc)
  {
    var t: nat :| Advance(s, s', t);
    AdvanceMovesOn(s, s', t);
    WorkUpdate(s.pc, t, s'.pc[t]);
  }

  /** No livelock: from any state, threads already inside make at most 11 instructions each, so with
      NeverStuck every round ends after at most 11 * mSize effective instructions. */
  lemma {:induction false} RoundsAreShort(steps: seq<State>)
    requires |steps| > 0
    requires forall i :: 0 <= i < |steps| - 1 ==> Inside(steps[i], steps[i + 1])
    ensures |steps| - 1 + Work(steps[|steps| - 1].pc) <= Work(steps[0].pc) <= 11 * |steps[0].pc|
  {
    WorkBound(steps[0].pc);
    if |steps| > 1 {
      var n := |steps| - 1;
      RoundsAreShort(steps[..n]);
      AdvanceUsesWork(steps[n - 1], steps[n - 1 + 1]);
    }
  }
}
