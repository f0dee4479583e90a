/** The ticket spinlock of sync/Spinlock.h as an interleaving of its atomic instructions.

    A thread draws a ticket with one atomic fetch-and-add on `available`, polls `active`
    until it shows that ticket, and leaves with one atomic fetch-and-add on `active`.  Both
    counters are 32 bits wide and wrap.  */
module TicketLock {
  import opened Counting

  const WORDS: nat := 0x1_0000_0000

  function Wrap(x: nat): (w: nat)
    ensures w < WORDS
  {
    x % WORDS
  }

  /** Where a thread is: not in the lock code, polling with its ticket, or between lock and unlock. */
  datatype Pc = Outside | Polling(ticket: nat) | Inside

  datatype State = State(
    available: nat,
    active: nat,
    pc: seq<Pc>,
    arrivals: seq<nat>,  // history: threads in the order they drew tickets
    entries: seq<nat>,   // history: threads in the order they got the lock
    number: seq<nat>     // history: per thread, the position of its latest draw in `arrivals`
  )

  ghost predicate Init(s: State, n: nat)
  {
    s == State(0, 0, seq(n, _ => Outside), [], [], seq(n, _ => 0))
  }

  ghost predicate Draw(s: State, s': State, t: nat)
  {
    && t < |s.pc| == |s.number| && s.pc[t].Outside?
    && s' == s.(available := Wrap(s.available + 1),
                pc := s.pc[t := Polling(s.available)],
                arrivals := s.arrivals + [t],
                number := s.number[t := |s.arrivals|])
  }

  ghost predicate Poll(s: State, s': State, t: nat)
  {
    && t < |s.pc| && s.pc[t].Polling?
    && s' == if s.active == s.pc[t].ticket
             then s.(pc := s.pc[t := Inside], entries := s.entries + [t])
             else s
  }

  ghost predicate Leave(s: State, s': State, t: nat)
  {
    && t < |s.pc| && s.pc[t].Inside?
    && s' == s.(active := Wrap(s.active + 1), pc := s.pc[t := Outside])
  }

  ghost predicate Next(s: State, s': State, t: nat)
  {
    Draw(s, s', t) || Poll(s, s', t) || Leave(s, s', t)
  }

  ghost predicate Step(s: State, s': State)
  {
    exists t: nat :: Next(s, s', t)
  }

  /** A run: states linked by steps, the scheduler's choice of thread being arbitrary. */
  ghost predicate IsRun(run: seq<State>, n: nat)
  {
    && |run| > 0
    && Init(run[0], n)
    && forall i :: 0 <= i < |run| - 1 ==> Step(run[i], run[i + 1])
  }

  ghost predicate MutualExclusion(s: State)
  {
    forall t, u :: 0 <= t < u < |s.pc| ==> !(s.pc[t].Inside? && s.pc[u].Inside?)
  }

  /** Threads get the lock in the order in which they drew their tickets. */
  ghost predicate TicketOrder(s: State)
  {
    s.entries <= s.arrivals
  }

  // ----- the inductive invariant -----

  /** `out` threads have left again.  The threads in the lock code are the arrivals from `out` on;
      arrival number i holds ticket i modulo 2^32, and only arrival number `out` can be inside. */
  ghost predicate Invariant(s: State, n: nat, out: nat)
  {
    && |s.pc| == |s.number| == n
    && out <= |s.entries| <= out + 1
    && |s.entries| <= |s.arrivals|
    && s.entries == s.arrivals[..|s.entries|]
    && s.available == Wrap(|s.arrivals|)
    && s.active == Wrap(out)
    && (forall i :: out <= i < |s.arrivals| ==> ArrivalWaits(s, i))
    && (forall t :: 0 <= t < n && !s.pc[t].Outside? ==> ThreadQueued(s, out, t))
  }

  ghost predicate ArrivalWaits(s: State, i: nat)
    requires i < |s.arrivals| && |s.pc| == |s.number|
  {
    s.arrivals[i] < |s.pc| && s.number[s.arrivals[i]] == i && !s.pc[s.arrivals[i]].Outside?
  }

  ghost predicate ThreadQueued(s: State, out: nat, t: nat)
    requires t < |s.pc| == |s.number|
  {
    && out <= s.number[t] < |s.arrivals|
    && s.arrivals[s.number[t]] == t
    && s.pc[t] == if s.number[t] < |s.entries| then Inside else Polling(Wrap(s.number[t]))
  }

  /** With at most 2^32 threads, `active` shows the ticket of the oldest arrival only. */
  lemma {:induction false} OnlyOldestMatches(s: State, n: nat, out: nat, t: nat)
    requires n <= WORDS && Invariant(s, n, out)
    requires t < n && !s.pc[t].Outside? && Wrap(s.number[t]) == s.active
    ensures s.number[t] == out
  {
    var waiting := s.arrivals[out..];
    forall i | 0 <= i < |waiting| ensures waiting[i] < n && s.number[waiting[i]] == out + i {
      assert ArrivalWaits(s, out + i);
    }
    DistinctBelow(waiting, n);
    assert ThreadQueued(s, out, t);
  }

  lemma {:induction false} WrapNext(x: nat)
    ensures Wrap(Wrap(x) + 1) == Wrap(x + 1)
  {
  }

  lemma {:induction false} DrawKeepsInvariant(s: State, s': State, t: nat, n: nat, out: nat)
    requires Invariant(s, n, out) && Draw(s, s', t)
    ensures Invariant(s', n, out)
  {
    WrapNext(|s.arrivals|);
    forall i | out <= i < |s'.arrivals| ensures ArrivalWaits(s', i) {
      assert i < |s.arrivals| ==> ArrivalWaits(s, i);
    }
    forall u | 0 <= u < n && !s'.pc[u].Outside? ensures ThreadQueued(s', out, u) {
      assert u != t ==> ThreadQueued(s, out, u);
    }
  }

  lemma {:induction false} PollKeepsInvariant(s: State, s': State, t: nat, n: nat, out: nat)
    requires n <= WORDS && Invariant(s, n, out) && Poll(s, s', t)
    ensures Invariant(s', n, out)
  {
    assert ThreadQueued(s, out, t);
    if s.active == s.pc[t].ticket {
      OnlyOldestMatches(s, n, out, t);
      forall i | out <= i < |s'.arrivals| ensures ArrivalWaits(s', i) {
        assert ArrivalWaits(s, i);
      }
      forall u | 0 <= u < n && !s'.pc[u].Outside? ensures ThreadQueued(s', out, u) {
        assert ThreadQueued(s, out, u);
      }
    }
  }

  lemma {:induction false} LeaveKeepsInvariant(s: State, s': State, t: nat, n: nat, out: nat)
    requires Invariant(s, n, out) && Leave(s, s', t)
    ensures Invariant(s', n, out + 1)
  {
    WrapNext(out);
    assert ThreadQueued(s, out, t);
    forall i | out + 1 <= i < |s'.arrivals| ensures ArrivalWaits(s', i) {
      assert ArrivalWaits(s, i);
    }
    forall u | 0 <= u < n && !s'.pc[u].Outside? ensures ThreadQueued(s', out + 1, u) {
      assert ThreadQueued(s, out, u);
    }
  }

  lemma {:induction false} StepKeepsInvariant(s: State, s': State, n: nat, out: nat) returns (out': nat)
    requires n <= WORDS && Invariant(s, n, out) && Step(s, s')
    ensures Invariant(s', n, out')
  {
    var t: nat :| Next(s, s', t);
    if Draw(s, s', t) {
      out' := out;
      DrawKeepsInvariant(s, s', t, n, out);
    } else if Poll(s, s', t) {
      out' := out;
      PollKeepsInvariant(s, s', t, n, out);
    } else {
      out' := out + 1;
      LeaveKeepsInvariant(s, s', t, n, out);
    }
  }

  lemma {:induction false} RunKeepsInvariant(run: seq<State>, n: nat, k: nat) returns (out: nat)
    requires n <= WORDS && IsRun(run, n) && k < |run|
    ensures Invariant(run[k], n, out)
  {
    if k == 0 {
      out := 0;
    } else {
      out := RunKeepsInvariant(run, n, k - 1);
      assert Step(run[k - 1], run[k - 1 + 1]);
      out := StepKeepsInvariant(run[k - 1], run[k], n, out);
    }
  }

  // ----- the exact bound on contenders -----

  /** State after the first k threads have drawn tickets and none has polled. */
  ghost function Drawn(n: nat, k: nat): State
    requires k <= n
  {
    State(Wrap(k), 0, seq(n, t => if 0 <= t < k then Polling(Wrap(t)) else Outside), seq(k, t => t), [],
          seq(n, t => if 0 <= t < k then t else 0))
  }

  lemma {:induction false} DrawnFields(n: nat, k: nat)
    requires k < n
    ensures Drawn(n, k + 1).arrivals == Drawn(n, k).arrivals + [k]
    ensures Drawn(n, k + 1).pc == Drawn(n, k).pc[k := Polling(Wrap(k))]
    ensures Drawn(n, k + 1).number == Drawn(n, k).number[k := k]
  {
  }

  lemma {:induction false} DrawnStep(n: nat, k: nat)
    requires k < n
    ensures Step(Drawn(n, k), Drawn(n, k + 1))
  {
    DrawnFields(n, k);
    WrapNext(k);
    assert Next(Drawn(n, k), Drawn(n, k + 1), k);
  }

  /** With one contender more than there are tickets, two threads hold ticket 0 and both enter. */
  lemma {:induction false} TooManyContenders(n: nat) returns (run: seq<State>)
    requires n > WORDS
    ensures IsRun(run, n) && !MutualExclusion(run[|run| - 1])
  {
    var m := WORDS + 1;
    var s0 := Drawn(n, m);
    var s1 := s0.(pc := s0.pc[0 := Inside], entries := [0]);
    var s2 := s1.(pc := s1.pc[WORDS := Inside], entries := [0, WORDS]);
    assert Next(s0, s1, 0) by { assert s0.pc[0] == Polling(0); }
    assert Next(s1, s2, WORDS) by { assert s1.pc[WORDS] == Polling(0); }
    run := seq(m + 3, k requires 0 <= k < m + 3 => if k <= m then Drawn(n, k) else if k == m + 1 then s1 else s2);
    forall i | 0 <= i < |run| - 1 ensures Step(run[i], run[i + 1]) {
      if i < m {
        DrawnStep(n, i);
      }
    }
    assert s2.pc[0].Inside? && s2.pc[WORDS].Inside?;
  }

  /** Every state of every run of n threads has at most one thread inside and hands out the lock
      in ticket order, if and only if n is at most 2^32. */
  lemma {:induction false} SafeExactlyUpTo32Bits(n: nat)
    ensures (forall run: seq<State>, k: nat {:trigger run[k], IsRun(run, n)} ::
               IsRun(run, n) && k < |run| ==> MutualExclusion(run[k]) && TicketOrder(run[k]))
        <==> n <= WORDS
  {
    if n <= WORDS {
      forall run: seq<State>, k: nat | IsRun(run, n) && k < |run|
        ensures MutualExclusion(run[k]) && TicketOrder(run[k])
      {
        var out := RunKeepsInvariant(run, n, k);
      }
    } else {
      var run := TooManyContenders(n);
      assert IsRun(run, n) && !MutualExclusion(run[|run| - 1]);
    }
  }

  // ----- the lock object -----

  /** The two counters.  Each method is one atomic instruction and makes the move on the counters
      that `Draw`, `Poll` and `Leave` make; a caller of lock() repeats `PollOnce` until it is true. */
  class Spinlock {
    var available: nat
    var active: nat

    ghost predicate Valid()
      reads this
    {
      available < WORDS && active < WORDS
    }

    constructor ()
      ensures Valid() && available == 0 && active == 0
    {
      available, active := 0, 0;
    }

    method FetchTicket() returns (myTicket: nat)
      requires Valid()
      modifies `available
      ensures Valid()
      ensures myTicket == old(available) && available == Wrap(old(available) + 1)
    {
      myTicket := available;
      available := if available + 1 == WORDS then 0 else available + 1;
    }

    method PollOnce(myTicket: nat) returns (mine: bool)
      requires Valid()
      ensures mine <==> active == myTicket
    {
      mine := active == myTicket;
    }

    method Unlock()
      requires Valid()
      modifies `active
      ensures Valid()
      ensures active == Wrap(old(active) + 1)
    {
      active := if active + 1 == WORDS then 0 else active + 1;
    }
  }
}
