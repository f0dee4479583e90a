/** Scans on runs of the dispatcher: between the steps of a CPU's scan the other CPUs lock and finish tasks. */
module DispatchScans {
  import opened EventTypes
  import opened IntrusiveQueue
  import opened ReadyQueue
  import opened ReadyScan
  import opened Dispatch
  import opened DispatchProofs
  import DispatchTheorems

  /** Of state k of a run: the invariants that scans depend on, and the step that follows. */
  ghost predicate InOrder(run: seq<State>, cpus: nat, k: nat)
    requires k < |run|
  {
    && Shape(run[k]) && |run[k].pc| == cpus && QueuesOk(run[k]) && SlotsMatch(run[k])
    && (forall c :: 0 <= c < cpus ==> !run[k].pc[c].Hung? && (k == 0 ==> run[k].pc[c].Start?))
    && (k + 1 < |run| ==> Step(run[k], run[k + 1]))
  }

  ghost predicate Orderly(run: seq<State>, cpus: nat)
  {
    forall k: nat :: k < |run| ==> InOrder(run, cpus, k)
  }

  lemma {:induction false} StateInOrder(run: seq<State>, cpus: nat, k: nat)
    requires IsRun(run, cpus) && k < |run|
    ensures InOrder(run, cpus, k)
  {
    DispatchTheorems.RunIsGood(run, cpus, k);
    assert k + 1 < |run| ==> StepAt(run, k);
    forall c | 0 <= c < cpus ensures !run[k].pc[c].Hung? {
      assert CpuStackOk(run[k], c);
    }
  }

  lemma {:induction false} RunIsOrderly(run: seq<State>, cpus: nat)
    requires IsRun(run, cpus)
    ensures Orderly(run, cpus)
  {
    forall k: nat | k < |run| ensures InOrder(run, cpus, k) {
      StateInOrder(run, cpus, k);
    }
  }

  predicate ScanningIn(s: State, c: nat)
  {
    c < |s.pc| && s.pc[c].Scan?
  }

  /** CPU c takes a queue's lock in the step from state b and is still scanning in state k. */
  ghost predicate Scans(run: seq<State>, b: nat, k: nat, c: nat)
  {
    b < k < |run| && !ScanningIn(run[b], c) && forall i :: b < i <= k ==> ScanningIn(run[i], c)
  }

  /** The step from state m is CPU c's try of the task at position h: it fails, and the scan goes on. */
  ghost predicate TriedInVain(run: seq<State>, c: nat, h: nat, m: nat)
  {
    m + 1 < |run| && Shape(run[m]) && ScanningIn(run[m], c) && run[m].pc[c].pos == h && SkipLevel(run[m], run[m + 1], c)
  }

  /** Every scan has a beginning. */
  lemma {:induction false} ScanHasStart(run: seq<State>, cpus: nat, k: nat, c: nat) returns (b: nat)
    requires Orderly(run, cpus) && k < |run| && ScanningIn(run[k], c)
    ensures Scans(run, b, k, c)
  {
    assert InOrder(run, cpus, k);
    b := k - 1;
    assert InOrder(run, cpus, b);
    if ScanningIn(run[b], c) {
      b := ScanHasStart(run, cpus, b, c);
    }
  }

  /** While CPU c scans a queue, a step leaves that queue alone; its own step is a failed try, and the other
      CPUs' steps leave the scan alone. */
  lemma {:induction false} ScanStep(s: State, s': State, c: nat, d: nat, a: Action)
    requires Shape(s) && d < |s.pc| && Does(s, s', d, a) && QueuesOk(s)
    requires ScanningIn(s, c) && ScanningIn(s', c)
    ensures s.pc[c].queue < |s.ready| == |s'.ready| && s'.pc[c].queue == s.pc[c].queue
    ensures s'.ready[s.pc[c].queue] == s.ready[s.pc[c].queue]
    ensures if d == c && a.DoSkipLevel? then SkipLevel(s, s', c) else s'.pc[c].pos == s.pc[c].pos
  {
    StepKeepsShape(s, s', d, a);
    assert ScanOk(s, c) && ScanOk(s, d);
  }

  lemma {:induction false} ScanBegins(s: State, s': State, c: nat, d: nat, a: Action)
    requires Shape(s) && d < |s.pc| && Does(s, s', d, a) && c < |s.pc|
    requires !ScanningIn(s, c) && ScanningIn(s', c)
    ensures s'.pc[c].pos == 0 && s'.pc[c].queue < |s.ready| && s'.ready == s.ready
  {
  }

  /** A scan of the machine is a scan of the queue as it was when its lock was taken; each of its tries is
      the step `at[n]`, and meets the active table of that moment. */
  ghost predicate IsScan(run: seq<State>, b: nat, k: nat, c: nat, tries: seq<Try>, at: seq<nat>)
    requires b < k < |run| && ScanningIn(run[k], c)
  {
    var q := run[k].pc[c].queue;
    && q < |run[b].ready| == |run[k].ready| && run[k].ready[q] == run[b].ready[q]
    && Scanning(run[b].ready[q], tries, run[k].pc[c].pos)
    && |at| == |tries| && forall n :: 0 <= n < |tries| ==> TryAt(run, b, k, c, tries[n], at[n])
  }

  ghost predicate TryAt(run: seq<State>, b: nat, k: nat, c: nat, t: Try, m: nat)
  {
    b < m < k < |run| && TriedInVain(run, c, t.pos, m) && t.table == run[m].active
  }

  lemma {:induction false} ScanGoesOn(run: seq<State>, cpus: nat, b: nat, k: nat, c: nat, tries: seq<Try>, at: seq<nat>)
    returns (tries': seq<Try>, at': seq<nat>)
    requires Orderly(run, cpus) && b < k && k + 1 < |run| && ScanningIn(run[k], c) && ScanningIn(run[k + 1], c)
    requires IsScan(run, b, k, c, tries, at)
    ensures IsScan(run, b, k + 1, c, tries', at')
  {
    assert InOrder(run, cpus, k);
    var d: nat, a: Action :| d < |run[k].pc| && Does(run[k], run[k + 1], d, a);
    ScanStep(run[k], run[k + 1], c, d, a);
    forall n | 0 <= n < |tries| ensures TryAt(run, b, k + 1, c, tries[n], at[n]) {
      assert TryAt(run, b, k, c, tries[n], at[n]);
    }
    if d == c && a.DoSkipLevel? {
      var t := Try(run[k].pc[c].pos, run[k].active);
      assert TryAt(run, b, k + 1, c, t, k);
      assert (tries + [t])[..|tries|] == tries;
      tries', at' := tries + [t], at + [k];
    } else {
      tries', at' := tries, at;
    }
  }

  lemma {:induction false} ScanStarts(run: seq<State>, cpus: nat, b: nat, c: nat)
    requires Orderly(run, cpus) && b + 1 < |run| && c < cpus && !ScanningIn(run[b], c) && ScanningIn(run[b + 1], c)
    ensures IsScan(run, b, b + 1, c, [], [])
  {
    assert InOrder(run, cpus, b);
    var d: nat, a: Action :| d < |run[b].pc| && Does(run[b], run[b + 1], d, a);
    ScanBegins(run[b], run[b + 1], c, d, a);
  }

  lemma {:induction false} ScanOfRun(run: seq<State>, cpus: nat, b: nat, k: nat, c: nat)
    returns (tries: seq<Try>, at: seq<nat>)
    requires Orderly(run, cpus) && Scans(run, b, k, c) && c < cpus
    ensures IsScan(run, b, k, c, tries, at)
    decreases k
  {
    assert ScanningIn(run[k], c);
    if b == k - 1 {
      ScanStarts(run, cpus, b, c);
      tries, at := [], [];
    } else {
      tries, at := ScanOfRun(run, cpus, b, k - 1, c);
      tries, at := ScanGoesOn(run, cpus, b, k - 1, c, tries, at);
    }
  }

  /** The queue that CPU c is scanning in state k. */
  function Scanned(s: State, c: nat): seq<EventTask>
    requires ScanningIn(s, c)
  {
    if s.pc[c].queue < |s.ready| then s.ready[s.pc[c].queue] else []
  }

  // ----- the task taken -----

  /** The task that CPU c locks in the step from state k, when its scan began in the step from state b: it is
      the oldest of its priority in the queue as it was in state b, it can be locked in state k, and the
      oldest task of every higher level was tried in between, when it conflicted with an active task. */
  lemma {:induction false} LockedTaskIsBest(run: seq<State>, cpus: nat, b: nat, k: nat, c: nat, j: nat)
    requires IsRun(run, cpus) && c < cpus && Scans(run, b, k, c) && k + 1 < |run|
    requires Shape(run[k]) && c < |run[k].pc| && LockTask(run[k], run[k + 1], c) && j < |Scanned(run[k], c)|
    ensures var q, i := Scanned(run[k], c), run[k].pc[c].pos;
            && run[k].pc[c].queue < |run[b].ready| && q == run[b].ready[run[k].pc[c].queue]
            && i < |q| && run[k + 1].pc[c] == Picked(q[i]) && CanLock(run[k].active, q[i].trigger)
            && (Priority(q[j]) == Priority(q[i]) ==> i <= j)
            && (Priority(q[j]) > Priority(q[i]) ==> exists m :: b < m < k && TriedInVain(run, c, LevelStart(q, j), m))
  {
    RunIsOrderly(run, cpus);
    var tries, at := ScanOfRun(run, cpus, b, k, c);
    var q, i := Scanned(run[k], c), run[k].pc[c].pos;
    assert InOrder(run, cpus, k) && QueueInOrder(run[k], run[k].pc[c].queue);
    ChoiceIsBest(q, tries, i, j);
    if Priority(q[j]) > Priority(q[i]) {
      var n :| 0 <= n < |tries| && tries[n].pos == LevelStart(q, j);
      assert TryAt(run, b, k, c, tries[n], at[n]);
    }
  }

  /** CPU c's scan ends in the step from state k, with or without a task. */
  ghost predicate EndsScan(run: seq<State>, k: nat, c: nat)
  {
    && k + 1 < |run| && Shape(run[k]) && ScanningIn(run[k], c)
    && (LockTask(run[k], run[k + 1], c) || EndScan(run[k], run[k + 1], c))
  }

  /** When CPU c finds nothing, the oldest task of every level was tried and conflicted with an active one. */
  lemma {:induction false} NothingFound(run: seq<State>, cpus: nat, b: nat, k: nat, c: nat, j: nat)
    requires IsRun(run, cpus) && c < cpus && Scans(run, b, k, c) && EndsScan(run, k, c) && EndScan(run[k], run[k + 1], c)
    requires j < |Scanned(run[k], c)|
    ensures exists m :: b < m < k && TriedInVain(run, c, LevelStart(Scanned(run[k], c), j), m)
  {
    RunIsOrderly(run, cpus);
    var tries, at := ScanOfRun(run, cpus, b, k, c);
    var h := LevelStart(Scanned(run[k], c), j);
    var n := HeadWasTried(Scanned(run[k], c), tries, run[k].pc[c].pos, h);
    assert TryAt(run, b, k, c, tries[n], at[n]);
  }

  // ----- which queue is scanned -----

  predicate WantsGlobal(s: State, c: nat)
  {
    c < |s.pc| && s.pc[c].WantGlobal?
  }

  /** A CPU that starts on the global queue was about to, and one that is about to has just ended the scan of
      its own queue. */
  lemma {:induction false} GlobalStep(s: State, s': State, c: nat, d: nat, a: Action)
    requires Shape(s) && d < |s.pc| && Does(s, s', d, a) && c < |s.pc|
    ensures !ScanningIn(s, c) && ScanningIn(s', c) ==>
              if WantsGlobal(s, c) then s'.pc[c].queue == |s.pc| else s'.pc[c].queue == c
    ensures WantsGlobal(s', c) && !WantsGlobal(s, c) ==> ScanningIn(s, c) && s.pc[c].queue == c && EndScan(s, s', c)
  {
  }

  lemma {:induction false} GlobalStepOf(run: seq<State>, cpus: nat, k: nat, c: nat)
    requires Orderly(run, cpus) && k + 1 < |run| && c < cpus
    ensures Shape(run[k]) && |run[k].pc| == cpus
    ensures !ScanningIn(run[k], c) && ScanningIn(run[k + 1], c) ==>
              if WantsGlobal(run[k], c) then run[k + 1].pc[c].queue == cpus else run[k + 1].pc[c].queue == c
    ensures WantsGlobal(run[k + 1], c) && !WantsGlobal(run[k], c) ==>
              ScanningIn(run[k], c) && run[k].pc[c].queue == c && EndScan(run[k], run[k + 1], c)
  {
    assert InOrder(run, cpus, k);
    var d: nat, a: Action :| d < |run[k].pc| && Does(run[k], run[k + 1], d, a);
    GlobalStep(run[k], run[k + 1], c, d, a);
  }

  lemma {:induction false} StartsElsewhere(run: seq<State>, cpus: nat, c: nat)
    requires Orderly(run, cpus) && run != [] && c < cpus
    ensures !WantsGlobal(run[0], c)
  {
    assert InOrder(run, cpus, 0);
  }

  lemma {:induction false} EndedOwn(run: seq<State>, cpus: nat, b: nat, c: nat) returns (e: nat)
    requires Orderly(run, cpus) && b < |run| && c < cpus && WantsGlobal(run[b], c)
    ensures e < b && ScanningIn(run[e], c) && run[e].pc[c].queue == c && EndsScan(run, e, c) && EndScan(run[e], run[e + 1], c)
    ensures forall i :: e < i <= b ==> WantsGlobal(run[i], c)
    decreases b
  {
    StartsElsewhere(run, cpus, c);
    GlobalStepOf(run, cpus, b - 1, c);
    if WantsGlobal(run[b - 1], c) {
      e := EndedOwn(run, cpus, b - 1, c);
    } else {
      e := b - 1;
    }
  }

  lemma {:induction false} QueueStays(run: seq<State>, cpus: nat, b: nat, k: nat, c: nat)
    requires Orderly(run, cpus) && Scans(run, b, k, c) && c < cpus
    ensures ScanningIn(run[k], c) && ScanningIn(run[b + 1], c) && run[k].pc[c].queue == run[b + 1].pc[c].queue
    decreases k
  {
    assert ScanningIn(run[k], c) && ScanningIn(run[b + 1], c);
    if b + 1 < k {
      QueueStays(run, cpus, b, k - 1, c);
      QueueStep(run, cpus, k - 1, c);
    }
  }

  lemma {:induction false} QueueStep(run: seq<State>, cpus: nat, k: nat, c: nat)
    requires Orderly(run, cpus) && k + 1 < |run| && ScanningIn(run[k], c) && ScanningIn(run[k + 1], c)
    ensures run[k + 1].pc[c].queue == run[k].pc[c].queue
  {
    assert InOrder(run, cpus, k);
    var d: nat, a: Action :| d < |run[k].pc| && Does(run[k], run[k + 1], d, a);
    ScanStep(run[k], run[k + 1], c, d, a);
  }

  /** A CPU looks into the global queue only after it has scanned its own queue and found nothing, with
      nothing in between; and every other scan is of its own queue. */
  lemma {:induction false} OwnQueueFirst(run: seq<State>, cpus: nat, b: nat, k: nat, c: nat) returns (a: nat, e: nat)
    requires IsRun(run, cpus) && c < cpus && Scans(run, b, k, c)
    ensures c < |run[k].pc| && run[k].pc[c].Scan? && (run[k].pc[c].queue == c || run[k].pc[c].queue == cpus)
    ensures run[k].pc[c].queue == cpus ==>
              && a < e < b && Scans(run, a, e, c) && ScanningIn(run[e], c) && run[e].pc[c].queue == c
              && EndsScan(run, e, c) && EndScan(run[e], run[e + 1], c)
              && forall i :: e < i <= b ==> WantsGlobal(run[i], c)
  {
    RunIsOrderly(run, cpus);
    QueueStays(run, cpus, b, k, c);
    GlobalStepOf(run, cpus, b, c);
    a, e := 0, 0;
    if WantsGlobal(run[b], c) {
      e := EndedOwn(run, cpus, b, c);
      a := ScanHasStart(run, cpus, e, c);
    }
  }

  // ----- the tasks passed over -----

  /** The step from state n is the one in which CPU d unlocks task t. */
  ghost predicate Finishes(run: seq<State>, n: nat, d: nat, t: EventTask)
  {
    && n + 1 < |run| && Shape(run[n]) && d < |run[n].pc|
    && Finish(run[n], run[n + 1], d) && run[n].pc[d].task == t
  }

  /** A task leaves its CPU's slot only when the CPU unlocks it. */
  lemma {:induction false} SlotLeaves(s: State, s': State, c: nat, d: nat, a: Action)
    requires Shape(s) && SlotsMatch(s) && c < |s.pc| && !s.pc[c].Hung? && d < |s.pc| && Does(s, s', d, a)
    requires s.active[c].Some? && (c < |s'.active| ==> s'.active[c] != s.active[c])
    ensures Finish(s, s', c) && s.pc[c].task == s.active[c].value
  {
  }

  lemma {:induction false} UnlockedHere(run: seq<State>, cpus: nat, n: nat, d: nat)
    requires Orderly(run, cpus) && n + 1 < |run| && d < cpus && d < |run[n].active| && run[n].active[d].Some?
    requires d < |run[n + 1].active| ==> run[n + 1].active[d] != run[n].active[d]
    ensures Finishes(run, n, d, run[n].active[d].value)
  {
    assert InOrder(run, cpus, n);
    var e: nat, a: Action :| e < |run[n].pc| && Does(run[n], run[n + 1], e, a);
    SlotLeaves(run[n], run[n + 1], d, e, a);
  }

  lemma {:induction false} ActiveUntilFinished(run: seq<State>, cpus: nat, m: nat, k: nat, d: nat, t: EventTask)
    returns (n: nat)
    requires Orderly(run, cpus) && m <= k < |run| && d < cpus
    requires d < |run[m].active| && run[m].active[d] == Some(t) && (d < |run[k].active| ==> run[k].active[d] != Some(t))
    ensures m <= n < k && Finishes(run, n, d, t)
    decreases k
  {
    n := k - 1;
    if d < |run[n].active| && run[n].active[d] == Some(t) {
      UnlockedHere(run, cpus, n, d);
    } else {
      n := ActiveUntilFinished(run, cpus, m, n, d, t);
    }
  }

  /** Every task that stood in the trigger's way in state m was unlocked before state k. */
  ghost predicate BlockersFinished(run: seq<State>, m: nat, k: nat, tr: Trigger)
    requires m < |run|
  {
    forall d: nat :: d < |run[m].active| && run[m].active[d].Some? && !Disjoint(tr, run[m].active[d].value.trigger) ==>
      exists n :: m <= n < k && Finishes(run, n, d, run[m].active[d].value)
  }

  lemma {:induction false} FreeAgain(run: seq<State>, cpus: nat, m: nat, k: nat, tr: Trigger)
    requires Orderly(run, cpus) && m <= k < |run| && CanLock(run[k].active, tr)
    ensures BlockersFinished(run, m, k, tr)
  {
    assert InOrder(run, cpus, m) && InOrder(run, cpus, k);
    forall d: nat | d < |run[m].active| && run[m].active[d].Some? && !Disjoint(tr, run[m].active[d].value.trigger)
      ensures exists n :: m <= n < k && Finishes(run, n, d, run[m].active[d].value)
    {
      var n := ActiveUntilFinished(run, cpus, m, k, d, run[m].active[d].value);
    }
  }

  lemma {:induction false} PositionRises(run: seq<State>, cpus: nat, k: nat, c: nat)
    requires Orderly(run, cpus) && k + 1 < |run| && ScanningIn(run[k], c) && ScanningIn(run[k + 1], c)
    ensures run[k].pc[c].pos <= run[k + 1].pc[c].pos
  {
    assert InOrder(run, cpus, k);
    var d: nat, a: Action :| d < |run[k].pc| && Does(run[k], run[k + 1], d, a);
    ScanStep(run[k], run[k + 1], c, d, a);
  }

  /** The positions a scan has tried lie behind it. */
  lemma {:induction false} TriedIsBehind(run: seq<State>, cpus: nat, b: nat, k: nat, c: nat, h: nat, m: nat)
    requires Orderly(run, cpus) && Scans(run, b, k, c) && b < m < k && TriedInVain(run, c, h, m)
    ensures ScanningIn(run[k], c) && h < run[k].pc[c].pos
    decreases k
  {
    assert ScanningIn(run[k], c) && ScanningIn(run[k - 1], c);
    if m < k - 1 {
      TriedIsBehind(run, cpus, b, k - 1, c, h, m);
      PositionRises(run, cpus, k - 1, c);
    }
  }

  /** At the end of a scan a task that can run is passed over if and only if the oldest task of its level was
      tried in vain during the scan, and the task stands behind that one, or is that one and all tasks that
      were in its way have finished since. */
  lemma {:induction false} PassedOverExactlyWhen(run: seq<State>, cpus: nat, b: nat, k: nat, c: nat, j: nat)
    requires IsRun(run, cpus) && c < cpus && Scans(run, b, k, c) && EndsScan(run, k, c)
    ensures var q := Scanned(run[k], c);
            PassesOver(q, run[k].active, run[k].pc[c].pos, j) <==>
              && j < |q| && CanLock(run[k].active, q[j].trigger)
              && exists m :: b < m < k && TriedInVain(run, c, LevelStart(q, j), m)
                             && (LevelStart(q, j) < j || BlockersFinished(run, m, k, q[j].trigger))
  {
    RunIsOrderly(run, cpus);
    var tries, at := ScanOfRun(run, cpus, b, k, c);
    var q, i := Scanned(run[k], c), run[k].pc[c].pos;
    assert InOrder(run, cpus, k) && QueueInOrder(run[k], run[k].pc[c].queue);
    if j < |q| && CanLock(run[k].active, q[j].trigger) {
      ScanIsInQueue(q, tries, i);
      HigherIsBefore(q, i, j);
      HigherIsBefore(q, i, LevelStart(q, j));
      if PassesOver(q, run[k].active, i, j) {
        var n := HeadWasTried(q, tries, i, LevelStart(q, j));
        assert TryAt(run, b, k, c, tries[n], at[n]);
        FreeAgain(run, cpus, at[n], k, q[j].trigger);
      }
      forall m | b < m < k && TriedInVain(run, c, LevelStart(q, j), m) ensures j < i {
        TriedIsBehind(run, cpus, b, k, c, LevelStart(q, j), m);
      }
    }
  }

  // ----- scans that nobody interferes with -----

  /** When no CPU locks or unlocks a task during the scan, the result is that of trying all levels at once. */
  lemma {:induction false} QuietScan(run: seq<State>, cpus: nat, b: nat, k: nat, c: nat)
    requires IsRun(run, cpus) && c < cpus && Scans(run, b, k, c) && EndsScan(run, k, c)
    requires forall i :: b < i < k ==> run[i].active == run[k].active
    ensures ScanResult(Scanned(run[k], c), run[k].active, run[k].pc[c].pos)
  {
    RunIsOrderly(run, cpus);
    var tries, at := ScanOfRun(run, cpus, b, k, c);
    forall n | 0 <= n < |tries| ensures tries[n].table == run[k].active {
      assert TryAt(run, b, k, c, tries[n], at[n]);
    }
    QuietScanResult(Scanned(run[k], c), tries, run[k].active, run[k].pc[c].pos);
  }
}
