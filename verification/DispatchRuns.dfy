/** A run of two CPUs in which a task gets free behind a scan. */
module DispatchRuns {
  import opened EventTypes
  import opened IntrusiveQueue
  import opened ReadyQueue
  import opened ReadyScan
  import opened Dispatch
  import opened DispatchScans

  function Last(run: seq<State>): State
    requires run != []
  {
    run[|run| - 1]
  }

  lemma {:induction false} Extend(run: seq<State>, cpus: nat, c: nat, a: Action, s': State) returns (longer: seq<State>)
    requires IsRun(run, cpus) && Shape(Last(run)) && c < |Last(run).pc| && Does(Last(run), s', c, a)
    ensures IsRun(longer, cpus) && longer == run + [s'] && Shape(s')
  {
    longer := run + [s'];
    forall i | 0 <= i < |longer| - 1 ensures StepAt(longer, i) {
      if i < |run| - 1 {
        assert StepAt(run, i);
      } else {
        assert Step(Last(run), s');
      }
    }
  }

  // A and B have the same component; A runs on CPU 0, B and the less urgent C may run anywhere
  const A := Trigger(0, 1, [], 1, 0)
  const B := Trigger(1, 1, [], 9, 255)
  const C := Trigger(2, 2, [], 1, 255)

  lemma {:induction false} Take(run: seq<State>, c: nat, tr: Trigger) returns (longer: seq<State>, t: EventTask)
    requires IsRun(run, 2) && Shape(Last(run)) && |Last(run).pc| == 2 && c < 2 && Last(run).pool != [] && Last(run).hand[c] == []
    ensures IsRun(longer, 2) && t.trigger == tr
    ensures Last(longer) == Last(run).(pool := Last(run).pool[1..], hand := Last(run).hand[c := [t]])
  {
    var s := Last(run);
    t := EventTask(s.pool[0], tr, Software, 0, 0);
    assert s.hand[c] + [t] == [t];
    longer := Extend(run, 2, c, DoTakeTask(tr, Software, 0), s.(pool := s.pool[1..], hand := s.hand[c := [t]]));
  }

  lemma {:induction false} ReadyTaken(run: seq<State>, c: nat, t: EventTask) returns (longer: seq<State>, t': EventTask)
    requires IsRun(run, 2) && Shape(Last(run)) && |Last(run).pc| == 2 && c < 2 && Last(run).hand[c] == [t]
    requires Last(run).queueLock[QueueOf(t.trigger, 2)] == None
    ensures IsRun(longer, 2) && t'.trigger == t.trigger
    ensures var s, q := Last(run), QueueOf(t.trigger, 2);
            Last(longer) == s.(ready := s.ready[q := PriorityInsert(s.ready[q], t')], hand := s.hand[c := []],
                               enqueued := s.enqueued + [t'])
  {
    var s, q := Last(run), QueueOf(t.trigger, 2);
    t' := t.(serial := |s.enqueued|);
    longer := Extend(run, 2, c, DoReady, s.(ready := s.ready[q := PriorityInsert(s.ready[q], t')], hand := s.hand[c := []],
                                            enqueued := s.enqueued + [t']));
  }

  /** CPU c raises the trigger and readies its task. */
  lemma {:induction false} Raise(run: seq<State>, c: nat, tr: Trigger) returns (longer: seq<State>, t: EventTask)
    requires IsRun(run, 2) && Shape(Last(run)) && |Last(run).pc| == 2 && c < 2 && Last(run).pool != []
    requires Last(run).hand[c] == [] && Last(run).queueLock[QueueOf(tr, 2)] == None
    ensures IsRun(longer, 2) && t.trigger == tr
    ensures var s, q := Last(run), QueueOf(tr, 2);
            Last(longer) == s.(pool := s.pool[1..], ready := s.ready[q := PriorityInsert(s.ready[q], t)],
                               enqueued := s.enqueued + [t])
  {
    var s := Last(run);
    longer, t := Take(run, c, tr);
    longer, t := ReadyTaken(longer, c, t);
    assert Last(longer).hand == s.hand;
  }

  /** CPU 0 runs task a of trigger A; CPU 1 has done nothing. */
  ghost predicate ARuns(s: State, a: EventTask)
  {
    && Shape(s) && |s.pc| == 2 && s.pc[0] == Running(a, 0) && s.pc[1].Start? && s.hand == [[], []]
    && s.ready == [[], [], []] && s.queueLock == [None, None, None] && a.trigger == A
    && s.active == [Some(a), None] && s.stackPointer[1] == None && |s.pool| > 2
  }

  /** CPU 0 has taken A's task and stands before getting a stack for it. */
  ghost predicate APicked(s: State, a: EventTask)
  {
    && Shape(s) && s.pc == [Picked(a), Start] && s.hand == [[], []] && s.ready == [[], [], []] && s.queueLock == [None, None, None]
    && s.active == [Some(a), None] && s.used == [false, false] && s.cursor == 0 && s.stackPointer == [None, None]
  }

  lemma {:induction false} PickA(run: seq<State>, a: EventTask) returns (longer: seq<State>)
    requires IsRun(run, 2) && Shape(Last(run))
    requires var s := Last(run);
             && s.pc == [Start, Start] && s.hand == [[], []] && s.ready == [[a], [], []] && s.queueLock == [None, None, None]
             && s.active == [None, None] && s.used == [false, false] && s.cursor == 0 && s.stackPointer == [None, None]
    ensures IsRun(longer, 2) && APicked(Last(longer), a) && Last(longer).pool == Last(run).pool
  {
    var s := Last(run);
    var s1 := s.(pc := [Waiting, Start]);
    longer := Extend(run, 2, 0, DoReleaseStack, s1);
    var s2 := s1.(queueLock := [Some(0), None, None], pc := [Scan(0, 0), Start]);
    longer := Extend(longer, 2, 0, DoBeginScan, s2);
    assert Without([a], 0) == [];
    var s3 := s2.(active := [Some(a), None], ready := [[], [], []], queueLock := [None, None, None], pc := [Picked(a), Start],
                  started := s2.started + [a]);
    longer := Extend(longer, 2, 0, DoLockTask, s3);
  }

  lemma {:induction false} StartA(run: seq<State>, a: EventTask) returns (longer: seq<State>)
    requires IsRun(run, 2) && APicked(Last(run), a) && a.trigger == A && |Last(run).pool| > 2
    ensures IsRun(longer, 2) && ARuns(Last(longer), a)
  {
    var s := Last(run);
    var s1 := s.(used := [true, false], cursor := 0, holder := s.holder[0 := Some(0)], pc := [Activating(a, 0), Start]);
    longer := Extend(run, 2, 0, DoTakeStack, s1);
    var s2 := s1.(stackPointer := [Some(0), None], pc := [Running(a, 0), Start]);
    longer := Extend(longer, 2, 0, DoActivate, s2);
  }

  lemma {:induction false} RunA() returns (run: seq<State>, a: EventTask)
    ensures IsRun(run, 2) && ARuns(Last(run), a)
  {
    var s := State(seq(EVENT_TASK_POOL_SIZE, i => i), seq(INTERRUPT_TASK_POOL_SIZE, i => EVENT_TASK_POOL_SIZE + i),
                   seq(3, _ => []), seq(3, _ => None), seq(2, _ => None), seq(2, _ => Start), seq(2, _ => []),
                   seq(2, _ => false), 0, seq(2, _ => None), seq(2, _ => None), [], []);
    run := [s];
    assert s.ready == [[], [], []] && s.queueLock == [None, None, None] && s.hand == [[], []] && s.pc == [Start, Start];
    assert s.active == [None, None] && s.used == [false, false] && s.stackPointer == [None, None];
    run, a := Raise(run, 0, A);
    assert PriorityInsert([], a) == [a];
    run := PickA(run, a);
    run := StartA(run, a);
  }

  /** CPU 1 has found nothing of its own, and B and C wait in the global queue while A still runs. */
  ghost predicate BothWait(s: State, a: EventTask, b: EventTask, c: EventTask)
  {
    && Shape(s) && s.pc == [Running(a, 0), WantGlobal] && s.ready == [[], [], [b, c]] && s.queueLock == [None, None, None]
    && s.active == [Some(a), None] && a.trigger == A && b.trigger == B && c.trigger == C
  }

  lemma {:induction false} RaiseBoth() returns (run: seq<State>, a: EventTask, b: EventTask, c: EventTask)
    ensures IsRun(run, 2) && BothWait(Last(run), a, b, c)
  {
    run, a := RunA();
    run, b := Raise(run, 1, B);
    assert PriorityInsert([], b) == [b];
    run, c := Raise(run, 1, C);
    assert InsertPosition([b], 1) == 1 && PriorityInsert([b], c) == [b, c];
    run := OwnQueueIsEmpty(run, a, b, c);
  }

  lemma {:induction false} OwnQueueIsEmpty(run: seq<State>, a: EventTask, b: EventTask, c: EventTask) returns (longer: seq<State>)
    requires IsRun(run, 2) && Shape(Last(run)) && a.trigger == A && b.trigger == B && c.trigger == C
    requires var s := Last(run);
             && s.pc == [Running(a, 0), Start] && s.ready == [[], [], [b, c]] && s.queueLock == [None, None, None]
             && s.active == [Some(a), None] && s.stackPointer[1] == None
    ensures IsRun(longer, 2) && BothWait(Last(longer), a, b, c)
  {
    var s := Last(run);
    var s1 := s.(pc := [Running(a, 0), Waiting]);
    longer := Extend(run, 2, 1, DoReleaseStack, s1);
    var s2 := s1.(queueLock := [None, Some(1), None], pc := [Running(a, 0), Scan(1, 0)]);
    longer := Extend(longer, 2, 1, DoBeginScan, s2);
    var s3 := s2.(queueLock := [None, None, None], pc := [Running(a, 0), WantGlobal]);
    longer := Extend(longer, 2, 1, DoEndScan, s3);
  }

  /** CPU 1 tries B, which conflicts with A, and goes on; then A finishes. */
  lemma {:induction false} TryAndFinish(before: seq<State>, a: EventTask, b: EventTask, c: EventTask) returns (run: seq<State>)
    requires IsRun(before, 2) && BothWait(Last(before), a, b, c)
    ensures IsRun(run, 2) && |run| == |before| + 3 && !ScanningIn(run[|before| - 1], 1)
    ensures ScanningIn(run[|before|], 1) && ScanningIn(run[|before| + 1], 1)
    ensures Last(run) == Last(before).(queueLock := [None, None, Some(1)], active := [None, None], pc := [Retiring(a), Scan(2, 1)])
  {
    var s := Last(before);
    assert 1 in Components(B) * Components(A);
    var s1 := s.(queueLock := [None, None, Some(1)], pc := [Running(a, 0), Scan(2, 0)]);
    run := Extend(before, 2, 1, DoBeginScan, s1);
    assert s1.active[0].value.trigger == A && NextLevel([b, c], 0) == 1;
    var s2 := s1.(pc := [Running(a, 0), Scan(2, 1)]);
    run := Extend(run, 2, 1, DoSkipLevel, s2);
    run := Extend(run, 2, 0, DoFinish, s2.(active := [None, None], pc := [Retiring(a), Scan(2, 1)]));
  }

  /** Then CPU 1 takes C, although B is the first task of a higher level and could run at that moment. */
  lemma {:induction false} FreedBehindScan() returns (run: seq<State>, b: nat, k: nat)
    ensures IsRun(run, 2) && Scans(run, b, k, 1) && k + 1 < |run| && Shape(run[k]) && LockTask(run[k], run[k + 1], 1)
    ensures var q, i := Scanned(run[k], 1), run[k].pc[1].pos;
            && |q| == 2 && i == 1 && Priority(q[0]) > Priority(q[1])
            && PassesOver(q, run[k].active, i, 0) && !ScanResult(q, run[k].active, i)
  {
    var before, ta, tb, tc := RaiseBoth();
    var during := TryAndFinish(before, ta, tb, tc);
    var s := Last(during);
    assert Without([tb, tc], 1) == [tb];
    run := Extend(during, 2, 1, DoLockTask, s.(active := [None, Some(tc)], ready := [[], [], [tb]], queueLock := [None, None, None],
                                               pc := [Retiring(ta), Picked(tc)], started := s.started + [tc]));
    b, k := |before| - 1, |before| + 2;
    assert LevelHead(Scanned(s, 1), 0);
  }
}
