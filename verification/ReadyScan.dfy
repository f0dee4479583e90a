/** Scans of a ready queue.  A scan tries the first task of each priority level in turn.  The active table is
    locked for one try at a time (eventhandling/EventHandler.cc, tryTaskLock), so other CPUs lock and unlock
    tasks between two tries and every try meets a table of its own. */
module ReadyScan {
  import opened EventTypes
  import opened ReadyQueue

  /** A try that failed: the position of the task and the table it met. */
  datatype Try = Try(pos: nat, table: seq<Option<EventTask>>)

  ghost predicate Failed(q: seq<EventTask>, t: Try)
  {
    t.pos < |q| && !CanLock(t.table, q[t.pos].trigger)
  }

  /** The scan has made these tries, all in vain, and has come to position `pos`. */
  ghost predicate Scanning(q: seq<EventTask>, tries: seq<Try>, pos: nat)
    decreases |tries|
  {
    if tries == [] then pos == 0
    else
      var last := tries[|tries| - 1];
      Scanning(q, tries[..|tries| - 1], last.pos) && Failed(q, last) && pos == NextLevel(q, last.pos)
  }

  lemma {:induction false} TryFails(q: seq<EventTask>, tries: seq<Try>, k: nat, table: seq<Option<EventTask>>)
    requires Scanning(q, tries, k) && k < |q| && !CanLock(table, q[k].trigger)
    ensures Scanning(q, tries + [Try(k, table)], NextLevel(q, k))
  {
    assert (tries + [Try(k, table)])[..|tries|] == tries;
  }

  // ----- which tasks were tried -----

  lemma {:induction false} ScanIsInQueue(q: seq<EventTask>, tries: seq<Try>, pos: nat)
    requires Scanning(q, tries, pos)
    ensures pos <= |q| && (pos < |q| ==> LevelHead(q, pos))
  {
  }

  /** Only first tasks of levels before the position were tried. */
  lemma {:induction false} TriedAreHeads(q: seq<EventTask>, tries: seq<Try>, pos: nat, n: nat)
    requires Scanning(q, tries, pos) && n < |tries|
    ensures tries[n].pos < pos && Failed(q, tries[n]) && LevelHead(q, tries[n].pos)
    decreases |tries|
  {
    var last := |tries| - 1;
    if n < last {
      TriedAreHeads(q, tries[..last], tries[last].pos, n);
    } else {
      ScanIsInQueue(q, tries[..last], tries[last].pos);
    }
  }

  /** Every first task of a level before the position was tried. */
  lemma {:induction false} HeadWasTried(q: seq<EventTask>, tries: seq<Try>, pos: nat, h: nat) returns (n: nat)
    requires Scanning(q, tries, pos) && LevelHead(q, h) && h < pos
    ensures n < |tries| && tries[n].pos == h && Failed(q, tries[n])
    decreases |tries|
  {
    n := |tries| - 1;
    if h < tries[n].pos {
      n := HeadWasTried(q, tries[..n], tries[n].pos, h);
    }
  }

  // ----- the task taken -----

  /** Tasks of higher priority than the one at the position stand before it. */
  lemma {:induction false} HigherIsBefore(q: seq<EventTask>, pos: nat, j: nat)
    requires Sorted(q) && (pos == |q| || LevelHead(q, pos)) && j < |q|
    ensures j < pos <==> (pos < |q| ==> Priority(q[j]) > Priority(q[pos]))
  {
    if pos < |q| {
      HigherBefore(q, pos);
    }
  }

  /** The task that a scan of a priority-ordered queue comes to is the oldest of its priority, and in every
      higher level the oldest task was tried and conflicted with a task then active. */
  lemma {:induction false} ChoiceIsBest(q: seq<EventTask>, tries: seq<Try>, k: nat, j: nat)
    requires Sorted(q) && Scanning(q, tries, k) && k < |q| && j < |q|
    ensures Priority(q[j]) == Priority(q[k]) ==> k <= j
    ensures Priority(q[j]) > Priority(q[k]) ==>
              exists n :: 0 <= n < |tries| && tries[n].pos == LevelStart(q, j) && Failed(q, tries[n])
  {
    ScanIsInQueue(q, tries, k);
    HigherIsBefore(q, k, j);
    if Priority(q[j]) > Priority(q[k]) {
      var n := HeadWasTried(q, tries, k, LevelStart(q, j));
    }
  }

  /** The scan ends at position `k`: with the table its last try meets it can lock the task there, or the
      queue is at its end.  Try number n meets `tables[n]`. */
  ghost predicate EndsAt(q: seq<EventTask>, tables: seq<seq<Option<EventTask>>>, tries: seq<Try>, k: nat)
  {
    && Scanning(q, tries, k)
    && |tries| <= |tables| && (forall n :: 0 <= n < |tries| ==> tries[n].table == tables[n])
    && (k < |q| ==> |tries| < |tables| && CanLock(tables[|tries|], q[k].trigger))
  }

  lemma {:induction false} SameTriesSamePosition(q: seq<EventTask>, a: seq<Try>, k: nat, b: seq<Try>, l: nat)
    requires Scanning(q, a, k) && Scanning(q, b, l) && |a| == |b|
    requires forall n :: 0 <= n < |a| ==> a[n].table == b[n].table
    ensures a == b && k == l
    decreases |a|
  {
    if a != [] {
      var n := |a| - 1;
      SameTriesSamePosition(q, a[..n], a[n].pos, b[..n], b[n].pos);
      assert a == a[..n] + [a[n]] && b == b[..n] + [b[n]];
    }
  }

  lemma {:induction false} EarlierTries(q: seq<EventTask>, tries: seq<Try>, k: nat, n: nat)
    requires Scanning(q, tries, k) && n < |tries|
    ensures Scanning(q, tries[..n], tries[n].pos) && Failed(q, tries[n])
    decreases |tries|
  {
    var last := |tries| - 1;
    if n < last {
      EarlierTries(q, tries[..last], tries[last].pos, n);
      assert tries[..last][..n] == tries[..n];
    }
  }

  lemma {:induction false} NotShorter(q: seq<EventTask>, tables: seq<seq<Option<EventTask>>>, a: seq<Try>, k: nat,
                                      b: seq<Try>, l: nat)
    requires EndsAt(q, tables, a, k) && EndsAt(q, tables, b, l)
    ensures |a| >= |b|
  {
    if |a| < |b| {
      EarlierTries(q, b, l, |a|);
      SameTriesSamePosition(q, a, k, b[..|a|], b[|a|].pos);
    }
  }

  lemma {:induction false} EndIsUnique(q: seq<EventTask>, tables: seq<seq<Option<EventTask>>>, a: seq<Try>, k: nat,
                                       b: seq<Try>, l: nat)
    requires EndsAt(q, tables, a, k) && EndsAt(q, tables, b, l)
    ensures a == b && k == l
  {
    NotShorter(q, tables, a, k, b, l);
    NotShorter(q, tables, b, l, a, k);
    SameTriesSamePosition(q, a, k, b, l);
  }

  lemma {:induction false} EndExists(q: seq<EventTask>, tables: seq<seq<Option<EventTask>>>) returns (tries: seq<Try>, k: nat)
    requires |tables| >= |q|
    ensures EndsAt(q, tables, tries, k)
  {
    tries, k := [], 0;
    while k < |q| && !CanLock(tables[|tries|], q[k].trigger)
      invariant Scanning(q, tries, k) && |tries| <= k <= |q|
      invariant forall n :: 0 <= n < |tries| ==> tries[n].table == tables[n]
      decreases |q| - k
    {
      TryFails(q, tries, k, tables[|tries|]);
      tries, k := tries + [Try(k, tables[|tries|])], NextLevel(q, k);
    }
  }

  /** What other CPUs do decides the choice: whatever tables the tries meet, one for each task at most, the
      scan has exactly one end. */
  lemma {:induction false} ChoiceIsDetermined(q: seq<EventTask>, tables: seq<seq<Option<EventTask>>>)
    requires |tables| >= |q|
    ensures exists tries, k :: EndsAt(q, tables, tries, k)
    ensures forall a, k, b, l :: EndsAt(q, tables, a, k) && EndsAt(q, tables, b, l) ==> a == b && k == l
  {
    var tries, k := EndExists(q, tables);
    forall a, k, b, l | EndsAt(q, tables, a, k) && EndsAt(q, tables, b, l) ensures a == b && k == l {
      EndIsUnique(q, tables, a, k, b, l);
    }
  }

  // ----- the tasks passed over -----

  /** A scan that ends at position k leaves out task j, which could run now and has a higher priority than
      the one it takes, or could run now although it takes none. */
  ghost predicate PassesOver(q: seq<EventTask>, now: seq<Option<EventTask>>, k: nat, j: nat)
  {
    j < |q| && (k < |q| ==> Priority(q[j]) > Priority(q[k])) && CanLock(now, q[j].trigger)
  }

  /** Every task that stood in the way then has left its slot since. */
  ghost predicate Cleared(before: seq<Option<EventTask>>, now: seq<Option<EventTask>>, tr: Trigger)
  {
    forall c :: 0 <= c < |before| && c < |now| && before[c].Some? && !Disjoint(tr, before[c].value.trigger) ==>
      now[c] != before[c]
  }

  /** A task that can run now is passed over if and only if the first task of its level was tried in vain,
      and it is not that first task or what stood in that one's way is gone since. */
  lemma {:induction false} PassesOverExactlyWhen(q: seq<EventTask>, tries: seq<Try>, now: seq<Option<EventTask>>, k: nat, j: nat)
    requires Sorted(q) && Scanning(q, tries, k)
    ensures PassesOver(q, now, k, j) <==>
              && j < |q| && CanLock(now, q[j].trigger)
              && exists n :: 0 <= n < |tries| && tries[n].pos == LevelStart(q, j)
                             && (tries[n].pos < j || Cleared(tries[n].table, now, q[j].trigger))
  {
    ScanIsInQueue(q, tries, k);
    if j < |q| {
      var h := LevelStart(q, j);
      HigherIsBefore(q, k, j);
      HigherIsBefore(q, k, h);
      if h < k {
        var n := HeadWasTried(q, tries, k, h);
      } else {
        forall n | 0 <= n < |tries| ensures tries[n].pos != h {
          TriedAreHeads(q, tries, k, n);
        }
      }
    }
  }

  // ----- scans that nobody interferes with -----

  /** Every level that begins before position k has a first task that cannot be locked. */
  ghost predicate HeadsBlocked(q: seq<EventTask>, active: seq<Option<EventTask>>, k: nat)
  {
    forall j :: 0 <= j < k && LevelHead(q, j) ==> !CanLock(active, q[j].trigger)
  }

  /** The first task of a level can be locked while the first tasks of all levels before it cannot. */
  ghost predicate FirstLockable(q: seq<EventTask>, active: seq<Option<EventTask>>, k: nat)
  {
    LevelHead(q, k) && CanLock(active, q[k].trigger) && HeadsBlocked(q, active, k)
  }

  /** Where a scan ends that meets the same table all the time. */
  ghost predicate ScanResult(q: seq<EventTask>, active: seq<Option<EventTask>>, k: nat)
  {
    if k < |q| then FirstLockable(q, active, k) else k == |q| && HeadsBlocked(q, active, |q|)
  }

  /** When no CPU locks or unlocks a task during the scan, it ends at the first level whose first task can be
      locked. */
  lemma {:induction false} QuietScanResult(q: seq<EventTask>, tries: seq<Try>, active: seq<Option<EventTask>>, k: nat)
    requires Scanning(q, tries, k) && (forall n :: 0 <= n < |tries| ==> tries[n].table == active)
    ensures HeadsBlocked(q, active, k)
    ensures k == |q| || CanLock(active, q[k].trigger) ==> ScanResult(q, active, k)
  {
    ScanIsInQueue(q, tries, k);
    forall h | 0 <= h < k && LevelHead(q, h) ensures !CanLock(active, q[h].trigger) {
      var n := HeadWasTried(q, tries, k, h);
    }
  }

  /** Then a task that can run is passed over if and only if it stands before the end behind a first task of
      its level that cannot. */
  lemma {:induction false} QuietPassesOverExactlyWhen(q: seq<EventTask>, active: seq<Option<EventTask>>, k: nat, j: nat)
    requires Sorted(q) && ScanResult(q, active, k)
    ensures PassesOver(q, active, k, j) <==>
              && j < |q| && CanLock(active, q[j].trigger)
              && LevelStart(q, j) < k && LevelStart(q, j) < j && !CanLock(active, q[LevelStart(q, j)].trigger)
  {
    if j < |q| {
      HigherIsBefore(q, k, j);
      HigherIsBefore(q, k, LevelStart(q, j));
    }
  }

  /** Two tasks of one priority, the first in conflict with a running task: the second is not found. */
  lemma {:induction false} SecondTaskHidden() returns (q: seq<EventTask>, active: seq<Option<EventTask>>)
    ensures |q| == 2 && Sorted(q) && ScanResult(q, active, 2) && PassesOver(q, active, 2, 1)
    ensures !CanLock(active, q[0].trigger) && CanLock(active, q[1].trigger)
  {
    var busy, free := Trigger(0, 5, [], 1, 0), Trigger(1, 6, [], 1, 0);
    q := [EventTask(0, busy, Software, 0, 0), EventTask(1, free, Software, 0, 1)];
    active := [Some(EventTask(2, Trigger(2, 5, [], 1, 0), Software, 0, 2))];
    assert 5 in Components(busy) && 5 in Components(active[0].value.trigger);
    assert !LevelHead(q, 1);
  }

  /** With no task active anywhere, a non-empty queue yields its head. */
  lemma {:induction false} IdleTakesHead(q: seq<EventTask>, active: seq<Option<EventTask>>)
    requires q != [] && forall c :: 0 <= c < |active| ==> active[c].None?
    ensures FirstLockable(q, active, 0)
  {
  }
}
