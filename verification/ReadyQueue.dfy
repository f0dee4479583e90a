/** What a priority-ordered ready queue holds, as sequences of tasks, head first: the specification
    of eventhandling/EventPriorityQueue.cc and the place where its order properties are proved. */
module ReadyQueue {
  import opened EventTypes
  import opened IntrusiveQueue

  function Priority(t: EventTask): nat {
    t.trigger.priority
  }

  ghost predicate Sorted(q: seq<EventTask>)
  {
    forall i, j :: 0 <= i < j < |q| ==> Priority(q[i]) >= Priority(q[j])
  }

  /** How many leading tasks have at least the given priority. */
  function InsertPosition(q: seq<EventTask>, prio: nat): (k: nat)
    ensures k <= |q|
    ensures forall i :: 0 <= i < k ==> Priority(q[i]) >= prio
    ensures k < |q| ==> Priority(q[k]) < prio
  {
    if q == [] || Priority(q[0]) < prio then 0 else 1 + InsertPosition(q[1..], prio)
  }

  function PriorityInsert(q: seq<EventTask>, t: EventTask): seq<EventTask> {
    InsertAt(q, InsertPosition(q, Priority(t)), t)
  }

  /** The position of the first later task with another priority. */
  function NextLevel(q: seq<EventTask>, i: nat): (k: nat)
    requires i < |q|
    ensures i < k <= |q|
    ensures forall j :: i <= j < k ==> Priority(q[j]) == Priority(q[i])
    ensures k < |q| ==> Priority(q[k]) != Priority(q[i])
    decreases |q| - i
  {
    if i + 1 < |q| && Priority(q[i + 1]) == Priority(q[i]) then NextLevel(q, i + 1) else i + 1
  }

  /** The first task of its priority in the queue. */
  ghost predicate LevelHead(q: seq<EventTask>, i: nat)
  {
    i < |q| && (i == 0 || Priority(q[i - 1]) != Priority(q[i]))
  }

  /** The position of the first task of the level that task j is in. */
  ghost function LevelStart(q: seq<EventTask>, j: nat): (h: nat)
    requires j < |q|
    ensures h <= j && LevelHead(q, h)
    ensures forall i :: h <= i <= j ==> Priority(q[i]) == Priority(q[j])
    decreases j
  {
    if LevelHead(q, j) then j else LevelStart(q, j - 1)
  }

  /** The activations of one trigger, in queue order. */
  function TasksOf(q: seq<EventTask>, tr: Trigger): (r: seq<EventTask>)
  {
    if q == [] then []
    else OneIf(q[0], tr) + TasksOf(q[1..], tr)
  }

  function OneIf(t: EventTask, tr: Trigger): seq<EventTask> {
    if t.trigger == tr then [t] else []
  }

  // ----- order -----

  lemma {:induction false} InsertKeepsSorted(q: seq<EventTask>, t: EventTask)
    requires Sorted(q)
    ensures Sorted(PriorityInsert(q, t))
    ensures multiset(PriorityInsert(q, t)) == multiset(q) + multiset{t}
  {
    var k := InsertPosition(q, Priority(t));
    LowerBehind(q, Priority(t));
    MultisetInsert(q, k, t);
  }

  lemma {:induction false} MultisetInsert(q: seq<EventTask>, k: nat, t: EventTask)
    requires k <= |q|
    ensures multiset(InsertAt(q, k, t)) == multiset(q) + multiset{t}
  {
    assert q == q[..k] + q[k..];
  }

  lemma {:induction false} RemoveKeepsSorted(q: seq<EventTask>, k: nat)
    requires Sorted(q) && k < |q|
    ensures Sorted(Without(q, k))
    ensures multiset(Without(q, k)) == multiset(q) - multiset{q[k]}
  {
    assert q == q[..k] + [q[k]] + q[k + 1..];
  }

  lemma {:induction false} TasksAppend(a: seq<EventTask>, b: seq<EventTask>, tr: Trigger)
    ensures TasksOf(a + b, tr) == TasksOf(a, tr) + TasksOf(b, tr)
  {
    if a == [] {
      assert a + b == b;
    } else {
      assert (a + b)[1..] == a[1..] + b;
      TasksAppend(a[1..], b, tr);
    }
  }

  lemma {:induction false} NoTasks(q: seq<EventTask>, tr: Trigger)
    requires forall i :: 0 <= i < |q| ==> q[i].trigger != tr
    ensures TasksOf(q, tr) == []
  {
    if q != [] {
      NoTasks(q[1..], tr);
    }
  }

  lemma {:induction false} LowerBehind(q: seq<EventTask>, prio: nat)
    requires Sorted(q)
    ensures forall i :: InsertPosition(q, prio) <= i < |q| ==> Priority(q[i]) < prio
  {
  }

  lemma {:induction false} HigherBefore(q: seq<EventTask>, k: nat)
    requires Sorted(q) && LevelHead(q, k)
    ensures forall i :: 0 <= i < k ==> Priority(q[i]) > Priority(q[k])
  {
    forall i | 0 <= i < k ensures Priority(q[i]) > Priority(q[k]) {
      assert Priority(q[i]) >= Priority(q[k - 1]) >= Priority(q[k]);
    }
  }

  lemma {:induction false} TasksAround(a: seq<EventTask>, t: EventTask, b: seq<EventTask>, tr: Trigger)
    ensures TasksOf(a + [t] + b, tr) == TasksOf(a, tr) + OneIf(t, tr) + TasksOf(b, tr)
  {
    TasksAppend(a + [t], b, tr);
    TasksSnoc(a, t, tr);
  }

  lemma {:induction false} TasksSnoc(a: seq<EventTask>, t: EventTask, tr: Trigger)
    ensures TasksOf(a + [t], tr) == TasksOf(a, tr) + OneIf(t, tr)
  {
    TasksAppend(a, [t], tr);
    assert [t][1..] == [];
  }

  lemma {:induction false} BehindOwnTrigger(before: seq<EventTask>, t: EventTask, behind: seq<EventTask>, tr: Trigger)
    requires forall i :: 0 <= i < |behind| ==> behind[i].trigger != t.trigger
    ensures TasksOf(before + [t] + behind, tr) == TasksOf(before + behind, tr) + OneIf(t, tr)
  {
    TasksAppend(before, behind, tr);
    TasksAround(before, t, behind, tr);
    if t.trigger == tr {
      NoTasks(behind, tr);
    }
    SwapEmpty(TasksOf(before, tr), TasksOf(behind, tr), OneIf(t, tr));
  }

  /** Inserting by priority puts an activation behind every queued activation of its own trigger and
      leaves the order within every other trigger alone. */
  lemma {:induction false} InsertIsFifoPerTrigger(q: seq<EventTask>, t: EventTask, tr: Trigger)
    requires Sorted(q)
    ensures TasksOf(PriorityInsert(q, t), tr) == TasksOf(q, tr) + OneIf(t, tr)
  {
    var k := InsertPosition(q, Priority(t));
    LowerBehind(q, Priority(t));
    BehindOwnTrigger(q[..k], t, q[k..], tr);
    assert q == q[..k] + q[k..];
  }

  lemma {:induction false} SwapEmpty(x: seq<EventTask>, y: seq<EventTask>, z: seq<EventTask>)
    requires y == [] || z == []
    ensures x + z + y == x + y + z
  {
  }

  lemma {:induction false} FrontEmpty(x: seq<EventTask>, y: seq<EventTask>, z: seq<EventTask>)
    requires x == [] || y == []
    ensures x + y + z == y + (x + z)
  {
  }

  /** Removing the first task of a level removes the oldest activation of that task's trigger, and
      no activation of any other trigger. */
  lemma {:induction false} LevelHeadIsOldest(q: seq<EventTask>, k: nat, tr: Trigger)
    requires Sorted(q) && LevelHead(q, k)
    ensures TasksOf(q, tr) == OneIf(q[k], tr) + TasksOf(Without(q, k), tr)
  {
    if q[k].trigger == tr {
      HigherBefore(q, k);
      NoTasks(q[..k], tr);
    }
    HeadFirst(q[..k], q[k], q[k + 1..], tr);
    assert q == q[..k] + [q[k]] + q[k + 1..];
  }

  lemma {:induction false} HeadFirst(before: seq<EventTask>, t: EventTask, behind: seq<EventTask>, tr: Trigger)
    requires t.trigger == tr ==> TasksOf(before, tr) == []
    ensures TasksOf(before + [t] + behind, tr) == OneIf(t, tr) + TasksOf(before + behind, tr)
  {
    TasksAround(before, t, behind, tr);
    TasksAppend(before, behind, tr);
    FrontEmpty(TasksOf(before, tr), OneIf(t, tr), TasksOf(behind, tr));
  }

  // ----- what TasksOf means -----

  lemma {:induction false} TasksOfAt(q: seq<EventTask>, tr: Trigger, k: nat)
    requires k < |q|
    ensures TasksOf(q[..k + 1], tr) == if q[k].trigger == tr then TasksOf(q[..k], tr) + [q[k]] else TasksOf(q[..k], tr)
  {
    assert q[..k + 1] == q[..k] + [q[k]];
    TasksSnoc(q[..k], q[k], tr);
  }

  /** Every activation of the trigger is listed as often as it is queued, and nothing else is. */
  lemma {:induction false} TasksOfCounts(q: seq<EventTask>, tr: Trigger, t: EventTask)
    ensures multiset(TasksOf(q, tr))[t] == if t.trigger == tr then multiset(q)[t] else 0
  {
    if q != [] {
      TasksOfCounts(q[1..], tr, t);
      assert q == [q[0]] + q[1..];
    }
  }

  /** Of two activations of the trigger the one queued first is listed first. */
  lemma {:induction false} TasksOfOrder(q: seq<EventTask>, tr: Trigger, i: nat, j: nat)
    requires i < j < |q| && q[i].trigger == tr && q[j].trigger == tr
    ensures |TasksOf(q[..i], tr)| < |TasksOf(q[..j], tr)| < |TasksOf(q, tr)|
    ensures TasksOf(q, tr)[|TasksOf(q[..i], tr)|] == q[i] && TasksOf(q, tr)[|TasksOf(q[..j], tr)|] == q[j]
  {
    TasksOfPosition(q, tr, i);
    TasksOfPosition(q, tr, j);
    TasksOfPosition(q[..j], tr, i);
    assert q[..j][..i] == q[..i];
  }

  lemma {:induction false} TasksOfPosition(q: seq<EventTask>, tr: Trigger, i: nat)
    requires i < |q| && q[i].trigger == tr
    ensures |TasksOf(q[..i], tr)| < |TasksOf(q, tr)| && TasksOf(q, tr)[|TasksOf(q[..i], tr)|] == q[i]
  {
    TasksOfAt(q, tr, i);
    assert q == q[..i + 1] + q[i + 1..];
    TasksAppend(q[..i + 1], q[i + 1..], tr);
  }
}
