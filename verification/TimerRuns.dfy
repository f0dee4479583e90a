/** Whole runs of the software timer: any sequence of sets, cancels and ticks. */
module TimerRuns {
  import opened Arithmetic
  import opened IntrusiveQueue
  import opened TimerModel

  datatype Op<E> = Set(event: E, required: nat) | CancelAt(k: nat) | TickOnce

  function Apply<E>(q: seq<Entry<E>>, op: Op<E>): seq<Entry<E>>
    requires op.CancelAt? ==> op.k < |q|
  {
    match op
    case Set(event, required) => Insert(q, event, required, 0)
    case CancelAt(k) => Cancel(q, k)
    case TickOnce => Tick(q)
  }

  /** The operations may be carried out one after the other, and none of them sets or cancels one of
      the given events. */
  ghost predicate Legal<E(!new)>(q: seq<Entry<E>>, ops: seq<Op<E>>, events: set<E>)
    decreases |ops|
  {
    ops == [] ||
    (&& (match ops[0]
         case Set(event, required) => 1 <= required < WORDS && event !in events
         case CancelAt(k) => k < |q| && q[k].event !in events
         case TickOnce => true)
     && Legal(Apply(q, ops[0]), ops[1..], events))
  }

  function TicksIn<E>(ops: seq<Op<E>>): nat {
    if ops == [] then 0 else (if ops[0].TickOnce? then 1 else 0) + TicksIn(ops[1..])
  }

  /** The events fired by each tick of the run, tick by tick. */
  ghost function FiredAlong<E(!new)>(q: seq<Entry<E>>, ops: seq<Op<E>>, events: set<E>): (f: seq<seq<E>>)
    requires Legal(q, ops, events)
    ensures |f| == TicksIn(ops)
    decreases |ops|
  {
    if ops == [] then []
    else (if ops[0].TickOnce? then [Fired(q)] else []) + FiredAlong(Apply(q, ops[0]), ops[1..], events)
  }

  /** The event is pending and due in r ticks. */
  ghost predicate PendingAt<E(!new)>(s: seq<Due<E>>, event: E, r: nat)
  {
    && (exists i :: 0 <= i < |s| && s[i].event == event)
    && (forall i :: 0 <= i < |s| && s[i].event == event ==> s[i].at == r)
  }

  ghost predicate Absent<E(!new)>(s: seq<Due<E>>, event: E)
  {
    forall i :: 0 <= i < |s| ==> s[i].event != event
  }

  /** No entry of `b` stands before an entry of `a`. */
  ghost predicate Precedes<E(!new)>(s: seq<Due<E>>, a: E, b: E)
  {
    s == [] || ((s[0].event == b ==> Absent(s[1..], a)) && Precedes(s[1..], a, b))
  }

  ghost predicate FiredBefore<E(!new)>(f: seq<E>, a: E, b: E)
  {
    f == [] || ((f[0] == b ==> a !in f[1..]) && FiredBefore(f[1..], a, b))
  }

  // ----- how the reference operations move a pending event -----

  lemma {:induction false} InsertDuePosition<E(!new)>(s: seq<Due<E>>, d: Due<E>) returns (k: nat)
    ensures k <= |s| && InsertDue(s, d) == InsertAt(s, k, d)
    ensures forall i :: 0 <= i < k ==> s[i].at <= d.at
    ensures k < |s| ==> d.at < s[k].at
  {
    if s == [] || d.at < s[0].at {
      k := 0;
    } else {
      k := InsertDuePosition(s[1..], d);
      k := k + 1;
    }
  }

  lemma {:induction false} InsertKeepsPending<E(!new)>(s: seq<Due<E>>, d: Due<E>, event: E, r: nat)
    requires PendingAt(s, event, r) && d.event != event
    ensures PendingAt(InsertDue(s, d), event, r)
  {
    var k := InsertDuePosition(s, d);
    var i :| 0 <= i < |s| && s[i].event == event;
    var j := if i < k then i else i + 1;
    assert InsertDue(s, d)[j] == s[i];
  }

  lemma {:induction false} WithoutKeepsPending<E(!new)>(s: seq<Due<E>>, k: nat, event: E, r: nat)
    requires PendingAt(s, event, r) && k < |s| && s[k].event != event
    ensures PendingAt(Without(s, k), event, r)
  {
    var i :| 0 <= i < |s| && s[i].event == event;
    var j := if i < k then i else i - 1;
    assert Without(s, k)[j] == s[i];
  }

  lemma {:induction false} AbsentStays<E(!new)>(s: seq<Due<E>>, event: E)
    requires Absent(s, event)
    ensures Absent(OneTickLater(s), event) && event !in DueNow(s)
  {
    if s != [] {
      AbsentStays(s[1..], event);
    }
  }

  lemma {:induction false} TickMovesPending<E(!new)>(s: seq<Due<E>>, event: E, r: nat)
    requires PendingAt(s, event, r) && r >= 1
    ensures event in DueNow(s) <==> r == 1
    ensures r >= 2 ==> PendingAt(OneTickLater(s), event, r - 1)
  {
    assert s != [];
    if Absent(s[1..], event) {
      AbsentStays(s[1..], event);
      assert s[0].event == event;
      if r >= 2 {
        assert OneTickLater(s)[0] == Due(event, r - 1);
      }
    } else {
      var i :| 0 <= i < |s[1..]| && s[1..][i].event == event;
      TickMovesPending(s[1..], event, r);
      if r >= 2 {
        var t := OneTickLater(s[1..]);
        var j :| 0 <= j < |t| && t[j].event == event;
        assert OneTickLater(s)[if s[0].at <= 1 then j else j + 1] == t[j];
      }
    }
  }

  lemma {:induction false} ScheduleEvents<E(!new)>(q: seq<Entry<E>>, base: nat)
    ensures forall i :: 0 <= i < |q| ==> Dues(q, base)[i].event == q[i].event
  {
    if q != [] {
      ScheduleEvents(q[1..], base + q[0].ticks);
    }
  }

  lemma {:induction false} TotalBounds<E(!new)>(q: seq<Entry<E>>)
    ensures forall i :: 0 <= i < |q| ==> q[i].ticks <= Total(q)
  {
    if q != [] {
      TotalBounds(q[1..]);
    }
  }

  lemma {:induction false} OpDecodes<E(!new)>(q: seq<Entry<E>>, ops: seq<Op<E>>, events: set<E>)
    requires Healthy(q) && ops != [] && Legal(q, ops, events)
    ensures Healthy(Apply(q, ops[0]))
    ensures var s, s' := Schedule(q), Schedule(Apply(q, ops[0]));
            match ops[0]
            case Set(event, required) => s' == InsertDue(s, Due(event, required))
            case CancelAt(k) => k < |s| && s[k].event == q[k].event && s' == Without(s, k)
            case TickOnce => s' == OneTickLater(s) && Fired(q) == DueNow(s)
  {
    match ops[0]
    case Set(event, required) => InsertIsExactFromOneTickOn(q, event, required);
    case CancelAt(k) =>
      CancelDecodes(q, k);
      ScheduleEvents(q, 0);
    case TickOnce =>
      TotalBounds(q);
      TickDecodes(q);
  }

  /** The queue after the operations. */
  function After<E>(q: seq<Entry<E>>, ops: seq<Op<E>>): seq<Entry<E>>
    requires Feasible(q, ops)
    decreases |ops|
  {
    if ops == [] then q else After(Apply(q, ops[0]), ops[1..])
  }

  /** Only queued entries are cancelled. */
  predicate Feasible<E>(q: seq<Entry<E>>, ops: seq<Op<E>>)
    decreases |ops|
  {
    ops == [] || ((ops[0].CancelAt? ==> ops[0].k < |q|) && Feasible(Apply(q, ops[0]), ops[1..]))
  }

  /** As long as every delay is at least one tick, the queue stays healthy: no event is overdue and no
      32-bit sum wraps, whatever is set, cancelled and fired. */
  lemma {:induction false} StaysHealthy<E(!new)>(q: seq<Entry<E>>, ops: seq<Op<E>>, events: set<E>)
    requires Healthy(q) && Legal(q, ops, events)
    ensures Feasible(q, ops) && Healthy(After(q, ops))
    decreases |ops|
  {
    if ops != [] {
      OpDecodes(q, ops, events);
      StaysHealthy(Apply(q, ops[0]), ops[1..], events);
    }
  }

  /** An event that is due in r >= 1 ticks and not cancelled fires on exactly the r-th tick from now,
      whatever else is set, cancelled or fires in between. */
  lemma {:induction false} FiresOnTime<E(!new)>(q: seq<Entry<E>>, ops: seq<Op<E>>, events: set<E>, event: E, r: nat)
    requires Healthy(q) && PendingAt(Schedule(q), event, r) && r >= 1
    requires event in events && Legal(q, ops, events) && TicksIn(ops) <= r
    ensures forall j :: 0 <= j < TicksIn(ops) ==> (event in FiredAlong(q, ops, events)[j] <==> j + 1 == r)
    decreases |ops|
  {
    if ops != [] {
      var s, q' := Schedule(q), Apply(q, ops[0]);
      OpDecodes(q, ops, events);
      match ops[0] {
        case Set(e, required) =>
          InsertKeepsPending(s, Due(e, required), event, r);
          FiresOnTime(q', ops[1..], events, event, r);
        case CancelAt(k) =>
          WithoutKeepsPending(s, k, event, r);
          FiresOnTime(q', ops[1..], events, event, r);
        case TickOnce =>
          TickMovesPending(s, event, r);
          if r >= 2 {
            FiresOnTime(q', ops[1..], events, event, r - 1);
          }
          forall j | 0 <= j < TicksIn(ops) ensures event in FiredAlong(q, ops, events)[j] <==> j + 1 == r {
            assert j > 0 ==> FiredAlong(q, ops, events)[j] == FiredAlong(q', ops[1..], events)[j - 1];
          }
      }
    }
  }

  /** A one-shot set for r >= 1 ticks fires on exactly the r-th following tick. */
  lemma {:induction false} SetFiresOnTime<E(!new)>(
      q: seq<Entry<E>>, event: E, r: nat, ops: seq<Op<E>>, events: set<E>)
    requires Healthy(q) && Absent(Schedule(q), event) && 1 <= r < WORDS && event in events
    requires Legal(Insert(q, event, r, 0), ops, events) && TicksIn(ops) <= r
    ensures forall j :: 0 <= j < TicksIn(ops) ==>
              (event in FiredAlong(Insert(q, event, r, 0), ops, events)[j] <==> j + 1 == r)
  {
    InsertIsExactFromOneTickOn(q, event, r);
    var k := InsertDuePosition(Schedule(q), Due(event, r));
    var s := Schedule(Insert(q, event, r, 0));
    assert s[k] == Due(event, r);
    assert PendingAt(s, event, r);
    FiresOnTime(Insert(q, event, r, 0), ops, events, event, r);
  }

  // ----- order of equal deadlines -----

  ghost predicate Ascending<E(!new)>(s: seq<Due<E>>)
  {
    forall i, j :: 0 <= i < j < |s| ==> s[i].at <= s[j].at
  }

  lemma {:induction false} DuesAscend<E(!new)>(q: seq<Entry<E>>, base: nat)
    ensures Ascending(Dues(q, base)) && forall i :: 0 <= i < |q| ==> Dues(q, base)[i].at >= base
  {
    if q != [] {
      DuesAscend(q[1..], base + q[0].ticks);
    }
  }

  lemma {:induction false} AloneIsInOrder<E(!new)>(s: seq<Due<E>>, a: E, b: E)
    requires Absent(s, b)
    ensures Precedes(s, a, b)
  {
    if s != [] {
      AloneIsInOrder(s[1..], a, b);
    }
  }

  lemma {:induction false} LaterSetComesBehind<E(!new)>(s: seq<Due<E>>, a: E, b: E, r: nat)
    requires Ascending(s) && (forall i :: 0 <= i < |s| && s[i].event == a ==> s[i].at == r)
    requires Absent(s, b) && a != b
    ensures Precedes(InsertDue(s, Due(b, r)), a, b)
  {
    var t := InsertDue(s, Due(b, r));
    if s == [] || r < s[0].at {
      assert t[1..] == s;
      AloneIsInOrder(s, a, b);
    } else {
      LaterSetComesBehind(s[1..], a, b, r);
      assert t[1..] == InsertDue(s[1..], Due(b, r));
    }
  }

  lemma {:induction false} InsertKeepsAbsent<E(!new)>(s: seq<Due<E>>, d: Due<E>, a: E)
    requires Absent(s, a) && d.event != a
    ensures Absent(InsertDue(s, d), a)
  {
    var k := InsertDuePosition(s, d);
  }

  lemma {:induction false} InsertKeepsOrder<E(!new)>(s: seq<Due<E>>, d: Due<E>, a: E, b: E)
    requires Precedes(s, a, b) && d.event != a && d.event != b
    ensures Precedes(InsertDue(s, d), a, b)
  {
    var t := InsertDue(s, d);
    if s == [] || d.at < s[0].at {
      assert t[1..] == s;
    } else {
      assert t[1..] == InsertDue(s[1..], d);
      InsertKeepsOrder(s[1..], d, a, b);
      if s[0].event == b {
        InsertKeepsAbsent(s[1..], d, a);
      }
    }
  }

  lemma {:induction false} WithoutKeepsOrder<E(!new)>(s: seq<Due<E>>, k: nat, a: E, b: E)
    requires Precedes(s, a, b) && k < |s|
    ensures Precedes(Without(s, k), a, b)
  {
    var t := Without(s, k);
    if k == 0 {
      assert t == s[1..];
    } else {
      assert t[1..] == Without(s[1..], k - 1);
      WithoutKeepsOrder(s[1..], k - 1, a, b);
    }
  }

  lemma {:induction false} TickKeepsOrder<E(!new)>(s: seq<Due<E>>, a: E, b: E)
    requires Precedes(s, a, b)
    ensures Precedes(OneTickLater(s), a, b) && FiredBefore(DueNow(s), a, b)
  {
    if s != [] {
      TickKeepsOrder(s[1..], a, b);
      if s[0].event == b {
        AbsentStays(s[1..], a);
      }
      var fired, later := DueNow(s[1..]), OneTickLater(s[1..]);
      if s[0].at == 1 {
        assert DueNow(s)[1..] == fired;
      } else {
        assert DueNow(s) == fired;
      }
      if s[0].at > 1 {
        assert OneTickLater(s)[1..] == later;
      } else {
        assert OneTickLater(s) == later;
      }
    }
  }

  /** Both events are due in r ticks, a before b. */
  ghost predicate Tied<E(!new)>(s: seq<Due<E>>, a: E, b: E, r: nat)
  {
    PendingAt(s, a, r) && PendingAt(s, b, r) && Precedes(s, a, b)
  }

  lemma {:induction false} OpKeepsTie<E(!new)>(q: seq<Entry<E>>, ops: seq<Op<E>>, events: set<E>, a: E, b: E, r: nat)
    requires Healthy(q) && ops != [] && a in events && b in events && Legal(q, ops, events) && !ops[0].TickOnce?
    requires Tied(Schedule(q), a, b, r)
    ensures Healthy(Apply(q, ops[0])) && Tied(Schedule(Apply(q, ops[0])), a, b, r)
  {
    var s := Schedule(q);
    OpDecodes(q, ops, events);
    match ops[0] {
      case Set(e, required) =>
        InsertKeepsPending(s, Due(e, required), a, r);
        InsertKeepsPending(s, Due(e, required), b, r);
        InsertKeepsOrder(s, Due(e, required), a, b);
      case CancelAt(k) =>
        WithoutKeepsPending(s, k, a, r);
        WithoutKeepsPending(s, k, b, r);
        WithoutKeepsOrder(s, k, a, b);
    }
  }

  lemma {:induction false} TickOnTie<E(!new)>(s: seq<Due<E>>, a: E, b: E, r: nat)
    requires r >= 1 && Tied(s, a, b, r)
    ensures r == 1 ==> a in DueNow(s) && b in DueNow(s) && FiredBefore(DueNow(s), a, b)
    ensures r >= 2 ==> Tied(OneTickLater(s), a, b, r - 1)
  {
    TickMovesPending(s, a, r);
    TickMovesPending(s, b, r);
    TickKeepsOrder(s, a, b);
  }

  lemma {:induction false} FiredStep<E(!new)>(q: seq<Entry<E>>, ops: seq<Op<E>>, events: set<E>)
    requires ops != [] && Legal(q, ops, events)
    ensures var rest := FiredAlong(Apply(q, ops[0]), ops[1..], events);
            FiredAlong(q, ops, events) == if ops[0].TickOnce? then [Fired(q)] + rest else rest
  {
  }

  /** Two pending events with the same deadline fire on the same tick, the one queued first first. */
  lemma {:induction false} EqualDeadlinesKeepOrder<E(!new)>(
      q: seq<Entry<E>>, ops: seq<Op<E>>, events: set<E>, a: E, b: E, r: nat)
    requires Healthy(q) && r >= 1 && a in events && b in events && Legal(q, ops, events) && TicksIn(ops) == r
    requires PendingAt(Schedule(q), a, r) && PendingAt(Schedule(q), b, r) && Precedes(Schedule(q), a, b)
    ensures var f := FiredAlong(q, ops, events)[r - 1]; a in f && b in f && FiredBefore(f, a, b)
    decreases |ops|
  {
    FiredStep(q, ops, events);
    if !ops[0].TickOnce? {
      OpKeepsTie(q, ops, events, a, b, r);
      EqualDeadlinesKeepOrder(Apply(q, ops[0]), ops[1..], events, a, b, r);
    } else {
      OpDecodes(q, ops, events);
      TickOnTie(Schedule(q), a, b, r);
      if r >= 2 {
        EqualDeadlinesKeepOrder(Apply(q, ops[0]), ops[1..], events, a, b, r - 1);
      }
    }
  }

  /** Equal deadlines fire in insertion order: b, set while a is pending and due at the same time,
      fires on the same tick as a and after it. */
  lemma {:induction false} InsertionOrder<E(!new)>(
      q: seq<Entry<E>>, a: E, b: E, r: nat, ops: seq<Op<E>>, events: set<E>)
    requires Healthy(q) && PendingAt(Schedule(q), a, r) && Absent(Schedule(q), b) && a != b && 1 <= r < WORDS
    requires a in events && b in events && Legal(Insert(q, b, r, 0), ops, events) && TicksIn(ops) == r
    ensures var f := FiredAlong(Insert(q, b, r, 0), ops, events)[r - 1]; a in f && b in f && FiredBefore(f, a, b)
  {
    var s, q' := Schedule(q), Insert(q, b, r, 0);
    InsertIsExactFromOneTickOn(q, b, r);
    DuesAscend(q, 0);
    LaterSetComesBehind(s, a, b, r);
    InsertKeepsPending(s, Due(b, r), a, r);
    var k := InsertDuePosition(s, Due(b, r));
    assert Schedule(q')[k] == Due(b, r);
    EqualDeadlinesKeepOrder(q', ops, events, a, b, r);
  }

  // ----- periodic events -----

  /** One tick of a periodic entry: count down modulo 2^32, at zero fire and start over. */
  function PeriodicTicks(ticks: nat, interval: nat): nat {
    var left := Wrap(ticks - 1);
    if left == 0 then interval else left
  }

  predicate PeriodicFires(ticks: nat) {
    Wrap(ticks - 1) == 0
  }

  /** The state after t ticks of an event set with this interval, and how often it has fired. */
  function PeriodicAfter(interval: nat, t: nat): (nat, nat) {
    if t == 0 then (interval, 0)
    else
      var (ticks, count) := PeriodicAfter(interval, t - 1);
      (PeriodicTicks(ticks, interval), count + if PeriodicFires(ticks) then 1 else 0)
  }

  /** Ticks between firings: the interval, or a full turn of the counter when it is 0. */
  function Period(interval: nat): nat {
    if interval == 0 then WORDS else interval
  }

  lemma {:induction false} PeriodicState(interval: nat, t: nat) returns (phase: nat)
    requires interval < WORDS
    ensures var (ticks, count) := PeriodicAfter(interval, t);
            && phase < Period(interval) && t == count * Period(interval) + phase
            && ticks == Wrap(Period(interval) - phase)
  {
    if t == 0 {
      phase := 0;
    } else {
      phase := PeriodicState(interval, t - 1);
      var (ticks, count) := PeriodicAfter(interval, t - 1);
      phase := if phase + 1 == Period(interval) then 0 else phase + 1;
      assert (count + 1) * Period(interval) == count * Period(interval) + Period(interval);
    }
  }

  lemma {:induction false} Quotient(t: nat, count: nat, period: nat, phase: nat)
    requires t == count * period + phase && phase < period
    ensures t / period == count
  {
    var d := t / period;
    assert d * period <= t < d * period + period;
    if d < count {
      Scale(d + 1, count, period);
    } else if d > count {
      Scale(count + 1, d, period);
    }
  }

  /** In t ticks a periodic event fires floor(t / interval) times; with an interval of 0 the period is
      2^32 ticks. */
  lemma {:induction false} PeriodicRate(interval: nat, t: nat)
    requires interval < WORDS
    ensures PeriodicAfter(interval, t).1 == t / Period(interval)
  {
    var phase := PeriodicState(interval, t);
    Quotient(t, PeriodicAfter(interval, t).1, Period(interval), phase);
  }
}
