/** The timer object of driver/GenericTimer.cc.  Every method is tied to the queue functions of
    TimerModel; what they mean for runs is proved in TimerRuns. */
module SoftwareTimer {
  import opened EventTypes
  import opened IntrusiveQueue
  import opened TimerModel
  import opened TimerRuns

  class TimerEvent {
    var mInterval: nat
    var mRemainingTicks: nat
    var mSubscribers: seq<Trigger>

    constructor ()
      ensures mInterval == 0 && mRemainingTicks == 0 && mSubscribers == []
    {
      mInterval, mRemainingTicks, mSubscribers := 0, 0, [];
    }
  }

  ghost predicate Apart(es: seq<TimerEvent>, fs: seq<TimerEvent>)
  {
    forall e :: e in es ==> e !in fs
  }

  /** No event object is in two of the four lists, or twice in one of them. */
  ghost predicate Separate(a: seq<TimerEvent>, b: seq<TimerEvent>, c: seq<TimerEvent>, d: seq<TimerEvent>)
  {
    && Distinct(a) && Distinct(b) && Distinct(c) && Distinct(d)
    && Apart(a, b) && Apart(a, c) && Apart(a, d) && Apart(b, c) && Apart(b, d) && Apart(c, d)
  }

  lemma {:induction false} DropKeepsSeparate(
      a: seq<TimerEvent>, b: seq<TimerEvent>, c: seq<TimerEvent>, d: seq<TimerEvent>, n: nat)
    requires Separate(a, b, c, d) && n <= |a|
    ensures Separate(a[n..], b, c, d)
  {
    SuffixStaysDistinct(a, n);
  }

  /** The queue as the model sees it. */
  ghost function Entries(es: seq<TimerEvent>): (q: seq<Entry<TimerEvent>>)
    reads es
    ensures |q| == |es| && forall i :: 0 <= i < |es| ==> q[i] == Entry(es[i], es[i].mRemainingTicks)
  {
    seq(|es|, i requires 0 <= i < |es| reads es => Entry(es[i], es[i].mRemainingTicks))
  }

  lemma {:induction false} SnocStaysDistinct<X>(s: seq<X>, x: X)
    requires Distinct(s) && x !in s
    ensures Distinct(s + [x])
  {
  }

  lemma {:induction false} SuffixStaysDistinct<X>(s: seq<X>, n: nat)
    requires Distinct(s) && n <= |s|
    ensures Distinct(s[n..]) && (forall x :: x in s[n..] ==> x in s) && forall i :: 0 <= i < n ==> s[i] !in s[n..]
  {
  }

  /** The periodic events that this tick fires. */
  function PeriodicFired<E>(q: seq<Entry<E>>): seq<E> {
    if q == [] then [] else (if PeriodicFires(q[0].ticks) then [q[0].event] else []) + PeriodicFired(q[1..])
  }

  lemma {:induction false} PeriodicFiredSnoc<E>(q: seq<Entry<E>>, x: Entry<E>)
    ensures PeriodicFired(q + [x]) == PeriodicFired(q) + (if PeriodicFires(x.ticks) then [x.event] else [])
  {
    if q == [] {
      assert [x][1..] == [] && q + [x] == [x];
    } else {
      var head, last := if PeriodicFires(q[0].ticks) then [q[0].event] else [], if PeriodicFires(x.ticks) then [x.event] else [];
      assert (q + [x])[1..] == q[1..] + [x];
      PeriodicFiredSnoc(q[1..], x);
      Reassociate(head, PeriodicFired(q[1..]), last);
    }
  }

  lemma {:induction false} Reassociate<X>(a: seq<X>, b: seq<X>, c: seq<X>)
    ensures a + (b + c) == a + b + c
  {
  }

  /** Tick by tick, entry by entry: the events listed are those of the entries at one tick before zero, in
      queue order. */
  lemma {:induction false} PeriodicFiredAt<E>(q: seq<Entry<E>>, k: nat)
    requires k < |q|
    ensures PeriodicFired(q[..0]) == []
    ensures PeriodicFired(q[..k + 1])
            == if q[k].ticks % WORDS == 1 then PeriodicFired(q[..k]) + [q[k].event] else PeriodicFired(q[..k])
  {
    assert q[..k + 1] == q[..k] + [q[k]];
    PeriodicFiredSnoc(q[..k], q[k]);
  }

  lemma {:induction false} ExpiredStep<E>(q: seq<Entry<E>>, n: nat)
    requires n < |q| && q[n].ticks == 0
    ensures Expired(q[n..]) == [q[n].event] + Expired(q[n + 1..]) && Unexpired(q[n..]) == Unexpired(q[n + 1..])
  {
    assert q[n..][1..] == q[n + 1..];
  }

  /** One step of the walk in setOneshotEvent. */
  lemma {:induction false} InsertWalk<E>(q: seq<Entry<E>>, i: nat, event: E, required: nat, sum: nat)
    requires i < |q|
    ensures var sumDelay := Wrap(sum + q[i].ticks);
            if required < sumDelay then
              var remaining := Wrap(required - Wrap(sumDelay - q[i].ticks));
              Insert(q[i..], event, required, sum)
              == [Entry(event, remaining), Entry(q[i].event, Wrap(q[i].ticks - remaining))] + q[i + 1..]
            else
              q[..i] + Insert(q[i..], event, required, sum) == q[..i + 1] + Insert(q[i + 1..], event, required, sumDelay)
  {
    var tail, sumDelay := q[i..], Wrap(sum + q[i].ticks);
    assert tail[0] == q[i] && tail[1..] == q[i + 1..];
    if required >= sumDelay {
      var rest := Insert(q[i + 1..], event, required, sumDelay);
      assert q[..i] + ([q[i]] + rest) == q[..i + 1] + rest;
    }
  }

  /** The ticks setOneshotEvent gives an event it puts before an entry with `ticks`. */
  function Remaining(required: nat, sum: nat, ticks: nat): nat {
    Wrap(required - Wrap(Wrap(sum + ticks) - ticks))
  }

  lemma {:induction false} InsertFound<E>(q: seq<Entry<E>>, i: nat, event: E, required: nat, sum: nat)
    requires i < |q| && required < Wrap(sum + q[i].ticks)
    requires Insert(q, event, required, 0) == q[..i] + Insert(q[i..], event, required, sum)
    ensures var r := Remaining(required, sum, q[i].ticks);
            Insert(q, event, required, 0)
            == q[..i] + ([Entry(event, r), Entry(q[i].event, Wrap(q[i].ticks - r))] + q[i + 1..])
  {
    InsertWalk(q, i, event, required, sum);
  }

  lemma {:induction false} InsertEnd<E>(q: seq<Entry<E>>, event: E, required: nat, sum: nat)
    requires Insert(q, event, required, 0) == q[..|q|] + Insert(q[|q|..], event, required, sum)
    ensures Insert(q, event, required, 0) == q + [Entry(event, Wrap(required - sum))]
  {
    assert q[..|q|] == q && q[|q|..] == [];
  }

  const TIMER_POOL_SIZE: nat := 32

  class GenericTimer {
    const mTimerInterval: nat
    var mTicks: nat
    var mOneshotQueue: seq<TimerEvent>
    var mPeriodicQueue: seq<TimerEvent>
    var mOneshotEventPool: seq<TimerEvent>
    var mPeriodicEventPool: seq<TimerEvent>

    ghost predicate Valid()
      reads this
    {
      mTimerInterval > 0 && Separate(mOneshotQueue, mPeriodicQueue, mOneshotEventPool, mPeriodicEventPool)
    }

    constructor (timerInterval: nat)
      requires timerInterval > 0
      ensures Valid() && mTimerInterval == timerInterval && mTicks == 0
      ensures mOneshotQueue == [] && mPeriodicQueue == [] && Healthy(Entries(mOneshotQueue))
      ensures |mOneshotEventPool| == |mPeriodicEventPool| == TIMER_POOL_SIZE
      ensures forall e :: e in mOneshotEventPool || e in mPeriodicEventPool ==> fresh(e) && e.mSubscribers == []
    {
      mTimerInterval, mTicks := timerInterval, 0;
      mOneshotQueue, mPeriodicQueue, mOneshotEventPool, mPeriodicEventPool := [], [], [], [];
      new;
      for i := 0 to TIMER_POOL_SIZE
        invariant |mOneshotEventPool| == |mPeriodicEventPool| == i && mOneshotQueue == [] && mPeriodicQueue == [] && mTicks == 0
        invariant forall e :: e in mOneshotEventPool || e in mPeriodicEventPool ==> fresh(e) && e.mSubscribers == []
        invariant Valid()
      {
        var oneshot := new TimerEvent();
        var periodic := new TimerEvent();
        SnocStaysDistinct(mOneshotEventPool, oneshot);
        SnocStaysDistinct(mPeriodicEventPool, periodic);
        mOneshotEventPool := mOneshotEventPool + [oneshot];
        mPeriodicEventPool := mPeriodicEventPool + [periodic];
      }
    }

    method SetOneshotEvent(trigger: Trigger, delay: nat) returns (event: TimerEvent?)
      requires Valid()
      modifies this, mOneshotQueue`mRemainingTicks, mOneshotEventPool
      ensures Valid()
      ensures old(mOneshotEventPool) == [] ==>
                event == null && mOneshotQueue == old(mOneshotQueue) && Entries(mOneshotQueue) == old(Entries(mOneshotQueue))
      ensures old(mOneshotEventPool) != [] ==>
                && event == old(mOneshotEventPool)[0] && mOneshotEventPool == old(mOneshotEventPool)[1..]
                && Entries(mOneshotQueue) == Insert(old(Entries(mOneshotQueue)), event, delay / mTimerInterval, 0)
                && event.mSubscribers == old(mOneshotEventPool[0].mSubscribers) + [trigger]
                && forall e :: e in mOneshotEventPool ==> e.mSubscribers == old(e.mSubscribers)
      ensures mPeriodicQueue == old(mPeriodicQueue) && mPeriodicEventPool == old(mPeriodicEventPool)
      ensures mTicks == old(mTicks)
    {
      if |mOneshotEventPool| == 0 {
        return null;
      }
      event := mOneshotEventPool[0];
      SuffixStaysDistinct(mOneshotEventPool, 1);
      mOneshotEventPool := mOneshotEventPool[1..];
      event.mSubscribers := event.mSubscribers + [trigger];
      ghost var k := Enqueue(event, delay / mTimerInterval);
      assert forall e :: e in mOneshotQueue ==> e == event || e in old(mOneshotQueue);
    }

    /** Walks to the first event that is due later than the required ticks. */
    method FindLater(requiredTicks: nat, ghost event: TimerEvent) returns (i: nat, sumDelay: nat)
      ensures i <= |mOneshotQueue|
      ensures var q := Entries(mOneshotQueue);
              Insert(q, event, requiredTicks, 0) == q[..i] + Insert(q[i..], event, requiredTicks, sumDelay)
      ensures i < |mOneshotQueue| ==> requiredTicks < Wrap(sumDelay + mOneshotQueue[i].mRemainingTicks)
    {
      ghost var q := Entries(mOneshotQueue);
      i, sumDelay := 0, 0;
      while i < |mOneshotQueue|
        invariant 0 <= i <= |q|
        invariant Insert(q, event, requiredTicks, 0) == q[..i] + Insert(q[i..], event, requiredTicks, sumDelay)
        decreases |q| - i
      {
        InsertWalk(q, i, event, requiredTicks, sumDelay);
        var nextDelay := Wrap(sumDelay + mOneshotQueue[i].mRemainingTicks);
        if requiredTicks < nextDelay {
          return;
        }
        sumDelay := nextDelay;
        i := i + 1;
      }
    }

    /** The region under mOneshotLock. */
    method Enqueue(event: TimerEvent, requiredTicks: nat) returns (ghost k: nat)
      requires Distinct(mOneshotQueue) && event !in mOneshotQueue
      modifies `mOneshotQueue, mOneshotQueue`mRemainingTicks, event`mRemainingTicks
      ensures k <= |old(mOneshotQueue)| && mOneshotQueue == InsertAt(old(mOneshotQueue), k, event)
      ensures Distinct(mOneshotQueue)
      ensures Entries(mOneshotQueue) == Insert(old(Entries(mOneshotQueue)), event, requiredTicks, 0)
    {
      var i, sumDelay := FindLater(requiredTicks, event);
      k := i;
      if i < |mOneshotQueue| {
        EnqueueBefore(event, requiredTicks, i, sumDelay);
      } else {
        InsertEnd(Entries(mOneshotQueue), event, requiredTicks, sumDelay);
        Append(event, Wrap(requiredTicks - sumDelay));
      }
    }

    /** The walk has stopped at a later event. */
    method EnqueueBefore(event: TimerEvent, requiredTicks: nat, i: nat, sumDelay: nat)
      requires Distinct(mOneshotQueue) && event !in mOneshotQueue && i < |mOneshotQueue|
      requires requiredTicks < Wrap(sumDelay + mOneshotQueue[i].mRemainingTicks)
      requires var q := Entries(mOneshotQueue);
               Insert(q, event, requiredTicks, 0) == q[..i] + Insert(q[i..], event, requiredTicks, sumDelay)
      modifies `mOneshotQueue, mOneshotQueue`mRemainingTicks, event`mRemainingTicks
      ensures mOneshotQueue == InsertAt(old(mOneshotQueue), i, event) && Distinct(mOneshotQueue)
      ensures Entries(mOneshotQueue) == Insert(old(Entries(mOneshotQueue)), event, requiredTicks, 0)
    {
      InsertFound(Entries(mOneshotQueue), i, event, requiredTicks, sumDelay);
      var compEvent := mOneshotQueue[i];
      LinkBefore(event, compEvent, Remaining(requiredTicks, sumDelay, compEvent.mRemainingTicks), i);
    }

    method Append(event: TimerEvent, remaining: nat)
      requires Distinct(mOneshotQueue) && event !in mOneshotQueue
      modifies `mOneshotQueue, event`mRemainingTicks
      ensures mOneshotQueue == InsertAt(old(mOneshotQueue), |old(mOneshotQueue)|, event) && Distinct(mOneshotQueue)
      ensures Entries(mOneshotQueue) == old(Entries(mOneshotQueue)) + [Entry(event, remaining)]
    {
      event.mRemainingTicks := remaining;
      SnocStaysDistinct(mOneshotQueue, event);
      mOneshotQueue := mOneshotQueue + [event];
    }

    /** Takes the new event's ticks out of its successor's and puts it in front of it. */
    method LinkBefore(event: TimerEvent, compEvent: TimerEvent, remaining: nat, i: nat)
      requires Distinct(mOneshotQueue) && event !in mOneshotQueue
      requires i < |mOneshotQueue| && mOneshotQueue[i] == compEvent
      modifies `mOneshotQueue, compEvent`mRemainingTicks, event`mRemainingTicks
      ensures mOneshotQueue == InsertAt(old(mOneshotQueue), i, event) && Distinct(mOneshotQueue)
      ensures var q := old(Entries(mOneshotQueue));
              Entries(mOneshotQueue)
              == q[..i] + ([Entry(event, remaining), Entry(compEvent, Wrap(q[i].ticks - remaining))] + q[i + 1..])
    {
      event.mRemainingTicks := remaining;
      compEvent.mRemainingTicks := Wrap(compEvent.mRemainingTicks - event.mRemainingTicks);
      DistinctInsertAt(mOneshotQueue, i, event);
      mOneshotQueue := InsertAt(mOneshotQueue, i, event);
    }

    /** Requires a queued event: the source follows the found element without a check. */
    method CancelOneshotTimerEvent(event: TimerEvent, ghost k: nat)
      requires Valid() && k < |mOneshotQueue| && mOneshotQueue[k] == event
      modifies this, mOneshotQueue`mRemainingTicks, event`mSubscribers
      ensures Valid() && event.mSubscribers == []
      ensures Entries(mOneshotQueue) == Cancel(old(Entries(mOneshotQueue)), k)
      ensures mOneshotEventPool == old(mOneshotEventPool) + [event]
      ensures mPeriodicQueue == old(mPeriodicQueue) && mPeriodicEventPool == old(mPeriodicEventPool)
      ensures mTicks == old(mTicks)
    {
      ghost var q := Entries(mOneshotQueue);
      var i := 0;
      while mOneshotQueue[i] != event
        invariant 0 <= i <= k
        decreases k - i
      {
        i := i + 1;
      }
      if i + 1 < |mOneshotQueue| {
        var nextEvent := mOneshotQueue[i + 1];
        nextEvent.mRemainingTicks := Wrap(nextEvent.mRemainingTicks + event.mRemainingTicks);
      }
      DistinctWithout(mOneshotQueue, i);
      SnocStaysDistinct(mOneshotEventPool, event);
      mOneshotQueue := Without(mOneshotQueue, i);
      event.mSubscribers := [];
      mOneshotEventPool := mOneshotEventPool + [event];
      assert Entries(mOneshotQueue) == Cancel(q, k);
    }

    method ReturnOneshotEventToPool(event: TimerEvent)
      requires Valid()
      requires event !in mOneshotQueue && event !in mPeriodicQueue && event !in mOneshotEventPool && event !in mPeriodicEventPool
      modifies `mOneshotEventPool, event`mSubscribers
      ensures Valid() && mOneshotEventPool == old(mOneshotEventPool) + [event] && event.mSubscribers == []
    {
      event.mSubscribers := [];
      SnocStaysDistinct(mOneshotEventPool, event);
      mOneshotEventPool := mOneshotEventPool + [event];
    }

    method SetPeriodicEvent(trigger: Trigger, interval: nat) returns (event: TimerEvent?)
      requires Valid()
      modifies this, mPeriodicEventPool
      ensures Valid()
      ensures old(mPeriodicEventPool) == [] ==> event == null && mPeriodicQueue == old(mPeriodicQueue)
      ensures old(mPeriodicEventPool) != [] ==>
                && event == old(mPeriodicEventPool)[0] && mPeriodicEventPool == old(mPeriodicEventPool)[1..]
                && mPeriodicQueue == old(mPeriodicQueue) + [event]
                && (event.mRemainingTicks, 0) == PeriodicAfter(event.mInterval, 0)
                && event.mInterval == interval / mTimerInterval
                && event.mSubscribers == old(mPeriodicEventPool[0].mSubscribers) + [trigger]
                && forall e :: e in mPeriodicEventPool ==> e.mSubscribers == old(e.mSubscribers)
      ensures mOneshotQueue == old(mOneshotQueue) && mOneshotEventPool == old(mOneshotEventPool) && mTicks == old(mTicks)
    {
      if |mPeriodicEventPool| == 0 {
        return null;
      }
      event := mPeriodicEventPool[0];
      SuffixStaysDistinct(mPeriodicEventPool, 1);
      SnocStaysDistinct(mPeriodicQueue, event);
      mPeriodicEventPool := mPeriodicEventPool[1..];
      event.mInterval := interval / mTimerInterval;
      event.mRemainingTicks := event.mInterval;
      event.mSubscribers := event.mSubscribers + [trigger];
      mPeriodicQueue := mPeriodicQueue + [event];
    }

    /** One tick: the fired events, one-shots first, in the order eventTriggered is called. */
    method HandleTick() returns (fired: seq<TimerEvent>)
      requires Valid()
      modifies this, mOneshotQueue`mRemainingTicks, mPeriodicQueue`mRemainingTicks
      ensures Valid()
      ensures fired == Fired(old(Entries(mOneshotQueue))) + PeriodicFired(old(Entries(mPeriodicQueue)))
      ensures Entries(mOneshotQueue) == Tick(old(Entries(mOneshotQueue)))
      ensures mPeriodicQueue == old(mPeriodicQueue)
      ensures forall e :: e in mPeriodicQueue ==>
                e.mInterval == old(e.mInterval) && e.mRemainingTicks == PeriodicTicks(old(e.mRemainingTicks), e.mInterval)
      ensures mOneshotEventPool == old(mOneshotEventPool) && mPeriodicEventPool == old(mPeriodicEventPool)
      ensures mTicks == old(mTicks) + 1
    {
      var oneshots, n := TickOneshots();
      DropKeepsSeparate(old(mOneshotQueue), mPeriodicQueue, mOneshotEventPool, mPeriodicEventPool, n);
      label oneshotsDone:
      assert forall i :: 0 <= i < |mPeriodicQueue| ==> mPeriodicQueue[i] !in old(mOneshotQueue);
      assert Entries(mPeriodicQueue) == old(Entries(mPeriodicQueue));
      var periodics := TickPeriodics();
      assert forall i :: 0 <= i < |mOneshotQueue| ==> mOneshotQueue[i] !in mPeriodicQueue;
      assert Entries(mOneshotQueue) == old@oneshotsDone(Entries(mOneshotQueue));
      mTicks := mTicks + 1;
      fired := oneshots + periodics;
    }

    method TickOneshots() returns (fired: seq<TimerEvent>, ghost n: nat)
      requires Distinct(mOneshotQueue)
      modifies `mOneshotQueue, mOneshotQueue`mRemainingTicks
      ensures n <= |old(mOneshotQueue)| && mOneshotQueue == old(mOneshotQueue)[n..]
      ensures fired == Fired(old(Entries(mOneshotQueue)))
      ensures Entries(mOneshotQueue) == Tick(old(Entries(mOneshotQueue)))
    {
      fired, n := [], 0;
      if |mOneshotQueue| != 0 {
        ghost var counted := CountDown(Entries(mOneshotQueue));
        var event := mOneshotQueue[0];
        event.mRemainingTicks := Wrap(event.mRemainingTicks - 1);
        assert Entries(mOneshotQueue) == counted;
        fired, n := TakeExpired();
      }
    }

    /** Takes the events without remaining ticks off the head of the queue.  (The source checks the
        head once before its loop and then on every turn of the loop.) */
    method TakeExpired() returns (fired: seq<TimerEvent>, ghost n: nat)
      modifies `mOneshotQueue
      ensures n <= |old(mOneshotQueue)| && mOneshotQueue == old(mOneshotQueue)[n..]
      ensures fired == Expired(old(Entries(mOneshotQueue)))
      ensures Entries(mOneshotQueue) == Unexpired(old(Entries(mOneshotQueue)))
    {
      ghost var all, q := mOneshotQueue, Entries(mOneshotQueue);
      fired, n := [], 0;
      while |mOneshotQueue| != 0 && mOneshotQueue[0].mRemainingTicks == 0
        invariant 0 <= n <= |all| && mOneshotQueue == all[n..]
        invariant Expired(q) == fired + Expired(q[n..])
        invariant Unexpired(q) == Unexpired(q[n..])
        decreases |mOneshotQueue|
      {
        var event := mOneshotQueue[0];
        ExpiredStep(q, n);
        mOneshotQueue := mOneshotQueue[1..];
        fired := fired + [event];
        n := n + 1;
      }
      assert Entries(mOneshotQueue) == q[n..];
    }

    method TickPeriodics() returns (fired: seq<TimerEvent>)
      requires Distinct(mPeriodicQueue)
      modifies mPeriodicQueue`mRemainingTicks
      ensures fired == PeriodicFired(old(Entries(mPeriodicQueue)))
      ensures forall e :: e in mPeriodicQueue ==>
                e.mInterval == old(e.mInterval) && e.mRemainingTicks == PeriodicTicks(old(e.mRemainingTicks), e.mInterval)
    {
      ghost var q := Entries(mPeriodicQueue);
      fired := [];
      for i := 0 to |mPeriodicQueue|
        invariant fired == PeriodicFired(q[..i])
        invariant forall j :: 0 <= j < |q| ==>
                    var e := mPeriodicQueue[j];
                    && e.mInterval == old(e.mInterval)
                    && e.mRemainingTicks == if j < i then PeriodicTicks(q[j].ticks, e.mInterval) else q[j].ticks
      {
        assert q[..i + 1] == q[..i] + [q[i]];
        PeriodicFiredSnoc(q[..i], q[i]);
        var event := mPeriodicQueue[i];
        event.mRemainingTicks := Wrap(event.mRemainingTicks - 1);
        if event.mRemainingTicks == 0 {
          fired := fired + [event];
          event.mRemainingTicks := event.mInterval;
        }
      }
      assert q[..|q|] == q;
    }
  }
}
