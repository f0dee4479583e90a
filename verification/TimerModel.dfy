/** The queues of driver/GenericTimer.cc as values.

    The one-shot queue is delta encoded: an entry stores the ticks between its predecessor's expiry
    and its own.  All arithmetic is the source's, modulo 2^32.  `Schedule` decodes a queue into the
    number of ticks after which each event fires; the lemmas relate every operation to it.  */
module TimerModel {
  import opened IntrusiveQueue

  const WORDS: nat := 0x1_0000_0000

  function Wrap(x: int): (w: nat)
    ensures w < WORDS
    ensures 0 <= x < WORDS ==> w == x
  {
    x % WORDS
  }

  datatype Entry<E> = Entry(event: E, ticks: nat)
  datatype Due<E> = Due(event: E, at: nat)

  // ----- the operations -----

  /** setOneshotEvent: walk until the summed delays exceed the required ticks; `sum` is the delay of
      the entries already passed. */
  function Insert<E>(q: seq<Entry<E>>, event: E, required: nat, sum: nat): seq<Entry<E>> {
    if q == [] then [Entry(event, Wrap(required - sum))]
    else
      var sumDelay := Wrap(sum + q[0].ticks);
      if required < sumDelay then
        var remaining := Wrap(required - Wrap(sumDelay - q[0].ticks));
        [Entry(event, remaining), Entry(q[0].event, Wrap(q[0].ticks - remaining))] + q[1..]
      else [q[0]] + Insert(q[1..], event, required, sumDelay)
  }

  /** cancelOneshotTimerEvent for the entry at k: its successor inherits its ticks. */
  function Cancel<E>(q: seq<Entry<E>>, k: nat): seq<Entry<E>>
    requires k < |q|
  {
    if k + 1 == |q| then q[..k]
    else q[..k] + [Entry(q[k + 1].event, Wrap(q[k + 1].ticks + q[k].ticks))] + q[k + 2..]
  }

  function Expired<E>(q: seq<Entry<E>>): seq<E> {
    if q == [] || q[0].ticks != 0 then [] else [q[0].event] + Expired(q[1..])
  }

  function Unexpired<E>(q: seq<Entry<E>>): seq<Entry<E>> {
    if q == [] || q[0].ticks != 0 then q else Unexpired(q[1..])
  }

  function CountDown<E>(q: seq<Entry<E>>): seq<Entry<E>> {
    if q == [] then [] else [Entry(q[0].event, Wrap(q[0].ticks - 1))] + q[1..]
  }

  /** handleTick on the one-shot queue: the events it fires, and what is left. */
  function Fired<E>(q: seq<Entry<E>>): seq<E> {
    Expired(CountDown(q))
  }

  function Tick<E>(q: seq<Entry<E>>): seq<Entry<E>> {
    Unexpired(CountDown(q))
  }

  // ----- decoding -----

  function Dues<E>(q: seq<Entry<E>>, base: nat): (d: seq<Due<E>>)
    ensures |d| == |q|
  {
    if q == [] then [] else [Due(q[0].event, base + q[0].ticks)] + Dues(q[1..], base + q[0].ticks)
  }

  /** When each event fires, in ticks from now.  A head entry of 0 ticks is decremented past zero and
      only fires after a full turn of the 32-bit counter. */
  function Schedule<E>(q: seq<Entry<E>>): (d: seq<Due<E>>)
    ensures |d| == |q|
  {
    Dues(q, if q != [] && q[0].ticks == 0 then WORDS else 0)
  }

  function Total<E>(q: seq<Entry<E>>): nat {
    if q == [] then 0 else q[0].ticks + Total(q[1..])
  }

  /** The head has ticks to count and no partial sum leaves 32 bits. */
  ghost predicate Healthy<E>(q: seq<Entry<E>>)
  {
    (q != [] ==> q[0].ticks > 0) && Total(q) < WORDS
  }

  // ----- reference operations on schedules -----

  /** A new event goes behind all events that are due no later. */
  function InsertDue<E>(s: seq<Due<E>>, d: Due<E>): seq<Due<E>> {
    if s == [] || d.at < s[0].at then [d] + s else [s[0]] + InsertDue(s[1..], d)
  }

  function DueNow<E>(s: seq<Due<E>>): seq<E> {
    if s == [] then [] else (if s[0].at == 1 then [s[0].event] else []) + DueNow(s[1..])
  }

  function OneTickLater<E>(s: seq<Due<E>>): seq<Due<E>> {
    if s == [] then []
    else (if s[0].at <= 1 then [] else [Due(s[0].event, s[0].at - 1)]) + OneTickLater(s[1..])
  }

  // ----- set -----

  /** The new event goes in front of the first entry, which gives its ticks up. */
  lemma {:induction false} InsertDecodesHere<E>(q: seq<Entry<E>>, event: E, required: nat, sum: nat)
    requires q != [] && sum <= required < sum + q[0].ticks && sum + Total(q) < WORDS
    ensures Dues(Insert(q, event, required, sum), sum) == InsertDue(Dues(q, sum), Due(event, required))
    ensures sum + Total(Insert(q, event, required, sum)) == sum + Total(q)
  {
    var s := sum + q[0].ticks;
    var parted := [Entry(event, required - sum), Entry(q[0].event, s - required)] + q[1..];
    assert Insert(q, event, required, sum) == parted;
    assert parted[1..][0] == Entry(q[0].event, s - required) && parted[1..][1..] == q[1..];
  }

  /** The new event goes behind the first entry. */
  lemma {:induction false} InsertDecodesLater<E>(q: seq<Entry<E>>, event: E, required: nat, sum: nat)
    requires q != [] && sum + q[0].ticks <= required < WORDS && sum + Total(q) < WORDS
    ensures Insert(q, event, required, sum) == [q[0]] + Insert(q[1..], event, required, sum + q[0].ticks)
    ensures Dues(Insert(q, event, required, sum), sum)
            == [Due(q[0].event, sum + q[0].ticks)] + Dues(Insert(q[1..], event, required, sum + q[0].ticks), sum + q[0].ticks)
    ensures Total(Insert(q, event, required, sum)) == q[0].ticks + Total(Insert(q[1..], event, required, sum + q[0].ticks))
  {
    var rest := Insert(q[1..], event, required, sum + q[0].ticks);
    assert ([q[0]] + rest)[1..] == rest;
  }

  lemma {:induction false} InsertDecodes<E>(q: seq<Entry<E>>, event: E, required: nat, sum: nat)
    requires sum <= required < WORDS && sum + Total(q) < WORDS
    ensures Dues(Insert(q, event, required, sum), sum) == InsertDue(Dues(q, sum), Due(event, required))
    ensures sum + Total(Insert(q, event, required, sum)) == if sum + Total(q) > required then sum + Total(q) else required
  {
    if q != [] {
      if required < sum + q[0].ticks {
        InsertDecodesHere(q, event, required, sum);
      } else {
        InsertDecodes(q[1..], event, required, sum + q[0].ticks);
        InsertDecodesLater(q, event, required, sum);
      }
    }
  }

  /** On a healthy queue, a one-shot of at least one tick is scheduled exactly `required` ticks
      ahead, behind everything due by then, and changes nothing else.  With less than one tick it is
      not: the condition is exact. */
  lemma {:induction false} InsertIsExactFromOneTickOn<E>(q: seq<Entry<E>>, event: E, required: nat)
    requires Healthy(q) && required < WORDS
    ensures Schedule(Insert(q, event, required, 0)) == InsertDue(Schedule(q), Due(event, required)) <==> required >= 1
    ensures required >= 1 ==> Healthy(Insert(q, event, required, 0))
  {
    var i := Insert(q, event, required, 0);
    InsertDecodes(q, event, required, 0);
    if required == 0 {
      assert i[0] == Entry(event, 0);
      assert Schedule(i)[0] == Due(event, WORDS);
    }
  }

  // ----- cancel -----

  lemma {:induction false} CancelHead<E>(q: seq<Entry<E>>, base: nat)
    requires |q| > 0 && Total(q) < WORDS
    ensures Dues(Cancel(q, 0), base) == Dues(q, base)[1..]
    ensures Total(Cancel(q, 0)) <= Total(q)
  {
    if |q| > 1 {
      var c := Cancel(q, 0);
      assert q[1..][1..] == q[2..] && q[1..][0] == q[1] && c[1..] == q[2..];
      assert Total(q) == q[0].ticks + q[1].ticks + Total(q[2..]);
    }
  }

  lemma {:induction false} CancelTail<E>(q: seq<Entry<E>>, k: nat)
    requires 0 < k < |q|
    ensures Cancel(q, k) != [] && Cancel(q, k)[0] == q[0] && Cancel(q, k)[1..] == Cancel(q[1..], k - 1)
  {
    assert q[..k][1..] == q[1..][..k - 1];
    if k + 1 < |q| {
      assert q[1..][k + 1..] == q[k + 2..];
    }
  }

  lemma {:induction false} WithoutTail<X>(s: seq<X>, k: nat)
    requires 0 < k < |s|
    ensures Without(s, k) == [s[0]] + Without(s[1..], k - 1)
  {
  }

  lemma {:induction false} CancelDues<E>(q: seq<Entry<E>>, k: nat, base: nat)
    requires k < |q| && Total(q) < WORDS
    ensures Dues(Cancel(q, k), base) == Without(Dues(q, base), k)
    ensures Total(Cancel(q, k)) <= Total(q)
  {
    if k > 0 {
      CancelTail(q, k);
      CancelDues(q[1..], k - 1, base + q[0].ticks);
      WithoutTail(Dues(q, base), k);
    } else {
      CancelHead(q, base);
    }
  }

  /** Cancelling takes one event out of the schedule and leaves all others where they are. */
  lemma {:induction false} CancelDecodes<E>(q: seq<Entry<E>>, k: nat)
    requires Healthy(q) && k < |q|
    ensures Schedule(Cancel(q, k)) == Without(Schedule(q), k) && Healthy(Cancel(q, k))
  {
    CancelDues(q, k, 0);
    assert k == 0 && |q| > 1 ==> Total(q) == q[0].ticks + q[1].ticks + Total(q[1..][1..]);
  }

  // ----- tick -----

  lemma {:induction false} DuesFrom<E>(q: seq<Entry<E>>, base: nat)
    ensures forall i :: 0 <= i < |q| ==> Dues(q, base)[i].at >= base
    ensures base > 1 ==> DueNow(Dues(q, base)) == [] && OneTickLater(Dues(q, base)) == Dues(q, base - 1)
  {
    if q != [] {
      DuesFrom(q[1..], base + q[0].ticks);
    }
  }

  lemma {:induction false} ExpiredDecodes<E>(q: seq<Entry<E>>)
    ensures Expired(q) == DueNow(Dues(q, 1))
    ensures Dues(Unexpired(q), 0) == OneTickLater(Dues(q, 1))
    ensures Unexpired(q) != [] ==> Unexpired(q)[0].ticks > 0
    ensures Total(Unexpired(q)) == Total(q)
  {
    if q != [] {
      if q[0].ticks == 0 {
        ExpiredDecodes(q[1..]);
      } else {
        DuesFrom(q[1..], 1 + q[0].ticks);
      }
    }
  }

  /** A tick fires exactly the events due in one tick, in queue order, and brings every other event
      one tick nearer. */
  lemma {:induction false} TickDecodes<E>(q: seq<Entry<E>>)
    requires forall i :: 0 <= i < |q| ==> q[i].ticks < WORDS
    ensures Fired(q) == DueNow(Schedule(q))
    ensures Schedule(Tick(q)) == OneTickLater(Schedule(q))
    ensures Healthy(q) ==> Healthy(Tick(q))
  {
    if q != [] {
      var c := CountDown(q);
      assert c[1..] == q[1..];
      if q[0].ticks == 0 {
        assert c[0].ticks == WORDS - 1;
        DuesFrom(q, WORDS);
        assert Unexpired(c) == c;
        assert Dues(c, 0) == Dues(q, WORDS - 1);
      } else {
        assert Dues(c, 1) == Dues(q, 0);
        ExpiredDecodes(c);
      }
    }
  }
}
