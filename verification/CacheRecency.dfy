/** How recently the way that getLRUWay gives away was used, over any lookups, records and releases of any
    CPUs from start-up on. */
module CacheRecency {
  import opened CacheWays

  datatype History = History(
    rows: seq<CacheWay>,
    searches: nat,         // lookups so far that found nothing recorded
    released: seq<nat>     // per way: the searches at its last release
  )

  /** getLRUWay returns way `way`. */
  ghost predicate Look(h: History, h': History, dataStart: nat, way: nat)
  {
    && dataStart > 0 && way < |h.rows| && Looked(h.rows, h'.rows, dataStart, way)
    && h'.searches == (if Records(h.rows, way, dataStart) then h.searches else h.searches + 1)
    && h'.released == h.released
  }

  /** The CPU that got the way from getLRUWay, and so has it in use, records its chunk there. */
  ghost predicate Record(h: History, h': History, osc: nat, c: Range, way: nat)
  {
    && c.start > 0 && way < |h.rows| && h.rows[way].inUse && !h.rows[way].permanentLocked
    && h' == h.(rows := h.rows[way := Recorded(h.rows[way], osc, c)])
  }

  /** lookupAndEvictOSC frees the ways of a component. */
  ghost predicate Release(h: History, h': History, osc: nat, start: nat, end: nat, evictAfterUse: bool)
  {
    && start > 0 && |h'.rows| == |h'.released| == |h.rows| == |h.released| && h'.searches == h.searches
    && forall w :: 0 <= w < |h.rows| ==>
         && h'.rows[w] == Released(h.rows[w], osc, start, end, evictAfterUse)
         && h'.released[w] == if BelongsTo(h.rows[w], osc, start, end) then h.searches else h.released[w]
  }

  datatype Op =
    | DoLook(dataStart: nat, way: nat)
    | DoRecord(osc: nat, c: Range, way: nat)
    | DoRelease(osc: nat, start: nat, end: nat)

  ghost predicate Does(h: History, h': History, op: Op, evictAfterUse: bool)
  {
    match op
    case DoLook(dataStart, way) => Look(h, h', dataStart, way)
    case DoRecord(osc, c, way) => Record(h, h', osc, c, way)
    case DoRelease(osc, start, end) => Release(h, h', osc, start, end, evictAfterUse)
  }

  /** At start-up every way is empty and unused; some are locked for critical data. */
  ghost predicate Start(h: History)
  {
    |h.released| == |h.rows| && forall w :: 0 <= w < |h.rows| ==> h.rows[w].dataStart == 0 && !h.rows[w].inUse
  }

  ghost predicate IsRun(run: seq<History>, ops: seq<Op>, evictAfterUse: bool)
  {
    && |run| == |ops| + 1 && Start(run[0])
    && forall i :: 0 <= i < |ops| ==> Does(run[i], run[i + 1], ops[i], evictAfterUse)
  }

  predicate Empty(w: CacheWay) {
    Eligible(w) && w.dataStart == 0
  }

  // ----- the records stay -----

  /** Behind a way that is empty and free to take, every unlocked way is so, too. */
  ghost predicate NoGap(h: History)
  {
    forall w, x :: 0 <= w < x < |h.rows| && Empty(h.rows[w]) && !h.rows[x].permanentLocked ==> Empty(h.rows[x])
  }

  /** The count of a way that could be given away and is not empty is the number of searches since its
      release, up to the maximum. */
  ghost predicate Counts(h: History)
  {
    && |h.released| == |h.rows|
    && forall w :: 0 <= w < |h.rows| && Eligible(h.rows[w]) && h.rows[w].dataStart != 0 ==>
         && h.released[w] <= h.searches
         && h.rows[w].lruCount == if h.searches - h.released[w] < LRU_MAX_VALUE then h.searches - h.released[w] else LRU_MAX_VALUE
  }

  lemma {:induction false} LookKeepsOrder(h: History, h': History, dataStart: nat, way: nat)
    requires NoGap(h) && Counts(h) && Look(h, h', dataStart, way)
    ensures NoGap(h') && Counts(h')
  {
    if !Records(h.rows, way, dataStart) {
      forall w | 0 <= w < |h.rows| && Eligible(h.rows[w]) && h.rows[w].dataStart != 0 && w != way
        ensures w < Passed(h.rows, way)
      {
        if Empty(h.rows[way]) && way < w {
          assert false;
        }
      }
    }
  }

  lemma {:induction false} OthersKeepOrder(h: History, h': History, op: Op)
    requires NoGap(h) && Counts(h) && Does(h, h', op, false) && !op.DoLook?
    ensures NoGap(h') && Counts(h')
  {
  }

  /** Without eviction after use, ways are never emptied, and searches fill them from the front. */
  lemma {:induction false} RunKeepsOrder(run: seq<History>, ops: seq<Op>, k: nat)
    requires IsRun(run, ops, false) && k < |run|
    ensures NoGap(run[k]) && Counts(run[k])
  {
    if k > 0 {
      RunKeepsOrder(run, ops, k - 1);
      assert Does(run[k - 1], run[k - 1 + 1], ops[k - 1], false);
      match ops[k - 1]
      case DoLook(dataStart, way) => LookKeepsOrder(run[k - 1], run[k], dataStart, way);
      case _ => OthersKeepOrder(run[k - 1], run[k], ops[k - 1]);
    }
  }

  // ----- the records go -----

  lemma {:induction false} RunKeepsEmpty(run: seq<History>, ops: seq<Op>, k: nat)
    requires IsRun(run, ops, true) && k < |run|
    ensures forall w :: 0 <= w < |run[k].rows| && Eligible(run[k].rows[w]) ==> run[k].rows[w].dataStart == 0
  {
    if k > 0 {
      RunKeepsEmpty(run, ops, k - 1);
      assert Does(run[k - 1], run[k - 1 + 1], ops[k - 1], true);
    }
  }

  /** On no run does a way that could be given away and is not empty stand behind one that is: a search that
      stops at an empty way has passed all the ways whose age counts. */
  lemma {:induction false} NothingBehindEmpty(run: seq<History>, ops: seq<Op>, evictAfterUse: bool, k: nat, w: nat, x: nat)
    requires IsRun(run, ops, evictAfterUse) && k < |run| && w < x < |run[k].rows|
    requires Empty(run[k].rows[w]) && Eligible(run[k].rows[x])
    ensures run[k].rows[x].dataStart == 0
  {
    if evictAfterUse {
      RunKeepsEmpty(run, ops, k);
    } else {
      RunKeepsOrder(run, ops, k);
    }
  }

  // ----- the victim -----

  /** On every run from start-up: the way given away is empty, or it was released no later than every other
      way that could be given away, or at least 255 searches ago, when the counts no longer tell.  With
      eviction after use it is always empty. */
  lemma {:induction false} VictimIsLeastRecent(run: seq<History>, ops: seq<Op>, evictAfterUse: bool, k: nat, w: nat)
    requires IsRun(run, ops, evictAfterUse) && k < |ops| && ops[k].DoLook? && w < |run[k].rows| && Eligible(run[k].rows[w])
    requires !Records(run[k].rows, ops[k].way, ops[k].dataStart)
    ensures ops[k].way < |run[k].rows|
    ensures evictAfterUse ==> run[k].rows[ops[k].way].dataStart == 0
    ensures run[k].rows[ops[k].way].dataStart != 0 ==>
              && |run[k].released| == |run[k].rows|
              && (run[k].released[ops[k].way] <= run[k].released[w]
                  || run[k].released[ops[k].way] + LRU_MAX_VALUE <= run[k].searches)
  {
    assert Does(run[k], run[k + 1], ops[k], evictAfterUse);
    if evictAfterUse {
      RunKeepsEmpty(run, ops, k);
    } else {
      RunKeepsOrder(run, ops, k);
    }
  }
}
