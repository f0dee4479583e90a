/** Pigeonhole facts about distinct numbers below a bound. */
module Counting {

  lemma {:induction false} DistinctBelow(ts: seq<nat>, n: nat)
    requires forall i :: 0 <= i < |ts| ==> ts[i] < n
    requires forall i, j :: 0 <= i < j < |ts| ==> ts[i] != ts[j]
    ensures |ts| <= n
    decreases n
  {
    if |ts| > 0 {
      assert ts[0] < n;
      if n - 1 in ts {
        var k :| 0 <= k < |ts| && ts[k] == n - 1;
        DistinctBelow(ts[..k] + ts[k + 1..], n - 1);
      } else {
        DistinctBelow(ts, n - 1);
      }
    }
  }

  /** n distinct numbers below n leave none out. */
  lemma {:induction false} DistinctCovers(ts: seq<nat>, n: nat, x: nat)
    requires |ts| == n && x < n
    requires forall i :: 0 <= i < |ts| ==> ts[i] < n
    requires forall i, j :: 0 <= i < j < |ts| ==> ts[i] != ts[j]
    ensures x in ts
  {
    if x !in ts {
      DistinctBelow(ts + [x], n);
    }
  }

  /** A subset of {0, .., n-1} has at most n members, and n exactly when nobody is missing. */
  lemma {:induction false} Below(ts: set<nat>, n: nat)
    requires forall t :: t in ts ==> t < n
    ensures |ts| <= n
    ensures |ts| == n <==> forall t: nat :: t < n ==> t in ts
    decreases n
  {
    if n > 0 {
      if n - 1 in ts {
        assert ts == (ts - {n - 1}) + {n - 1};
        Below(ts - {n - 1}, n - 1);
      } else {
        Below(ts, n - 1);
      }
    }
  }
}
