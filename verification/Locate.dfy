/** Finding the range of a key by bisection. */
module Locate {
  import opened Wrappers
  import opened Text
  import opened RangePartition

  /** The whole window lies before the key. */
  predicate Before(r: PlannedRange, key: string) { r.stopAt.Some? && Less(r.stopAt.value, key) }

  /** The first window in [lo, hi) that is not before the key, found by halving. */
  function PartitionPoint(ranges: seq<PlannedRange>, key: string, lo: nat, hi: nat): (i: nat)
    requires lo <= hi <= |ranges|
    ensures lo <= i <= hi
    decreases hi - lo
  {
    if lo == hi then lo
    else
      var mid := (lo + hi) / 2;
      if Before(ranges[mid], key) then PartitionPoint(ranges, key, mid + 1, hi)
      else PartitionPoint(ranges, key, lo, mid)
  }

  function Find(ranges: seq<PlannedRange>, key: string): Option<nat> {
    var i := PartitionPoint(ranges, key, 0, |ranges|);
    if i == |ranges| then None
    else if ranges[i].startAfter.Some? && AtMost(key, ranges[i].startAfter.value) then None
    else Some(i)
  }

  lemma {:induction false} BeforeMono(ranges: seq<PlannedRange>, key: string, i: nat, j: nat)
    requires Contiguous(ranges) && i <= j < |ranges| && Before(ranges[j], key)
    ensures Before(ranges[i], key)
  {
    if i < j {
      StopsAscend(ranges, i, j);
      LessTransitive(ranges[i].stopAt.value, ranges[j].stopAt.value, key);
    }
  }

  lemma {:induction false} PartitionPointIs(ranges: seq<PlannedRange>, key: string, lo: nat, hi: nat)
    requires lo <= hi <= |ranges|
    requires lo > 0 ==> Before(ranges[lo - 1], key)
    requires hi < |ranges| ==> !Before(ranges[hi], key)
    ensures var i := PartitionPoint(ranges, key, lo, hi);
            (i > 0 ==> Before(ranges[i - 1], key)) && (i < |ranges| ==> !Before(ranges[i], key))
    decreases hi - lo
  {
    if lo < hi {
      var mid := (lo + hi) / 2;
      assert lo <= mid < hi;
      if Before(ranges[mid], key) {
        PartitionPointIs(ranges, key, mid + 1, hi);
      } else {
        PartitionPointIs(ranges, key, lo, mid);
      }
    }
  }

  /** The search answers `i` exactly when the key is in window `i`; so nothing
      is answered exactly for keys in no window. */
  lemma {:induction false} FindIff(ranges: seq<PlannedRange>, key: string, i: nat)
    requires Contiguous(ranges)
    ensures Find(ranges, key) == Some(i) <==> i < |ranges| && Holds(ranges[i], key)
  {
    var p := PartitionPoint(ranges, key, 0, |ranges|);
    PartitionPointIs(ranges, key, 0, |ranges|);
    if i < |ranges| && Holds(ranges[i], key) {
      HeldIsBoundary(ranges, key, i, p);
      if ranges[i].startAfter.Some? { LessTotal(key, ranges[i].startAfter.value); }
    }
    if p < |ranges| {
      if ranges[p].stopAt.Some? { LessTotal(key, ranges[p].stopAt.value); }
      if ranges[p].startAfter.Some? { LessTotal(key, ranges[p].startAfter.value); }
    }
  }

  lemma {:induction false} HeldIsBoundary(ranges: seq<PlannedRange>, key: string, i: nat, p: nat)
    requires Contiguous(ranges) && i < |ranges| && Holds(ranges[i], key) && p <= |ranges|
    requires (p > 0 ==> Before(ranges[p - 1], key)) && (p < |ranges| ==> !Before(ranges[p], key))
    ensures p == i
  {
    if ranges[i].stopAt.Some? { LessTotal(key, ranges[i].stopAt.value); }
    if p > i { BeforeMono(ranges, key, i, p - 1); }
    if p < i {
      StopsAscend(ranges, p, i);
      if ranges[p].stopAt.value != ranges[i].startAfter.value {
        LessTransitive(ranges[p].stopAt.value, ranges[i].startAfter.value, key);
      }
    }
  }
}
