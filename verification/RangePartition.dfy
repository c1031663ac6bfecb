/** The ranges of a plan partition the kept keys, and the copiers' own listings
    of their windows put the plan back together. */
module RangePartition {
  import opened Wrappers
  import opened Text
  import opened Listing
  import opened RangePlan

  /** One range of a plan, as the destination check sees it. */
  datatype PlannedRange = PlannedRange(startAfter: Option<string>, stopAt: Option<string>, files: nat, bytes: nat)

  function Planned(r: Range): PlannedRange { PlannedRange(r.startAfter, Some(r.stopAt), r.files, r.bytes) }

  function PlannedAll(ranges: seq<Range>): seq<PlannedRange> {
    if ranges == [] then [] else PlannedAll(ranges[..|ranges| - 1]) + [Planned(ranges[|ranges| - 1])]
  }

  lemma {:induction false} PlannedAt(ranges: seq<Range>)
    ensures |PlannedAll(ranges)| == |ranges|
    ensures forall i :: 0 <= i < |ranges| ==> PlannedAll(ranges)[i] == Planned(ranges[i])
  {
    if ranges != [] { PlannedAt(ranges[..|ranges| - 1]); }
  }

  predicate Holds(r: PlannedRange, key: string) { InWindow(key, r.startAfter, r.stopAt) }

  /** Windows in key order without gaps; only the last may have no upper bound. */
  ghost predicate Contiguous(ranges: seq<PlannedRange>) {
    && (forall i :: 0 <= i < |ranges| - 1 ==> ranges[i].stopAt.Some? && ranges[i + 1].startAfter == ranges[i].stopAt)
    && (forall i :: 0 <= i < |ranges| && ranges[i].startAfter.Some? && ranges[i].stopAt.Some? ==>
          Less(ranges[i].startAfter.value, ranges[i].stopAt.value))
  }

  /** Upper bounds ascend. */
  lemma {:induction false} StopsAscend(ranges: seq<PlannedRange>, i: nat, j: nat)
    requires Contiguous(ranges) && i < j < |ranges|
    ensures ranges[i].stopAt.Some? && (ranges[j].stopAt.Some? ==> Less(ranges[i].stopAt.value, ranges[j].stopAt.value))
    ensures ranges[j].startAfter.Some? && AtMost(ranges[i].stopAt.value, ranges[j].startAfter.value)
    decreases j - i
  {
    if i + 1 < j {
      StopsAscend(ranges, i, j - 1);
      assert ranges[j].startAfter == ranges[j - 1].stopAt;
    }
    if ranges[j].stopAt.Some? && ranges[i].stopAt.value != ranges[j].startAfter.value {
      LessTransitive(ranges[i].stopAt.value, ranges[j].startAfter.value, ranges[j].stopAt.value);
    }
  }

  /** No key at all lies in two windows. */
  lemma {:induction false} WindowsAreDisjoint(ranges: seq<PlannedRange>, key: string, i: nat, j: nat)
    requires Contiguous(ranges) && i < |ranges| && j < |ranges| && Holds(ranges[i], key) && Holds(ranges[j], key)
    ensures i == j
  {
    if i != j {
      var a, b := if i < j then i else j, if i < j then j else i;
      StopsAscend(ranges, a, b);
      LessTotal(key, ranges[a].stopAt.value);
      LessTotal(key, ranges[b].startAfter.value);
      if key != ranges[a].stopAt.value && ranges[a].stopAt.value != ranges[b].startAfter.value {
        LessTransitive(key, ranges[a].stopAt.value, ranges[b].startAfter.value);
      }
    }
  }

  lemma {:induction false} RangeAt(c: Config, objs: seq<Object>, ranges: seq<Range>, i: nat)
    requires PlanOf(c, objs, ranges) && i < |ranges|
    ensures RangeIs(c, objs, ranges, i) && Offset(ranges, i + 1) <= |objs|
    ensures i == |ranges| - 1 || Full(c, ranges[i].files, ranges[i].bytes)
  {
  }

  lemma {:induction false} PlanBounds(c: Config, objs: seq<Object>, ranges: seq<Range>, i: nat)
    requires PlanOf(c, objs, ranges) && i < |ranges|
    ensures var a, b := Offset(ranges, i), Offset(ranges, i + 1);
            && a < b <= |objs| && ranges[i].stopAt == objs[b - 1].key
            && ranges[i].startAfter == if a == 0 then None else Some(objs[a - 1].key)
  {
    assert RangeIs(c, objs, ranges, i);
    if i > 0 { assert RangeIs(c, objs, ranges, i - 1); }
  }

  /** The windows of a plan are contiguous and in key order. */
  lemma {:induction false} PlanIsContiguous(c: Config, objs: seq<Object>, ranges: seq<Range>)
    requires PlanOf(c, objs, ranges) && Ascending(objs)
    ensures Contiguous(PlannedAll(ranges)) && (ranges != [] ==> ranges[0].startAfter == None)
  {
    PlannedAt(ranges);
    var rs := PlannedAll(ranges);
    forall i | 0 <= i < |rs| - 1 ensures rs[i].stopAt.Some? && rs[i + 1].startAfter == rs[i].stopAt {
      PlanBounds(c, objs, ranges, i);
      PlanBounds(c, objs, ranges, i + 1);
    }
    forall i | 0 <= i < |rs| && rs[i].startAfter.Some? && rs[i].stopAt.Some?
      ensures Less(rs[i].startAfter.value, rs[i].stopAt.value)
    {
      PlanBounds(c, objs, ranges, i);
    }
    if ranges != [] { PlanBounds(c, objs, ranges, 0); }
  }

  /** A kept key lies in the window of the range that counted it, and in no
      other. */
  lemma {:induction false} EachKeyHasOneRange(c: Config, objs: seq<Object>, ranges: seq<Range>, k: nat, i: nat)
    requires PlanOf(c, objs, ranges) && Ascending(objs) && k < |objs| && i < |ranges|
    ensures Holds(Planned(ranges[i]), objs[k].key) <==> Offset(ranges, i) <= k < Offset(ranges, i + 1)
  {
    PlanBounds(c, objs, ranges, i);
    WindowBetween(objs, Offset(ranges, i), Offset(ranges, i + 1));
  }

  lemma {:induction false} SomeRangeCounts(ranges: seq<Range>, n: nat, k: nat) returns (i: nat)
    requires n <= |ranges| && k < Offset(ranges, n)
    ensures i < n && Offset(ranges, i) <= k < Offset(ranges, i + 1)
  {
    if k >= Offset(ranges, n - 1) { i := n - 1; } else { i := SomeRangeCounts(ranges, n - 1, k); }
  }

  /** Every kept key lies in exactly one window. */
  lemma {:induction false} EveryKeyIsCovered(c: Config, objs: seq<Object>, ranges: seq<Range>, k: nat)
    requires PlanOf(c, objs, ranges) && Ascending(objs) && k < |objs|
    ensures exists i :: 0 <= i < |ranges| && Holds(Planned(ranges[i]), objs[k].key)
    ensures forall i, j ::
      && 0 <= i < |ranges| && 0 <= j < |ranges|
      && Holds(Planned(ranges[i]), objs[k].key) && Holds(Planned(ranges[j]), objs[k].key)
      ==> i == j
  {
    var at := SomeRangeCounts(ranges, |ranges|, k);
    EachKeyHasOneRange(c, objs, ranges, k, at);
    PlanIsContiguous(c, objs, ranges);
    PlannedAt(ranges);
    forall i, j | 0 <= i < |ranges| && 0 <= j < |ranges| &&
                  Holds(Planned(ranges[i]), objs[k].key) && Holds(Planned(ranges[j]), objs[k].key)
      ensures i == j
    {
      WindowsAreDisjoint(PlannedAll(ranges), objs[k].key, i, j);
    }
  }

  /** What a copier lists of the whole source `all`, in any pages: after its
      lower bound, up to its upper bound, kept by the shared rule. */
  function CopierList(s: Scope, all: seq<Object>, r: PlannedRange): seq<Object> {
    KeptOf(s, UpTo(Window(all, r.startAfter, None), r.stopAt))
  }

  lemma {:induction false} CopierListIsWindow(s: Scope, all: seq<Object>, r: PlannedRange)
    requires Ascending(all)
    ensures CopierList(s, all, r) == Window(KeptOf(s, all), r.startAfter, r.stopAt)
  {
    UpToIsWindow(all, r.startAfter, r.stopAt);
    WindowKeeps(s, all, r.startAfter, r.stopAt);
  }

  /** A copier's filtered listing of its window is the very slice the planner
      counted for it: as many files, and their bytes, exactly as recorded. Keys
      the planner left out, because of the rule or of the limit, are in none. */
  lemma {:induction false} CopierListsItsSlice(c: Config, s: Scope, all: seq<Object>, objs: seq<Object>,
                                               ranges: seq<Range>, i: nat)
    requires Ascending(all) && objs <= KeptOf(s, all) && PlanOf(c, objs, ranges) && i < |ranges|
    ensures var mine := CopierList(s, all, Planned(ranges[i]));
            && Offset(ranges, i) <= Offset(ranges, i + 1) <= |objs|
            && mine == objs[Offset(ranges, i)..Offset(ranges, i + 1)]
            && ranges[i].files == |mine|
            && ranges[i].bytes == (if Total(mine) > U64_MAX then U64_MAX else Total(mine))
  {
    PlanBounds(c, objs, ranges, i);
    RangeAt(c, objs, ranges, i);
    SliceIsListed(s, all, objs, Planned(ranges[i]), Offset(ranges, i), Offset(ranges, i + 1));
    SatTotalIs(objs[Offset(ranges, i)..Offset(ranges, i + 1)]);
  }

  lemma {:induction false} SliceOfPrefix(kept: seq<Object>, objs: seq<Object>, a: nat, b: nat)
    requires objs <= kept && a < b <= |objs|
    ensures kept[a..b] == objs[a..b] && kept[b - 1] == objs[b - 1] && (a > 0 ==> kept[a - 1] == objs[a - 1])
  {
  }

  lemma {:induction false} SliceIsListed(s: Scope, all: seq<Object>, objs: seq<Object>, r: PlannedRange, a: nat, b: nat)
    requires Ascending(all) && objs <= KeptOf(s, all) && a < b <= |objs|
    requires r.stopAt == Some(objs[b - 1].key) && r.startAfter == (if a == 0 then None else Some(objs[a - 1].key))
    ensures CopierList(s, all, r) == objs[a..b]
  {
    var kept := KeptOf(s, all);
    KeptAscends(s, all);
    WindowBetween(kept, a, b);
    CopierListIsWindow(s, all, r);
    SliceOfPrefix(kept, objs, a, b);
  }

  lemma {:induction false} Joined(objs: seq<Object>, a: nat, b: nat)
    requires a <= b <= |objs|
    ensures objs[..a] + objs[a..b] == objs[..b]
  {
  }

  function CopierLists(s: Scope, all: seq<Object>, ranges: seq<Range>, n: nat): seq<Object>
    requires n <= |ranges|
  {
    if n == 0 then [] else CopierLists(s, all, ranges, n - 1) + CopierList(s, all, Planned(ranges[n - 1]))
  }

  ghost predicate ListsItsSlice(s: Scope, all: seq<Object>, objs: seq<Object>, ranges: seq<Range>, i: nat)
    requires i < |ranges|
  {
    && Offset(ranges, i) <= Offset(ranges, i + 1) <= |objs|
    && CopierList(s, all, Planned(ranges[i])) == objs[Offset(ranges, i)..Offset(ranges, i + 1)]
  }

  lemma {:induction false} SlicesJoin(s: Scope, all: seq<Object>, objs: seq<Object>, ranges: seq<Range>, n: nat)
    requires n <= |ranges| && forall i :: 0 <= i < n ==> ListsItsSlice(s, all, objs, ranges, i)
    ensures Offset(ranges, n) <= |objs| && CopierLists(s, all, ranges, n) == objs[..Offset(ranges, n)]
  {
    if n > 0 {
      SlicesJoin(s, all, objs, ranges, n - 1);
      assert ListsItsSlice(s, all, objs, ranges, n - 1);
      Joined(objs, Offset(ranges, n - 1), Offset(ranges, n));
    }
  }

  /** The copiers' listings, put together in range order, are the plan: every
      planned object once, in key order, and nothing else. */
  lemma {:induction false} CopiersRebuildThePlan(c: Config, s: Scope, all: seq<Object>, objs: seq<Object>,
                                                 ranges: seq<Range>, n: nat)
    requires Ascending(all) && objs <= KeptOf(s, all) && PlanOf(c, objs, ranges) && n <= |ranges|
    ensures Offset(ranges, n) <= |objs| && CopierLists(s, all, ranges, n) == objs[..Offset(ranges, n)]
    ensures n == |ranges| ==> CopierLists(s, all, ranges, n) == objs
  {
    forall i | 0 <= i < n ensures ListsItsSlice(s, all, objs, ranges, i) {
      CopierListsItsSlice(c, s, all, objs, ranges, i);
    }
    SlicesJoin(s, all, objs, ranges, n);
    if n == |ranges| { assert objs[..|objs|] == objs; }
  }

  // ----- how full the ranges are -----

  lemma {:induction false} SatTotalMono(objs: seq<Object>, m: nat, n: nat)
    requires m <= n <= |objs|
    ensures SatTotal(objs[..m]) <= SatTotal(objs[..n])
  {
    if m < n {
      SatTotalMono(objs, m, n - 1);
      assert objs[..n][..n - 1] == objs[..n - 1];
    }
  }

  /** A range has at most `range_keys` files, and less than `range_bytes` before
      its last one; a range that is not the last reaches one of the two; with
      no limits there is one range. */
  lemma {:induction false} RangesAreBalanced(c: Config, objs: seq<Object>, ranges: seq<Range>, i: nat)
    requires PlanOf(c, objs, ranges) && i < |ranges|
    ensures c.rangeKeys > 0 ==> ranges[i].files <= c.rangeKeys
    ensures var a, b := Offset(ranges, i), Offset(ranges, i + 1);
            a < b <= |objs| && (c.rangeBytes > 0 ==> Total(objs[a..b - 1]) < c.rangeBytes)
    ensures i + 1 < |ranges| ==>
              || (c.rangeKeys > 0 && ranges[i].files == c.rangeKeys)
              || (c.rangeBytes > 0 && Total(objs[Offset(ranges, i)..Offset(ranges, i + 1)]) >= c.rangeBytes)
    ensures c.rangeKeys == c.rangeBytes == 0 ==> |ranges| == 1
  {
    RangeAt(c, objs, ranges, i);
    var a, b := Offset(ranges, i), Offset(ranges, i + 1);
    SatTotalIs(objs[a..b - 1]);
    SatTotalIs(objs[a..b]);
    if |ranges| > 1 { assert Full(c, ranges[0].files, ranges[0].bytes); }
  }

  /** The objects of at most 16 MiB among those from `a` to before `b`. */
  ghost function SmallOnes(objs: seq<Object>, a: nat, b: nat): set<nat>
    requires b <= |objs|
  {
    set k: nat | a <= k < b && objs[k].size <= 16777216
  }

  lemma {:induction false} SmallFilesIs(objs: seq<Object>, a: nat, b: nat)
    requires a <= b <= |objs|
    ensures SmallFiles(objs[a..b]) == |SmallOnes(objs, a, b)|
  {
    if a == b {
      assert SmallOnes(objs, a, b) == {};
    } else {
      SmallFilesIs(objs, a, b - 1);
      assert objs[a..b][..b - 1 - a] == objs[a..b - 1];
      var was := SmallOnes(objs, a, b - 1);
      if objs[b - 1].size <= 16777216 {
        assert SmallOnes(objs, a, b) == was + {b - 1} && b - 1 !in was;
      } else {
        assert SmallOnes(objs, a, b) == was;
      }
    }
  }

  /** How the copier of a range is tuned: 128 files in parallel and high-performance
      uploads when at least half of its objects have at most 16 MiB, else 32, and then at
      least 128 ranged GETs per file; commit-heavy when its objects average at most 4 MiB
      (4194304, rounded down). */
  lemma {:induction false} TuningIs(c: Config, objs: seq<Object>, ranges: seq<Range>, i: nat)
    requires PlanOf(c, objs, ranges) && i < |ranges|
    ensures var a, b, t := Offset(ranges, i), Offset(ranges, i + 1), ranges[i].tuning;
            && a < b <= |objs|
            && (t.highPerf <==> 2 * |SmallOnes(objs, a, b)| >= b - a)
            && t.parallelFiles == (if t.highPerf then 128 else 32)
            && (t.commitHeavy <==> ranges[i].bytes / (b - a) <= 4194304)
            && t.partConcurrency == (if t.highPerf || c.partConcurrency >= 128 then c.partConcurrency else 128)
  {
    RangeAt(c, objs, ranges, i);
    var a, b := Offset(ranges, i), Offset(ranges, i + 1);
    SmallFilesIs(objs, a, b);
    AverageBelow(ranges[i].bytes, b - a, 4194304);
  }

  /** More objects from the same start stay full. */
  lemma {:induction false} FullStays(c: Config, objs: seq<Object>, m: nat, n: nat)
    requires m <= n <= |objs| && Full(c, m, SatTotal(objs[..m]))
    ensures Full(c, n, SatTotal(objs[..n]))
  {
    SatTotalMono(objs, m, n);
  }

  lemma {:induction false} RangeSizes(c: Config, objs: seq<Object>, p: seq<Range>, i: nat, rest: seq<Object>)
    requires i < |p| && RangeIs(c, objs, p, i) && rest == objs[Offset(p, i)..]
    ensures var n := p[i].files;
            1 <= n <= |rest| && p[i].bytes == SatTotal(rest[..n]) && !Full(c, n - 1, SatTotal(rest[..n - 1]))
  {
    var a, n := Offset(p, i), p[i].files;
    assert rest[..n] == objs[a..a + n] && rest[..n - 1] == objs[a..a + n - 1];
  }

  /** A range ends where it got full, or with the last object. */
  lemma {:induction false} EndsWhenFull(c: Config, objs: seq<Object>, p: seq<Range>, i: nat)
    requires PlanOf(c, objs, p) && i < |p|
    ensures Offset(p, i + 1) <= |objs|
    ensures var n, rest := p[i].files, objs[Offset(p, i)..];
            && 1 <= n <= |rest| && !Full(c, n - 1, SatTotal(rest[..n - 1]))
            && (n == |rest| || Full(c, n, SatTotal(rest[..n])))
  {
    RangeAt(c, objs, p, i);
    RangeSizes(c, objs, p, i, objs[Offset(p, i)..]);
    if i == |p| - 1 { assert Offset(p, i + 1) == |objs|; }
  }

  /** A range is not longer than another one that starts at the same object. */
  lemma {:induction false} NotLonger(c: Config, objs: seq<Object>, p: seq<Range>, q: seq<Range>, i: nat)
    requires PlanOf(c, objs, p) && PlanOf(c, objs, q) && i < |p| && i < |q| && Offset(p, i) == Offset(q, i)
    ensures q[i].files <= p[i].files
  {
    EndsWhenFull(c, objs, p, i);
    EndsWhenFull(c, objs, q, i);
    if p[i].files < q[i].files { FullStays(c, objs[Offset(p, i)..], p[i].files, q[i].files - 1); }
  }

  lemma {:induction false} TuningIsUnique(c: Config, objs: seq<Object>, t: Tuning, u: Tuning)
    requires objs != [] && TunedFor(c, objs, t) && TunedFor(c, objs, u)
    ensures t == u
  {
  }

  lemma {:induction false} RangeFrom(c: Config, objs: seq<Object>, p: seq<Range>, i: nat, a: nat, files: nat)
    requires i < |p| && RangeIs(c, objs, p, i) && Offset(p, i) == a && p[i].files == files
    ensures a + files <= |objs| && files >= 1 && TunedFor(c, objs[a..a + files], p[i].tuning)
    ensures p[i] == Range(i, if i == 0 then None else Some(p[i - 1].stopAt), objs[a + files - 1].key, files,
                          SatTotal(objs[a..a + files]), p[i].tuning)
  {
  }

  lemma {:induction false} SameRange(c: Config, objs: seq<Object>, p: seq<Range>, q: seq<Range>, i: nat)
    requires PlanOf(c, objs, p) && PlanOf(c, objs, q) && i < |p| && i < |q| && Offset(p, i) == Offset(q, i)
    requires i > 0 ==> p[i - 1] == q[i - 1]
    ensures p[i] == q[i]
  {
    NotLonger(c, objs, p, q, i);
    NotLonger(c, objs, q, p, i);
    var a, n := Offset(p, i), p[i].files;
    RangeFrom(c, objs, p, i, a, n);
    RangeFrom(c, objs, q, i, a, n);
    TuningIsUnique(c, objs[a..a + n], p[i].tuning, q[i].tuning);
  }

  lemma {:induction false} SamePrefix(c: Config, objs: seq<Object>, p: seq<Range>, q: seq<Range>, n: nat)
    requires PlanOf(c, objs, p) && PlanOf(c, objs, q) && n <= |p| && n <= |q|
    ensures p[..n] == q[..n] && Offset(p, n) == Offset(q, n)
  {
    if n > 0 {
      SamePrefix(c, objs, p, q, n - 1);
      SameRange(c, objs, p, q, n - 1);
    }
  }

  /** The plan depends on the kept objects alone: not on the pages, nor on what
      was listed in between. */
  lemma {:induction false} PlanIsUnique(c: Config, objs: seq<Object>, p: seq<Range>, q: seq<Range>)
    requires PlanOf(c, objs, p) && PlanOf(c, objs, q)
    ensures p == q
  {
    var n := if |p| <= |q| then |p| else |q|;
    SamePrefix(c, objs, p, q, n);
    if n < |q| { PlanBounds(c, objs, q, n); }
    if n < |p| { PlanBounds(c, objs, p, n); }
    assert p[..|p|] == p && q[..|q|] == q;
  }
}
