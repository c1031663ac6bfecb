/** The planner's ranges and the destination check together: what an ok report
    says about the copy. */
module EndToEnd {
  import opened Wrappers
  import opened Text
  import opened Keys
  import opened Listing
  import opened RangePlan
  import opened RangePartition
  import opened Verify
  import opened VerifyReport
  import opened VerifyResults

  lemma {:induction false} PartIsSmaller(objs: seq<Object>, a: nat, b: nat)
    requires a <= b <= |objs|
    ensures Total(objs[a..b]) <= Total(objs)
  {
    assert objs == objs[..a] + (objs[a..b] + objs[b..]);
    TotalAppend(objs[..a], objs[a..b] + objs[b..]);
    TotalAppend(objs[a..b], objs[b..]);
  }

  lemma {:induction false} FilesAddUp(ranges: seq<Range>)
    ensures PlannedFiles(PlannedAll(ranges)) == Offset(ranges, |ranges|)
  {
    if ranges != [] {
      var n := |ranges| - 1;
      FilesAddUp(ranges[..n]);
      OffsetPrefix(ranges[..n], [ranges[n]], n);
      assert ranges == ranges[..n] + [ranges[n]];
      assert PlannedAll(ranges)[..|PlannedAll(ranges)| - 1] == PlannedAll(ranges[..n]);
    }
  }

  /** A plan cut from a listing of the source, taken to the check, describes the
      source as long as that does not change: each range counts just the objects a
      copier lists in it, and all of them together are the objects of the plan. */
  lemma {:induction false} PlanDescribesTheSource(c: Config, s: Scope, all: seq<Object>, objs: seq<Object>,
                                                  ranges: seq<Range>, dest: string)
    requires Ascending(all) && NoDoubled(s, all) && objs <= KeptOf(s, all) && PlanOf(c, objs, ranges)
             && Total(objs) <= U64_MAX
    ensures Frozen(Plan(dest, s.prefix, PlannedAll(ranges)), s, all)
    ensures PlannedFiles(PlannedAll(ranges)) == |objs|
  {
    FilesAddUp(ranges);
    KeptAscends(s, all);
    PlanIsContiguous(c, objs, ranges);
    PlannedAt(ranges);
    forall i | 0 <= i < |ranges|
      ensures var mine := CopierList(s, all, Planned(ranges[i]));
              ranges[i].files == |mine| && ranges[i].bytes == Total(mine)
    {
      CopierListsItsSlice(c, s, all, objs, ranges, i);
      PartIsSmaller(objs, Offset(ranges, i), Offset(ranges, i + 1));
    }
  }

  /** Nothing is at the destination that was not planned, and nothing larger. */
  ghost predicate Clean(p: Plan, scope: Scope, all: seq<Object>, files: seq<DestFile>) {
    && DistinctPaths(files)
    && forall i :: 0 <= i < |p.ranges| ==>
         && NoUnplanned(p, i, PlannedIn(p, scope, all, i), files)
         && NoneLarger(DestOf(files, |files|), PlannedIn(p, scope, all, i))
  }

  /** S3 lists every range from its lower bound on, in any pages. */
  ghost predicate ListsAll(p: Plan, all: seq<Object>, pagesOf: nat -> seq<Page>) {
    forall i :: 0 <= i < |p.ranges| ==> Listed(pagesOf(i)) == Window(all, p.ranges[i].startAfter, None)
  }

  predicate NeverGone(key: string) { false }

  lemma {:induction false} NoneIsGone(dest: Destination, objs: seq<SourceObject>)
    requires WholeButGone(dest, objs, NeverGone)
    ensures Whole(dest, objs)
  {
  }

  /** Every planned file of every range is there. */
  ghost predicate AllThere(p: Plan, scope: Scope, all: seq<Object>, dest: Destination) {
    forall i :: 0 <= i < |p.ranges| ==> Whole(dest, PlannedIn(p, scope, all, i))
  }

  /** The failed ranges, over a frozen source, are exactly those with a gap that
      their strays do not make up for. */
  lemma {:induction false} FailedIffGap(p: Plan, scope: Scope, all: seq<Object>, files: seq<DestFile>,
                                        pagesOf: nat -> seq<Page>, i: nat)
    requires Frozen(p, scope, all) && ListsAll(p, all, pagesOf) && DistinctPaths(files) && i < |p.ranges|
    ensures var objs, dest := PlannedIn(p, scope, all, i), DestOf(files, |files|);
            i in TotalsOf(p, scope, files, pagesOf, dest, NeverGone, |p.ranges|).failed
            <==> !Whole(dest, objs) && !MadeUp(p, i, objs, files)
  {
    var dest := DestOf(files, |files|);
    FailedAt(p, scope, files, pagesOf, dest, NeverGone, |p.ranges|, i);
    SuspectIff(p, scope, all, i, files);
    assert RangeObjects(p, scope, pagesOf(i), p.ranges[i]) == PlannedIn(p, scope, all, i);
    if Suspect(p, files, i) {
      FailedTells(p, scope, files, pagesOf, dest, NeverGone, i);
      if i !in TotalsOf(p, scope, files, pagesOf, dest, NeverGone, |p.ranges|).failed {
        NoneIsGone(dest, PlannedIn(p, scope, all, i));
      }
    }
  }

  /** Over a clean destination nothing makes up for a gap. */
  lemma {:induction false} NoGapIsMadeUp(p: Plan, scope: Scope, all: seq<Object>, files: seq<DestFile>, i: nat)
    requires Frozen(p, scope, all) && Clean(p, scope, all, files) && i < |p.ranges|
    requires MadeUp(p, i, PlannedIn(p, scope, all, i), files)
    ensures Whole(DestOf(files, |files|), PlannedIn(p, scope, all, i))
  {
    SuspectIff(p, scope, all, i, files);
    UnsuspectedIsWhole(p, scope, all, i, files);
  }

  lemma {:induction false} NeverGoneIs(objs: seq<SourceObject>)
    ensures Gone(objs, NeverGone, false) == objs && Gone(objs, NeverGone, true) == []
  {
    if objs != [] {
      NeverGoneIs(objs[..|objs| - 1]);
      assert objs == objs[..|objs| - 1] + [objs[|objs| - 1]];
    }
  }

  lemma {:induction false} NothingIsRaced(dest: Destination, objs: seq<SourceObject>, heads: nat, listed: nat)
    ensures var look := LookAt(dest, objs, NeverGone, heads, listed);
            look.missing == MissingOf(dest, objs, |objs|) && look.raced == []
  {
    var was := MissingOf(dest, objs, |objs|);
    var n := if |was| < heads then |was| else heads;
    NeverGoneIs(was[..n]);
    assert was[..n] + was[n..] == was;
  }

  /** What a suspected range of a frozen source adds to the report: just the planned
      files it misses, those of another size, no raced key, and as extra files just
      its strays. */
  lemma {:induction false} FrozenLook(p: Plan, scope: Scope, all: seq<Object>, files: seq<DestFile>,
                                      pagesOf: nat -> seq<Page>, i: nat, heads: nat)
    requires Frozen(p, scope, all) && ListsAll(p, all, pagesOf) && DistinctPaths(files) && i < |p.ranges|
    ensures var objs, dest := PlannedIn(p, scope, all, i), DestOf(files, |files|);
            var look := RangeLook(p, scope, files, pagesOf, dest, NeverGone, i, heads);
            && look.missing == MissingOf(dest, objs, |objs|) && look.short == ShortOf(dest, objs, |objs|)
            && look.raced == [] && look.extra == Extra(Where(p), i, objs, files, |files|)
  {
    var objs, dest := PlannedIn(p, scope, all, i), DestOf(files, |files|);
    assert RangeObjects(p, scope, pagesOf(i), p.ranges[i]) == objs;
    NothingIsRaced(dest, objs, heads, CountAt(Where(p), files, |files|, InRange(i)));
    PlannedArePlaced(p, scope, all, i);
    CountsAreFound(Where(p), i, objs, files, |files|);
    FoundOrLacking(dest, objs, |objs|);
  }

  /** The source is as it was planned, and the destination is what was listed. */
  ghost predicate FrozenCase(p: Plan, scope: Scope, all: seq<Object>, files: seq<DestFile>, pagesOf: nat -> seq<Page>,
                             dest: Destination, gone: string -> bool)
  {
    && Frozen(p, scope, all) && ListsAll(p, all, pagesOf) && gone == NeverGone
    && DistinctPaths(files) && dest == DestOf(files, |files|)
  }

  /** Range `i` has every planned file, or strays that make up for what it lacks. */
  ghost predicate Passes(p: Plan, scope: Scope, all: seq<Object>, files: seq<DestFile>, dest: Destination, i: nat)
    requires i < |p.ranges|
  {
    Whole(dest, PlannedIn(p, scope, all, i)) || MadeUp(p, i, PlannedIn(p, scope, all, i), files)
  }

  /** No range is reported exactly when all pass; over a clean destination exactly when
      every planned file, of every range, is there with its size. */
  lemma {:induction false} NoneFailedIff(p: Plan, scope: Scope, all: seq<Object>, files: seq<DestFile>,
                                         pagesOf: nat -> seq<Page>, dest: Destination, gone: string -> bool)
    requires FrozenCase(p, scope, all, files, pagesOf, dest, gone)
    ensures var failed := TotalsOf(p, scope, files, pagesOf, dest, gone, |p.ranges|).failed;
            && (failed == [] <==> forall i :: 0 <= i < |p.ranges| ==> Passes(p, scope, all, files, dest, i))
            && (Clean(p, scope, all, files) ==> (failed == [] <==> AllThere(p, scope, all, dest)))
  {
    var failed := TotalsOf(p, scope, files, pagesOf, dest, gone, |p.ranges|).failed;
    forall i | 0 <= i < |p.ranges| ensures i in failed <==> !Passes(p, scope, all, files, dest, i) {
      FailedIffGap(p, scope, all, files, pagesOf, i);
      if Clean(p, scope, all, files) && MadeUp(p, i, PlannedIn(p, scope, all, i), files) {
        NoGapIsMadeUp(p, scope, all, files, i);
      }
    }
    if failed != [] {
      FailedAt(p, scope, files, pagesOf, dest, gone, |p.ranges|, failed[0]);
      assert failed[0] in failed;
    }
    if Clean(p, scope, all, files) {
      forall i | 0 <= i < |p.ranges| && Passes(p, scope, all, files, dest, i)
        ensures Whole(dest, PlannedIn(p, scope, all, i))
      {
        if MadeUp(p, i, PlannedIn(p, scope, all, i), files) { NoGapIsMadeUp(p, scope, all, files, i); }
      }
    }
  }

  /** The check over a frozen source, whatever the destination holds: it reports
      exactly the ranges with a missing or truncated file that strays do not make up
      for. Over a clean destination these are the ranges with a gap, and the report
      is ok if and only if every planned file, of every range, is at the destination
      with its size. */
  method CheckFrozen(p: Plan, scope: Scope, ghost all: seq<Object>, listing: seq<seq<DestFile>>,
                     pagesOf: nat -> seq<Page>, dest: Destination, settled: bool)
    returns (report: Report)
    requires FrozenCase(p, scope, all, ListedFiles(listing), pagesOf, dest, NeverGone)
    ensures report.Valid()
    ensures forall i :: 0 <= i < |p.ranges| ==>
              (i in report.failedRanges <==>
               && !Whole(dest, PlannedIn(p, scope, all, i))
               && !MadeUp(p, i, PlannedIn(p, scope, all, i), ListedFiles(listing)))
    ensures forall i :: i in report.failedRanges ==> i < |p.ranges|
    ensures Clean(p, scope, all, ListedFiles(listing)) ==> (report.ok <==> AllThere(p, scope, all, dest))
  {
    report := Check(p, scope, listing, pagesOf, dest, NeverGone, settled);
    ghost var files, failed := ListedFiles(listing), report.failedRanges;
    NoneFailedIff(p, scope, all, files, pagesOf, dest, NeverGone);
    forall i | 0 <= i < |p.ranges|
      ensures i in failed <==> !Whole(dest, PlannedIn(p, scope, all, i))
                               && !MadeUp(p, i, PlannedIn(p, scope, all, i), files)
    {
      FailedIffGap(p, scope, all, files, pagesOf, i);
    }
    forall i: nat | i in failed ensures i < |p.ranges| {
      FailedAt(p, scope, files, pagesOf, dest, NeverGone, |p.ranges|, i);
    }
  }

  /** The planned objects of range `i` are the ones it was cut from. */
  lemma {:induction false} PlannedInIs(s: Scope, all: seq<Object>, objs: seq<Object>, ranges: seq<Range>, p: Plan,
                                       i: nat, m: nat)
    requires i < |ranges| == |p.ranges| && ListsItsSlice(s, all, objs, ranges, i)
    requires p.ranges[i] == Planned(ranges[i]) && p.src == s.prefix
    ensures var a, mine := Offset(ranges, i), PlannedIn(p, s, all, i);
            && a + |mine| == Offset(ranges, i + 1) <= |objs|
            && (m < |mine| ==> mine[m] == ObjectOf(p, objs[a + m]))
  {
    SliceObjects(p, objs, Offset(ranges, i), Offset(ranges, i + 1), m);
  }

  lemma {:induction false} SliceObjects(p: Plan, objs: seq<Object>, a: nat, b: nat, m: nat)
    requires a <= b <= |objs|
    ensures |ObjectsOf(p, objs[a..b])| == b - a
    ensures m < b - a ==> ObjectsOf(p, objs[a..b])[m] == ObjectOf(p, objs[a + m])
  {
  }

  /** Each range lists its slice of the objects, and the slices are all of them. */
  ghost predicate SlicesAll(s: Scope, all: seq<Object>, objs: seq<Object>, ranges: seq<Range>) {
    && Offset(ranges, |ranges|) == |objs|
    && forall i :: 0 <= i < |ranges| ==> ListsItsSlice(s, all, objs, ranges, i)
  }

  lemma {:induction false} PlanSlicesAll(c: Config, s: Scope, all: seq<Object>, objs: seq<Object>, ranges: seq<Range>)
    requires Ascending(all) && objs <= KeptOf(s, all) && PlanOf(c, objs, ranges)
    ensures SlicesAll(s, all, objs, ranges)
  {
    forall i | 0 <= i < |ranges| ensures ListsItsSlice(s, all, objs, ranges, i) {
      CopierListsItsSlice(c, s, all, objs, ranges, i);
    }
  }

  lemma {:induction false} ThereIsExact(s: Scope, all: seq<Object>, objs: seq<Object>, ranges: seq<Range>, p: Plan,
                                        dest: Destination, k: nat)
    requires SlicesAll(s, all, objs, ranges) && p.ranges == PlannedAll(ranges) && p.src == s.prefix
    requires AllThere(p, s, all, dest) && k < |objs|
    ensures Exact(dest, ObjectOf(p, objs[k]))
  {
    PlannedAt(ranges);
    var i := SomeRangeCounts(ranges, |ranges|, k);
    PlannedInIs(s, all, objs, ranges, p, i, k - Offset(ranges, i));
    assert Whole(dest, PlannedIn(p, s, all, i));
  }

  lemma {:induction false} MissedIsPlanned(s: Scope, all: seq<Object>, objs: seq<Object>, ranges: seq<Range>, p: Plan,
                                           dest: Destination) returns (k: nat)
    requires SlicesAll(s, all, objs, ranges) && p.ranges == PlannedAll(ranges) && p.src == s.prefix
    requires !AllThere(p, s, all, dest)
    ensures k < |objs| && !Exact(dest, ObjectOf(p, objs[k]))
  {
    PlannedAt(ranges);
    var i :| 0 <= i < |p.ranges| && !Whole(dest, PlannedIn(p, s, all, i));
    var m :| 0 <= m < |PlannedIn(p, s, all, i)| && !Exact(dest, PlannedIn(p, s, all, i)[m]);
    PlannedInIs(s, all, objs, ranges, p, i, m);
    k := Offset(ranges, i) + m;
  }

  /** All there, said of the plan's objects: each of them is at the destination with
      its size. */
  lemma {:induction false} AllThereIff(c: Config, s: Scope, all: seq<Object>, objs: seq<Object>, ranges: seq<Range>,
                                       destPath: string, dest: Destination)
    requires Ascending(all) && objs <= KeptOf(s, all) && PlanOf(c, objs, ranges)
    ensures var p := Plan(destPath, s.prefix, PlannedAll(ranges));
            AllThere(p, s, all, dest) <==> forall o :: o in objs ==> Exact(dest, ObjectOf(p, o))
  {
    var p := Plan(destPath, s.prefix, PlannedAll(ranges));
    PlanSlicesAll(c, s, all, objs, ranges);
    if AllThere(p, s, all, dest) {
      forall k | 0 <= k < |objs| ensures Exact(dest, ObjectOf(p, objs[k])) {
        ThereIsExact(s, all, objs, ranges, p, dest, k);
      }
    } else {
      var k := MissedIsPlanned(s, all, objs, ranges, p, dest);
      assert objs[k] in objs;
    }
  }

  lemma {:induction false} OneKey(scope: Scope, all: seq<Object>, p: Plan)
    requires scope.prefix == "" && !scope.exclude("a") && all == [Object("a", 5)]
    requires p == Plan("", "", [PlannedRange(None, Some("a"), 1, 5)])
    ensures Frozen(p, scope, all) && CopierList(scope, all, p.ranges[0]) == all
    ensures PlannedIn(p, scope, all, 0) == [SourceObject("a", "a", 5)]
  {
    SplitPiece("a", '/');
    assert FilterKey("a", "", scope.exclude).Keep?;
    assert all[..0] == [] && all[1..] == [];
    LessTotal("a", "a");
    assert KeptOf(scope, all) == all;
    assert Window(all, None, None) == all;
    assert UpTo(all, Some("a")) == all;
  }

  lemma {:induction false} OneKeyThere(p: Plan, scope: Scope, all: seq<Object>)
    requires |p.ranges| == 1 && PlannedIn(p, scope, all, 0) == [SourceObject("a", "a", 5)]
    ensures var files := [DestFile("a", 5)];
            Clean(p, scope, all, files) && AllThere(p, scope, all, DestOf(files, |files|))
  {
    var objs, files := PlannedIn(p, scope, all, 0), [DestFile("a", 5)];
    assert objs[0].destPath == files[0].path;
    assert DestOf(files, 1) == DestOf(files, 0)["a" := 5];
  }

  lemma {:induction false} OneKeyMissing(p: Plan, scope: Scope, all: seq<Object>)
    requires |p.ranges| == 1 && PlannedIn(p, scope, all, 0) == [SourceObject("a", "a", 5)]
    ensures Clean(p, scope, all, []) && !AllThere(p, scope, all, DestOf([], 0))
  {
    var objs := PlannedIn(p, scope, all, 0);
    assert !Exact(DestOf([], 0), objs[0]);
    assert !Whole(DestOf([], 0), objs);
  }

  /** The assumptions can be met, with every file there and with one missing: a
      source of one key, planned as one range. */
  lemma {:induction false} BothOutcomesExist()
    ensures exists p, scope, all, files :: Frozen(p, scope, all) && Clean(p, scope, all, files)
                                           && p.ranges != [] && AllThere(p, scope, all, DestOf(files, |files|))
    ensures exists p, scope, all, files :: Frozen(p, scope, all) && Clean(p, scope, all, files)
                                           && !AllThere(p, scope, all, DestOf(files, |files|))
  {
    var scope := Scope("", NeverGone);
    var all := [Object("a", 5)];
    var p := Plan("", "", [PlannedRange(None, Some("a"), 1, 5)]);
    OneKey(scope, all, p);
    OneKeyThere(p, scope, all);
    OneKeyMissing(p, scope, all);
    var none: seq<DestFile> := [];
    assert Clean(p, scope, all, none) && !AllThere(p, scope, all, DestOf(none, |none|));
  }
}
