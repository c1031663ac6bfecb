/** The destination check as a whole: one listing, the suspects, the report. */
module VerifyReport {
  import opened Listing
  import opened RangePartition
  import opened Verify

  /** Paths named in the report, and source HEADs, per run. */
  const SAMPLE: nat := 10
  const MAX_SOURCE_HEADS: nat := 1000

  function PathsOf(missing: seq<SourceObject>, short: seq<(SourceObject, nat)>): (r: seq<string>)
    ensures |r| == |missing| + |short|
    ensures forall k :: 0 <= k < |missing| ==> r[k] == missing[k].destPath
    ensures forall k :: 0 <= k < |short| ==> r[|missing| + k] == short[k].0.destPath
  {
    seq(|missing| + |short|, k requires 0 <= k < |missing| + |short| =>
      if k < |missing| then missing[k].destPath else short[k - |missing|].0.destPath)
  }

  function First(paths: seq<string>, room: nat): seq<string> {
    if |paths| <= room then paths else paths[..room]
  }

  function PlannedFiles(ranges: seq<PlannedRange>): nat {
    if ranges == [] then 0 else PlannedFiles(ranges[..|ranges| - 1]) + ranges[|ranges| - 1].files
  }

  /** What the second look at a range finds, and the HEADs it leaves. */
  datatype Look = Look(missing: seq<SourceObject>, short: seq<(SourceObject, nat)>, raced: seq<SourceObject>,
                       extra: nat, heads: nat)
  {
    predicate Fails() { missing != [] || short != [] }
  }

  /** The range's planned objects `objs` against the destination: the first missing
      ones, as far as the HEADs go, are split into raced and missing, the others stay
      missing. `listed` is what pass 1 counted in the range. */
  function LookAt(dest: Destination, objs: seq<SourceObject>, gone: string -> bool, heads: nat, listed: nat): Look {
    var was := MissingOf(dest, objs, |objs|);
    var n := if |was| < heads then |was| else heads;
    Look(Gone(was[..n], gone, false) + was[n..], ShortOf(dest, objs, |objs|), Gone(was[..n], gone, true),
         if listed + |was| > |objs| then listed + |was| - |objs| else 0, heads - n)
  }

  datatype Totals = Totals(missing: nat, short: nat, extra: nat, raced: nat, failed: seq<nat>, paths: seq<string>,
                           heads: nat)

  /** A raced key or an extra file fails nothing. */
  function Added(t: Totals, i: nat, look: Look): Totals {
    Totals(t.missing + |look.missing|, t.short + |look.short|, t.extra + look.extra, t.raced + |look.raced|,
           t.failed + (if look.Fails() then [i] else []), t.paths + PathsOf(look.missing, look.short), look.heads)
  }

  const NO_TOTALS := Totals(0, 0, 0, 0, [], [], MAX_SOURCE_HEADS)

  /** The second look at range `i`, with `heads` HEADs left. */
  function RangeLook(p: Plan, scope: Scope, files: seq<DestFile>, pagesOf: nat -> seq<Page>, dest: Destination,
                     gone: string -> bool, i: nat, heads: nat): Look
    requires i < |p.ranges|
  {
    LookAt(dest, RangeObjects(p, scope, pagesOf(i), p.ranges[i]), gone, heads,
           CountAt(Where(p), files, |files|, InRange(i)))
  }

  /** What the check finds in the first `n` ranges: each suspect among them is looked
      at again, with one budget of HEADs for all. */
  function TotalsOf(p: Plan, scope: Scope, files: seq<DestFile>, pagesOf: nat -> seq<Page>, dest: Destination,
                    gone: string -> bool, n: nat): Totals
    requires n <= |p.ranges|
  {
    if n == 0 then NO_TOTALS
    else
      var t := TotalsOf(p, scope, files, pagesOf, dest, gone, n - 1);
      if Suspect(p, files, n - 1)
      then Added(t, n - 1, RangeLook(p, scope, files, pagesOf, dest, gone, n - 1, t.heads))
      else t
  }

  class Report {
    var ok: bool
    const settled: bool
    const plannedFiles: nat
    const destFiles: nat
    const outside: nat
    var missing: nat
    var short: nat
    var extra: nat
    var raced: nat
    var failedRanges: seq<nat>
    var sample: seq<string>

    ghost predicate Valid()
      reads this
    {
      && (ok <==> failedRanges == []) && (ok <==> missing == 0 && short == 0)
      && |sample| == if missing + short < 10 then missing + short else 10
    }

    /** The report shows these totals. */
    ghost predicate Shows(t: Totals)
      reads this
    {
      && missing == t.missing && short == t.short && extra == t.extra && raced == t.raced
      && failedRanges == t.failed
      && (|t.paths| <= 10 ==> sample == t.paths) && (|t.paths| > 10 ==> sample == t.paths[..10])
    }

    constructor (settled: bool, ranges: seq<PlannedRange>, destFiles: nat, outside: nat)
      ensures Valid() && Shows(NO_TOTALS)
      ensures this.settled == settled && plannedFiles == PlannedFiles(ranges)
      ensures this.destFiles == destFiles && this.outside == outside
    {
      this.settled, plannedFiles, this.destFiles, this.outside := settled, PlannedFiles(ranges), destFiles, outside;
      ok, missing, short, extra, raced, failedRanges, sample := true, 0, 0, 0, 0, [], [];
    }

    /** Adds one range's result. */
    method Add(idx: nat, diff: RangeDiff, ghost t: Totals, ghost look: Look)
      requires Valid() && Shows(t)
      requires diff.missing == look.missing && diff.short == look.short && diff.raced == look.raced
      requires diff.extra == look.extra
      modifies this
      ensures Valid() && Shows(Added(t, idx, look))
    {
      missing := missing + |diff.missing|;
      short := short + |diff.short|;
      extra := extra + diff.extra;
      raced := raced + |diff.raced|;
      if diff.Failed() {
        ok := false;
        failedRanges := failedRanges + [idx];
      }
      var room := if |sample| < SAMPLE then SAMPLE - |sample| else 0;
      FirstOfFirst(t.paths, PathsOf(diff.missing, diff.short), SAMPLE);
      sample := sample + First(PathsOf(diff.missing, diff.short), room);
    }
  }

  lemma {:induction false} FirstOfFirst(a: seq<string>, b: seq<string>, room: nat)
    ensures First(a + b, room) == First(a, room) + First(b, room - |First(a, room)|)
  {
    if |a| >= room {
      assert (a + b)[..room] == a[..room];
      assert First(b, 0) == [];
    } else if |a| + |b| > room {
      assert (a + b)[..room] == a + b[..room - |a|];
    }
  }

  // ----- what a range's result says -----

  lemma {:induction false} MissingOfIs(dest: Destination, objs: seq<SourceObject>, n: nat)
    requires n <= |objs|
    ensures forall o :: o in MissingOf(dest, objs, n) ==> Missing(dest, o)
    ensures forall k :: 0 <= k < n && Missing(dest, objs[k]) ==> objs[k] in MissingOf(dest, objs, n)
    ensures (forall k :: 0 <= k < n ==> Exact(dest, objs[k])) ==> MissingOf(dest, objs, n) == []
  {
    if n > 0 { MissingOfIs(dest, objs, n - 1); }
  }

  lemma {:induction false} ShortOfIs(dest: Destination, objs: seq<SourceObject>, n: nat)
    requires n <= |objs|
    ensures ShortOf(dest, objs, n) == [] <==> forall k :: 0 <= k < n ==> !Short(dest, objs[k])
  {
    if n > 0 { ShortOfIs(dest, objs, n - 1); }
  }

  lemma {:induction false} GoneIs(objs: seq<SourceObject>, gone: string -> bool)
    ensures Gone(objs, gone, false) == [] ==> forall o :: o in objs ==> gone(o.key)
    ensures objs == [] ==> Gone(objs, gone, false) == []
  {
    if objs != [] {
      GoneIs(objs[..|objs| - 1], gone);
      assert objs == objs[..|objs| - 1] + [objs[|objs| - 1]];
    }
  }

  /** Every planned object is there with its size, or gone from the source. */
  ghost predicate WholeButGone(dest: Destination, objs: seq<SourceObject>, gone: string -> bool) {
    forall k :: 0 <= k < |objs| ==> Exact(dest, objs[k]) || (Missing(dest, objs[k]) && gone(objs[k].key))
  }

  ghost predicate Whole(dest: Destination, objs: seq<SourceObject>) {
    forall k :: 0 <= k < |objs| ==> Exact(dest, objs[k])
  }

  lemma {:induction false} LookTells(dest: Destination, objs: seq<SourceObject>, gone: string -> bool, heads: nat,
                                     listed: nat)
    ensures !LookAt(dest, objs, gone, heads, listed).Fails() ==> WholeButGone(dest, objs, gone)
    ensures Whole(dest, objs) ==> !LookAt(dest, objs, gone, heads, listed).Fails()
  {
    var was := MissingOf(dest, objs, |objs|);
    var n := if |was| < heads then |was| else heads;
    MissingOfIs(dest, objs, |objs|);
    ShortOfIs(dest, objs, |objs|);
    GoneIs(was[..n], gone);
    if Gone(was[..n], gone, false) + was[n..] == [] {
      assert was[n..] == [];
      assert was[..n] == was;
    }
    if Whole(dest, objs) { assert was[..n] == []; }
  }

  // ----- the HEADs -----

  /** The paths that the first `n` ranges' second looks find missing, before any HEAD. */
  function MissingBefore(p: Plan, scope: Scope, files: seq<DestFile>, pagesOf: nat -> seq<Page>, dest: Destination,
                         n: nat): nat
    requires n <= |p.ranges|
  {
    if n == 0 then 0
    else
      MissingBefore(p, scope, files, pagesOf, dest, n - 1)
      + if Suspect(p, files, n - 1) then AbsentIn(p, scope, pagesOf, dest, n - 1) else 0
  }

  function AbsentIn(p: Plan, scope: Scope, pagesOf: nat -> seq<Page>, dest: Destination, i: nat): nat
    requires i < |p.ranges|
  {
    var objs := RangeObjects(p, scope, pagesOf(i), p.ranges[i]);
    |MissingOf(dest, objs, |objs|)|
  }

  lemma {:induction false} GoneSplits(objs: seq<SourceObject>, gone: string -> bool)
    ensures multiset(Gone(objs, gone, false)) + multiset(Gone(objs, gone, true)) == multiset(objs)
    ensures |Gone(objs, gone, false)| + |Gone(objs, gone, true)| == |objs|
    ensures forall o :: o in Gone(objs, gone, false) ==> !gone(o.key)
    ensures forall o :: o in Gone(objs, gone, true) ==> gone(o.key)
  {
    if objs != [] {
      GoneSplits(objs[..|objs| - 1], gone);
      assert objs == objs[..|objs| - 1] + [objs[|objs| - 1]];
    }
  }

  lemma {:induction false} RestJoins(a: seq<SourceObject>, b: seq<SourceObject>, was: seq<SourceObject>, n: nat)
    requires n <= |was| && multiset(a) + multiset(b) == multiset(was[..n])
    ensures multiset(a + was[n..]) + multiset(b) == multiset(was)
  {
    assert was == was[..n] + was[n..];
  }

  /** One second look: each missing object stays missing or is raced, and no other is. */
  lemma {:induction false} LookSplits(dest: Destination, objs: seq<SourceObject>, gone: string -> bool, heads: nat,
                                      listed: nat)
    ensures var look := LookAt(dest, objs, gone, heads, listed);
            multiset(look.missing) + multiset(look.raced) == multiset(MissingOf(dest, objs, |objs|))
  {
    var was := MissingOf(dest, objs, |objs|);
    var n := if |was| < heads then |was| else heads;
    GoneSplits(was[..n], gone);
    RestJoins(Gone(was[..n], gone, false), Gone(was[..n], gone, true), was, n);
  }

  /** What is raced is gone from the source, and with HEADs for all of them nothing that is
      gone stays missing. A HEAD is spent for each missing object, as far as there are
      any. */
  lemma {:induction false} LookCounts(dest: Destination, objs: seq<SourceObject>, gone: string -> bool, heads: nat,
                                      listed: nat)
    ensures var look, absent := LookAt(dest, objs, gone, heads, listed), |MissingOf(dest, objs, |objs|)|;
            && |look.missing| + |look.raced| == absent
            && look.heads == (if absent < heads then heads - absent else 0)
            && (forall o :: o in look.raced ==> gone(o.key))
            && (absent <= heads ==> forall o :: o in look.missing ==> !gone(o.key))
  {
    var was := MissingOf(dest, objs, |objs|);
    var n := if |was| < heads then |was| else heads;
    GoneSplits(was[..n], gone);
    if n == |was| { assert was[n..] == []; }
  }

  /** So many paths were missing so far, from a budget of a thousand HEADs. */
  predicate Counted(t: Totals, absent: nat) {
    t.missing + t.raced == absent && t.heads == if absent < 1000 then 1000 - absent else 0
  }

  lemma {:induction false} LookAdds(t: Totals, i: nat, look: Look, was: nat, absent: nat)
    requires Counted(t, was) && |look.missing| + |look.raced| == absent
    requires look.heads == if absent < t.heads then t.heads - absent else 0
    ensures Counted(Added(t, i, look), was + absent)
  {
  }

  lemma {:induction false} RangeCounts(p: Plan, scope: Scope, files: seq<DestFile>, pagesOf: nat -> seq<Page>,
                                       dest: Destination, gone: string -> bool, i: nat, heads: nat)
    requires i < |p.ranges|
    ensures var look, absent := RangeLook(p, scope, files, pagesOf, dest, gone, i, heads),
                                AbsentIn(p, scope, pagesOf, dest, i);
            |look.missing| + |look.raced| == absent && look.heads == if absent < heads then heads - absent else 0
  {
    LookCounts(dest, RangeObjects(p, scope, pagesOf(i), p.ranges[i]), gone, heads,
               CountAt(Where(p), files, |files|, InRange(i)));
  }

  /** One more range. */
  lemma {:induction false} HeadsNext(p: Plan, scope: Scope, files: seq<DestFile>, pagesOf: nat -> seq<Page>,
                                     dest: Destination, gone: string -> bool, n: nat)
    requires 0 < n <= |p.ranges|
    requires Counted(TotalsOf(p, scope, files, pagesOf, dest, gone, n - 1),
                     MissingBefore(p, scope, files, pagesOf, dest, n - 1))
    ensures Counted(TotalsOf(p, scope, files, pagesOf, dest, gone, n), MissingBefore(p, scope, files, pagesOf, dest, n))
  {
    var t, i := TotalsOf(p, scope, files, pagesOf, dest, gone, n - 1), n - 1;
    if Suspect(p, files, i) {
      RangeCounts(p, scope, files, pagesOf, dest, gone, i, t.heads);
      LookAdds(t, i, RangeLook(p, scope, files, pagesOf, dest, gone, i, t.heads),
               MissingBefore(p, scope, files, pagesOf, dest, i), AbsentIn(p, scope, pagesOf, dest, i));
    }
  }

  /** One budget of a thousand HEADs for the whole check: as many are left as there were
      not missing paths to look for; and each missing path is reported as missing or as
      raced. */
  lemma {:induction false} HeadsAreCounted(p: Plan, scope: Scope, files: seq<DestFile>, pagesOf: nat -> seq<Page>,
                                           dest: Destination, gone: string -> bool, n: nat)
    requires n <= |p.ranges|
    ensures Counted(TotalsOf(p, scope, files, pagesOf, dest, gone, n), MissingBefore(p, scope, files, pagesOf, dest, n))
  {
    if n > 0 {
      HeadsAreCounted(p, scope, files, pagesOf, dest, gone, n - 1);
      HeadsNext(p, scope, files, pagesOf, dest, gone, n);
    }
  }

  // ----- the check -----

  function ListedFiles(pages: seq<seq<DestFile>>): seq<DestFile> {
    if pages == [] then [] else ListedFiles(pages[..|pages| - 1]) + pages[|pages| - 1]
  }

  /** The listing of the destination, page by page. */
  method TallyPages(p: Plan, pages: seq<seq<DestFile>>) returns (tally: Tally)
    ensures fresh(tally) && fresh(tally.files) && fresh(tally.bytes)
    ensures tally.Valid() && tally.p == p && tally.seen == ListedFiles(pages)
  {
    tally := new Tally(p);
    for i := 0 to |pages|
      invariant fresh(tally) && fresh(tally.files) && fresh(tally.bytes)
      invariant tally.Valid() && tally.p == p && tally.seen == ListedFiles(pages[..i])
    {
      assert pages[..i + 1][..i] == pages[..i];
      ghost var before := tally.seen;
      assert pages[i][..0] == [];
      for j := 0 to |pages[i]|
        invariant fresh(tally) && fresh(tally.files) && fresh(tally.bytes)
        invariant tally.Valid() && tally.p == p && tally.seen == before + pages[i][..j]
      {
        tally.Observe(pages[i][j].path, pages[i][j].size);
        assert pages[i][..j + 1] == pages[i][..j] + [pages[i][j]];
      }
      assert pages[i][..|pages[i]|] == pages[i];
    }
    assert pages[..|pages|] == pages;
  }

  /** One suspect range: looked at again, raced keys split off, reported. */
  method CheckSuspect(p: Plan, scope: Scope, ghost files: seq<DestFile>, pagesOf: nat -> seq<Page>, i: nat,
                      dest: Destination, gone: string -> bool, headsLeft: nat, listed: nat, report: Report)
    returns (left: nat)
    requires i < |p.ranges| && Suspect(p, files, i) && listed == CountAt(Where(p), files, |files|, InRange(i))
    requires Reported(p, scope, files, pagesOf, dest, gone, i, report, headsLeft)
    modifies report
    ensures Reported(p, scope, files, pagesOf, dest, gone, i + 1, report, left)
  {
    var diff := CheckRange(p, scope, pagesOf(i), p.ranges[i], dest);
    left := SplitRaced(diff, gone, headsLeft);
    diff.SetExtra(listed);
    report.Add(i, diff, TotalsOf(p, scope, files, pagesOf, dest, gone, i),
               RangeLook(p, scope, files, pagesOf, dest, gone, i, headsLeft));
  }

  /** Ranges that are not suspected add nothing. */
  lemma {:induction false} NothingBetween(p: Plan, scope: Scope, files: seq<DestFile>, pagesOf: nat -> seq<Page>,
                                          dest: Destination, gone: string -> bool, a: nat, b: nat)
    requires a <= b <= |p.ranges| && forall i :: a <= i < b ==> !Suspect(p, files, i)
    ensures TotalsOf(p, scope, files, pagesOf, dest, gone, b) == TotalsOf(p, scope, files, pagesOf, dest, gone, a)
    decreases b
  {
    if a < b { NothingBetween(p, scope, files, pagesOf, dest, gone, a, b - 1); }
  }

  /** `suspects` are the ranges that differ, in order. */
  ghost predicate AreSuspects(p: Plan, files: seq<DestFile>, suspects: seq<nat>) {
    && (forall k :: 0 <= k < |suspects| ==> suspects[k] < |p.ranges|)
    && (forall k, l :: 0 <= k < l < |suspects| ==> suspects[k] < suspects[l])
    && forall i :: 0 <= i < |p.ranges| ==> (i in suspects <==> Suspect(p, files, i))
  }

  /** Where the first range after the first `k` suspects is. */
  function After(suspects: seq<nat>, k: nat): nat
    requires k <= |suspects|
  {
    if k == 0 then 0 else suspects[k - 1] + 1
  }

  lemma {:induction false} UpToNext(p: Plan, scope: Scope, files: seq<DestFile>, pagesOf: nat -> seq<Page>,
                                    dest: Destination, gone: string -> bool, suspects: seq<nat>, k: nat, next: nat)
    requires AreSuspects(p, files, suspects) && k <= |suspects|
    requires next == if k < |suspects| then suspects[k] else |p.ranges|
    ensures After(suspects, k) <= next <= |p.ranges|
    ensures TotalsOf(p, scope, files, pagesOf, dest, gone, next)
            == TotalsOf(p, scope, files, pagesOf, dest, gone, After(suspects, k))
  {
    forall i | After(suspects, k) <= i < next ensures !Suspect(p, files, i) {
      assert forall m :: 0 <= m < |suspects| ==> if m < k then suspects[m] < i else suspects[m] > i;
    }
    NothingBetween(p, scope, files, pagesOf, dest, gone, After(suspects, k), next);
  }

  /** The report after the first `n` ranges. */
  ghost predicate Reported(p: Plan, scope: Scope, files: seq<DestFile>, pagesOf: nat -> seq<Page>, dest: Destination,
                           gone: string -> bool, n: nat, report: Report, heads: nat)
    reads report
    requires n <= |p.ranges|
  {
    var t := TotalsOf(p, scope, files, pagesOf, dest, gone, n);
    report.Valid() && report.Shows(t) && heads == t.heads
  }

  /** Before suspect `k`. */
  lemma {:induction false} ReportedUpTo(p: Plan, scope: Scope, files: seq<DestFile>, pagesOf: nat -> seq<Page>,
                                        dest: Destination, gone: string -> bool, suspects: seq<nat>, k: nat, next: nat,
                                        report: Report, heads: nat)
    requires AreSuspects(p, files, suspects) && k <= |suspects| && After(suspects, k) <= |p.ranges|
    requires next == if k < |suspects| then suspects[k] else |p.ranges|
    requires Reported(p, scope, files, pagesOf, dest, gone, After(suspects, k), report, heads)
    ensures next <= |p.ranges| && Reported(p, scope, files, pagesOf, dest, gone, next, report, heads)
    ensures k < |suspects| ==> next < |p.ranges| && Suspect(p, files, next)
  {
    if k < |suspects| { assert suspects[k] in suspects; }
    UpToNext(p, scope, files, pagesOf, dest, gone, suspects, k, next);
  }

  /** The next suspect in turn. */
  method CheckNext(p: Plan, scope: Scope, suspects: seq<nat>, k: nat, pagesOf: nat -> seq<Page>, dest: Destination,
                   gone: string -> bool, heads: nat, listed: nat, report: Report, ghost files: seq<DestFile>)
    returns (left: nat)
    requires AreSuspects(p, files, suspects) && k < |suspects| && After(suspects, k) <= |p.ranges|
    requires Reported(p, scope, files, pagesOf, dest, gone, After(suspects, k), report, heads)
    requires listed == CountAt(Where(p), files, |files|, InRange(suspects[k]))
    modifies report
    ensures After(suspects, k + 1) <= |p.ranges|
    ensures Reported(p, scope, files, pagesOf, dest, gone, After(suspects, k + 1), report, left)
  {
    ReportedUpTo(p, scope, files, pagesOf, dest, gone, suspects, k, suspects[k], report, heads);
    left := CheckSuspect(p, scope, files, pagesOf, suspects[k], dest, gone, heads, listed, report);
  }

  /** Every suspect in turn. */
  method CheckSuspects(p: Plan, scope: Scope, suspects: seq<nat>, pagesOf: nat -> seq<Page>, dest: Destination,
                       gone: string -> bool, listed: seq<nat>, report: Report, ghost files: seq<DestFile>)
    returns (heads: nat)
    requires AreSuspects(p, files, suspects) && |listed| == |p.ranges|
    requires forall i :: 0 <= i < |listed| ==> listed[i] == CountAt(Where(p), files, |files|, InRange(i))
    requires Reported(p, scope, files, pagesOf, dest, gone, 0, report, MAX_SOURCE_HEADS)
    modifies report
    ensures Reported(p, scope, files, pagesOf, dest, gone, |p.ranges|, report, heads)
  {
    heads := MAX_SOURCE_HEADS;
    var k: nat := 0;
    while k < |suspects|
      invariant k <= |suspects| && After(suspects, k) <= |p.ranges|
      invariant Reported(p, scope, files, pagesOf, dest, gone, After(suspects, k), report, heads)
    {
      heads := CheckNext(p, scope, suspects, k, pagesOf, dest, gone, heads, listed[suspects[k]], report, files);
      k := k + 1;
    }
    ReportedUpTo(p, scope, files, pagesOf, dest, gone, suspects, k, |p.ranges|, report, heads);
  }

  /** What the failed ranges say of range `i`. */
  ghost predicate Judged(p: Plan, scope: Scope, pagesOf: nat -> seq<Page>, dest: Destination, gone: string -> bool,
                         i: nat, failed: seq<nat>)
    requires i < |p.ranges|
  {
    var objs := RangeObjects(p, scope, pagesOf(i), p.ranges[i]);
    (i !in failed ==> WholeButGone(dest, objs, gone)) && (Whole(dest, objs) ==> i !in failed)
  }

  /** Range `i` is suspected, and its second look fails. */
  predicate FailsAt(p: Plan, scope: Scope, files: seq<DestFile>, pagesOf: nat -> seq<Page>, dest: Destination,
                    gone: string -> bool, i: nat)
    requires i < |p.ranges|
  {
    && Suspect(p, files, i)
    && RangeLook(p, scope, files, pagesOf, dest, gone, i,
                 TotalsOf(p, scope, files, pagesOf, dest, gone, i).heads).Fails()
  }

  lemma {:induction false} FailedNext(p: Plan, scope: Scope, files: seq<DestFile>, pagesOf: nat -> seq<Page>,
                                      dest: Destination, gone: string -> bool, i: nat)
    requires i < |p.ranges|
    ensures TotalsOf(p, scope, files, pagesOf, dest, gone, i + 1).failed
            == TotalsOf(p, scope, files, pagesOf, dest, gone, i).failed
               + if FailsAt(p, scope, files, pagesOf, dest, gone, i) then [i] else []
  {
  }

  /** The failed ranges are the suspects whose second look fails. */
  lemma {:induction false} FailedAt(p: Plan, scope: Scope, files: seq<DestFile>, pagesOf: nat -> seq<Page>,
                                    dest: Destination, gone: string -> bool, n: nat, i: nat)
    requires n <= |p.ranges|
    ensures i in TotalsOf(p, scope, files, pagesOf, dest, gone, n).failed
            <==> i < n && FailsAt(p, scope, files, pagesOf, dest, gone, i)
  {
    if n > 0 {
      FailedAt(p, scope, files, pagesOf, dest, gone, n - 1, i);
      FailedNext(p, scope, files, pagesOf, dest, gone, n - 1);
    }
  }

  /** A suspect that did not fail holds every planned object with its size, but for
      those gone from the source; one that holds them all did not fail. */
  lemma {:induction false} FailedTells(p: Plan, scope: Scope, files: seq<DestFile>, pagesOf: nat -> seq<Page>,
                                       dest: Destination, gone: string -> bool, i: nat)
    requires i < |p.ranges| && Suspect(p, files, i)
    ensures Judged(p, scope, pagesOf, dest, gone, i, TotalsOf(p, scope, files, pagesOf, dest, gone, |p.ranges|).failed)
  {
    FailedAt(p, scope, files, pagesOf, dest, gone, |p.ranges|, i);
    LookTells(dest, RangeObjects(p, scope, pagesOf(i), p.ranges[i]), gone,
              TotalsOf(p, scope, files, pagesOf, dest, gone, i).heads, CountAt(Where(p), files, |files|, InRange(i)));
  }

  /** The whole check. `pagesOf` lists each range on the source again, `gone` answers
      the HEADs. Only suspect ranges are looked at, and the report shows the totals
      of their second looks; it is ok exactly when none of them failed. */
  method Check(p: Plan, scope: Scope, listing: seq<seq<DestFile>>, pagesOf: nat -> seq<Page>, dest: Destination,
               gone: string -> bool, settled: bool)
    returns (report: Report)
    ensures fresh(report) && report.Valid() && report.settled == settled
    ensures report.Shows(TotalsOf(p, scope, ListedFiles(listing), pagesOf, dest, gone, |p.ranges|))
    ensures var files := ListedFiles(listing);
            && report.outside == CountAt(Where(p), files, |files|, Outside)
            && report.destFiles + CountAt(Where(p), files, |files|, Foreign) == |files|
            && report.plannedFiles == PlannedFiles(p.ranges)
  {
    var tally := TallyPages(p, listing);
    report := new Report(settled, p.ranges, tally.destFiles, tally.outside);
    var suspects := tally.Suspects();
    var left := CheckSuspects(p, scope, suspects, pagesOf, dest, gone, tally.files[..], report, ListedFiles(listing));
  }
}
