/** What the destination check is worth: when counting files and bytes per range
    is enough to know that every planned file is there. */
module VerifyResults {
  import opened Sequences
  import opened Wrappers
  import opened Text
  import opened Keys
  import opened Listing
  import opened RangePartition
  import opened Verify
  import opened VerifyReport
  import Locate

  // ----- the order of the listing -----

  lemma {:induction false} CountJoin(w: Placing, a: seq<DestFile>, b: seq<DestFile>, n: nat, at: Place)
    requires n <= |b|
    ensures CountAt(w, a + b, |a| + n, at) == CountAt(w, a, |a|, at) + CountAt(w, b, n, at)
    ensures BytesAt(w, a + b, |a| + n, at) == BytesAt(w, a, |a|, at) + BytesAt(w, b, n, at)
  {
    if n > 0 {
      CountJoin(w, a, b, n - 1, at);
      assert (a + b)[|a| + n - 1] == b[n - 1];
    } else {
      CountPrefix(w, a, b, |a|, at);
    }
  }

  lemma {:induction false} CountPrefix(w: Placing, a: seq<DestFile>, b: seq<DestFile>, n: nat, at: Place)
    requires n <= |a|
    ensures CountAt(w, a + b, n, at) == CountAt(w, a, n, at) && BytesAt(w, a + b, n, at) == BytesAt(w, a, n, at)
  {
    if n > 0 {
      CountPrefix(w, a, b, n - 1, at);
      assert (a + b)[n - 1] == a[n - 1];
    }
  }

  lemma {:induction false} CountSwap(w: Placing, a: seq<DestFile>, x: DestFile, b: seq<DestFile>, at: Place)
    ensures CountAt(w, a + [x] + b, |a + [x] + b|, at) == CountAt(w, a + b + [x], |a + b + [x]|, at)
    ensures BytesAt(w, a + [x] + b, |a + [x] + b|, at) == BytesAt(w, a + b + [x], |a + b + [x]|, at)
  {
    CountJoin(w, a + [x], b, |b|, at);
    CountJoin(w, a, [x], 1, at);
    CountJoin(w, a + b, [x], 1, at);
    CountJoin(w, a, b, |b|, at);
  }

  /** The files listed at a place. */
  ghost function FilesAt(w: Placing, files: seq<DestFile>, n: nat, at: Place): set<nat>
    requires n <= |files|
  {
    set j: nat | j < n && w(files[j].path) == at
  }

  /** What is counted at a place is the number of files there. */
  lemma {:induction false} CountIs(w: Placing, files: seq<DestFile>, n: nat, at: Place)
    requires n <= |files|
    ensures CountAt(w, files, n, at) == |FilesAt(w, files, n, at)|
  {
    if n == 0 {
      assert FilesAt(w, files, 0, at) == {};
    } else {
      CountIs(w, files, n - 1, at);
      var was := FilesAt(w, files, n - 1, at);
      if w(files[n - 1].path) == at {
        assert FilesAt(w, files, n, at) == was + {n - 1};
      } else {
        assert FilesAt(w, files, n, at) == was;
      }
    }
  }

  /** The tallies do not depend on the order in which the destination lists. */
  lemma {:induction false} TallyIgnoresOrder(w: Placing, a: seq<DestFile>, b: seq<DestFile>, at: Place)
    requires multiset(a) == multiset(b)
    ensures CountAt(w, a, |a|, at) == CountAt(w, b, |b|, at) && BytesAt(w, a, |a|, at) == BytesAt(w, b, |b|, at)
    decreases |a|
  {
    if a == [] {
      assert |multiset(b)| == 0;
    } else {
      var k := TakeOut(a, b);
      var front, c := a[..|a| - 1], b[..k] + b[k + 1..];
      assert a == front + [b[k]] && b == b[..k] + [b[k]] + b[k + 1..];
      TallyIgnoresOrder(w, front, c, at);
      CountSwap(w, b[..k], b[k], b[k + 1..], at);
      CountJoin(w, front, [b[k]], 1, at);
      CountJoin(w, c, [b[k]], 1, at);
    }
  }

  // ----- counting both ways -----

  /** The destination as a whole, from its listing. */
  function DestOf(files: seq<DestFile>, n: nat): Destination
    requires n <= |files|
  {
    if n == 0 then map[] else DestOf(files, n - 1)[files[n - 1].path := files[n - 1].size]
  }

  /** How many of the first `m` planned objects the destination holds, and the
      bytes it holds for them. */
  function Found(dest: Destination, objs: seq<SourceObject>, m: nat): nat
    requires m <= |objs|
  {
    if m == 0 then 0 else Found(dest, objs, m - 1) + if objs[m - 1].destPath in dest then 1 else 0
  }

  function FoundBytes(dest: Destination, objs: seq<SourceObject>, m: nat): nat
    requires m <= |objs|
  {
    if m == 0 then 0
    else FoundBytes(dest, objs, m - 1) + if objs[m - 1].destPath in dest then dest[objs[m - 1].destPath] else 0
  }

  function Bytes(objs: seq<SourceObject>, m: nat): nat
    requires m <= |objs|
  {
    if m == 0 then 0 else Bytes(objs, m - 1) + objs[m - 1].size
  }

  ghost predicate DistinctTargets(objs: seq<SourceObject>) {
    forall k, l :: 0 <= k < l < |objs| ==> objs[k].destPath != objs[l].destPath
  }

  ghost predicate DistinctPaths(files: seq<DestFile>) {
    forall a, b :: 0 <= a < b < |files| ==> files[a].path != files[b].path
  }

  ghost predicate Planned?(objs: seq<SourceObject>, m: nat, path: string)
    requires m <= |objs|
  {
    exists k :: 0 <= k < m && objs[k].destPath == path
  }

  lemma {:induction false} FoundGrows(dest: Destination, objs: seq<SourceObject>, m: nat, path: string, size: nat)
    requires m <= |objs| && DistinctTargets(objs) && path !in dest
    ensures var more := dest[path := size];
            && Found(more, objs, m) == Found(dest, objs, m) + (if Planned?(objs, m, path) then 1 else 0)
            && FoundBytes(more, objs, m) == FoundBytes(dest, objs, m) + (if Planned?(objs, m, path) then size else 0)
  {
    if m > 0 {
      FoundGrows(dest, objs, m - 1, path, size);
      if objs[m - 1].destPath == path { assert !Planned?(objs, m - 1, path); }
      assert Planned?(objs, m, path) <==> Planned?(objs, m - 1, path) || objs[m - 1].destPath == path;
    }
  }

  lemma {:induction false} NothingFound(objs: seq<SourceObject>, m: nat)
    requires m <= |objs|
    ensures Found(map[], objs, m) == FoundBytes(map[], objs, m) == 0
  {
    if m > 0 { NothingFound(objs, m - 1); }
  }

  lemma {:induction false} DestOfHas(files: seq<DestFile>, n: nat)
    requires n <= |files| && DistinctPaths(files)
    ensures forall q :: q in DestOf(files, n) <==> exists a :: 0 <= a < n && files[a].path == q
    ensures forall a :: 0 <= a < n ==>
              files[a].path in DestOf(files, n) && DestOf(files, n)[files[a].path] == files[a].size
  {
    if n > 0 { DestOfHas(files, n - 1); }
  }

  /** Every planned path of range `i` is placed there. */
  ghost predicate AllPlaced(w: Placing, i: nat, objs: seq<SourceObject>) {
    forall k :: 0 <= k < |objs| ==> w(objs[k].destPath) == InRange(i)
  }

  /** A listed file that is counted in range `i` and is not planned there. */
  ghost predicate Stray(w: Placing, i: nat, objs: seq<SourceObject>, f: DestFile) {
    w(f.path) == InRange(i) && !Planned?(objs, |objs|, f.path)
  }

  /** How many of the first `n` listed files are strays of range `i`, and their
      bytes. */
  ghost function Extra(w: Placing, i: nat, objs: seq<SourceObject>, files: seq<DestFile>, n: nat): nat
    requires n <= |files|
  {
    if n == 0 then 0 else Extra(w, i, objs, files, n - 1) + if Stray(w, i, objs, files[n - 1]) then 1 else 0
  }

  ghost function ExtraBytes(w: Placing, i: nat, objs: seq<SourceObject>, files: seq<DestFile>, n: nat): nat
    requires n <= |files|
  {
    if n == 0 then 0
    else ExtraBytes(w, i, objs, files, n - 1) + if Stray(w, i, objs, files[n - 1]) then files[n - 1].size else 0
  }

  lemma {:induction false} CountNext(w: Placing, i: nat, objs: seq<SourceObject>, files: seq<DestFile>, n: nat)
    requires n < |files| && AllPlaced(w, i, objs)
    ensures var f, mine := files[n], Planned?(objs, |objs|, files[n].path);
            && CountAt(w, files, n + 1, InRange(i)) - CountAt(w, files, n, InRange(i))
               == Extra(w, i, objs, files, n + 1) - Extra(w, i, objs, files, n) + (if mine then 1 else 0)
            && BytesAt(w, files, n + 1, InRange(i)) - BytesAt(w, files, n, InRange(i))
               == ExtraBytes(w, i, objs, files, n + 1) - ExtraBytes(w, i, objs, files, n) + (if mine then f.size else 0)
  {
  }

  /** What pass 1 counts in the range is what the destination holds of its plan,
      and the strays. */
  lemma {:induction false} CountsAreFound(w: Placing, i: nat, objs: seq<SourceObject>, files: seq<DestFile>, n: nat)
    requires AllPlaced(w, i, objs) && DistinctTargets(objs) && DistinctPaths(files) && n <= |files|
    ensures CountAt(w, files, n, InRange(i)) == Found(DestOf(files, n), objs, |objs|) + Extra(w, i, objs, files, n)
    ensures BytesAt(w, files, n, InRange(i))
            == FoundBytes(DestOf(files, n), objs, |objs|) + ExtraBytes(w, i, objs, files, n)
  {
    if n == 0 {
      NothingFound(objs, |objs|);
    } else {
      var f, dest := files[n - 1], DestOf(files, n - 1);
      CountsAreFound(w, i, objs, files, n - 1);
      CountNext(w, i, objs, files, n - 1);
      NotYet(files, n - 1);
      FoundGrows(dest, objs, |objs|, f.path, f.size);
    }
  }

  lemma {:induction false} NotYet(files: seq<DestFile>, n: nat)
    requires n < |files| && DistinctPaths(files)
    ensures files[n].path !in DestOf(files, n)
  {
    DestOfHas(files, n);
  }

  // ----- what is lacking -----

  function HeldOf(dest: Destination, o: SourceObject): nat {
    if o.destPath in dest then dest[o.destPath] else 0
  }

  /** The bytes the destination falls short of the first `m` planned objects; a file
      larger than planned counts against them. */
  function LackingBytes(dest: Destination, objs: seq<SourceObject>, m: nat): int
    requires m <= |objs|
  {
    if m == 0 then 0 else LackingBytes(dest, objs, m - 1) + objs[m - 1].size - HeldOf(dest, objs[m - 1])
  }

  lemma {:induction false} FoundOrLacking(dest: Destination, objs: seq<SourceObject>, m: nat)
    requires m <= |objs|
    ensures Found(dest, objs, m) + |MissingOf(dest, objs, m)| == m
    ensures FoundBytes(dest, objs, m) + LackingBytes(dest, objs, m) == Bytes(objs, m)
  {
    if m > 0 { FoundOrLacking(dest, objs, m - 1); }
  }

  ghost predicate NoneLarger(dest: Destination, objs: seq<SourceObject>) {
    forall k :: 0 <= k < |objs| && objs[k].destPath in dest ==> dest[objs[k].destPath] <= objs[k].size
  }

  /** A destination that holds every planned file at its size lacks nothing; so it
      is only then, as long as no file is larger than planned. */
  lemma {:induction false} NothingLacking(dest: Destination, objs: seq<SourceObject>, m: nat)
    requires m <= |objs|
    ensures (forall k :: 0 <= k < m ==> Exact(dest, objs[k])) ==>
              MissingOf(dest, objs, m) == [] && LackingBytes(dest, objs, m) == 0
    ensures NoneLarger(dest, objs) ==> LackingBytes(dest, objs, m) >= 0
    ensures NoneLarger(dest, objs) && MissingOf(dest, objs, m) == [] && LackingBytes(dest, objs, m) == 0 ==>
              forall k :: 0 <= k < m ==> Exact(dest, objs[k])
  {
    if m > 0 { NothingLacking(dest, objs, m - 1); }
  }

  function SizesOf(objs: seq<SourceObject>): nat {
    if objs == [] then 0 else SizesOf(objs[..|objs| - 1]) + objs[|objs| - 1].size
  }

  lemma {:induction false} SizesNext(objs: seq<SourceObject>, o: SourceObject)
    ensures SizesOf(objs + [o]) == SizesOf(objs) + o.size && objs + [] == objs
  {
    assert (objs + [o])[..|objs|] == objs;
  }

  /** With no file of a wrong size, the lacking bytes are those of the missing. */
  lemma {:induction false} LackingAreMissing(dest: Destination, objs: seq<SourceObject>, m: nat)
    requires m <= |objs| && forall k :: 0 <= k < m ==> !Short(dest, objs[k])
    ensures LackingBytes(dest, objs, m) == SizesOf(MissingOf(dest, objs, m))
  {
    if m > 0 {
      LackingAreMissing(dest, objs, m - 1);
      SizesNext(MissingOf(dest, objs, m - 1), objs[m - 1]);
    }
  }

  // ----- the plan of a frozen source -----

  /** No kept key `p/p`: every target leads back to its key. */
  ghost predicate NoDoubled(scope: Scope, all: seq<Object>) {
    forall o :: o in KeptOf(scope, all) ==> !Doubled(o.key, scope.prefix)
  }

  /** The ranges record what the source lists in their windows, now as then. */
  ghost predicate Frozen(p: Plan, scope: Scope, all: seq<Object>) {
    && p.src == scope.prefix && Ascending(all) && Contiguous(p.ranges) && NoDoubled(scope, all)
    && forall i :: 0 <= i < |p.ranges| ==> var mine := CopierList(scope, all, p.ranges[i]);
         p.ranges[i].files == |mine| && p.ranges[i].bytes == Total(mine)
  }

  /** The planned objects of range `i`, as source objects. */
  ghost function PlannedIn(p: Plan, scope: Scope, all: seq<Object>, i: nat): seq<SourceObject>
    requires i < |p.ranges|
  {
    ObjectsOf(p, CopierList(scope, all, p.ranges[i]))
  }

  /** Nothing unplanned in range `i`: each listed file there is a planned object's. */
  ghost predicate NoUnplanned(p: Plan, i: nat, objs: seq<SourceObject>, files: seq<DestFile>) {
    forall a :: 0 <= a < |files| ==> !Stray(Where(p), i, objs, files[a])
  }

  lemma {:induction false} NoExtra(w: Placing, i: nat, objs: seq<SourceObject>, files: seq<DestFile>, n: nat)
    requires n <= |files| && forall a :: 0 <= a < |files| ==> !Stray(w, i, objs, files[a])
    ensures Extra(w, i, objs, files, n) == ExtraBytes(w, i, objs, files, n) == 0
  {
    if n > 0 { NoExtra(w, i, objs, files, n - 1); }
  }

  lemma {:induction false} CopierListFacts(scope: Scope, all: seq<Object>, r: PlannedRange)
    requires Ascending(all)
    ensures Ascending(CopierList(scope, all, r))
    ensures forall o :: o in CopierList(scope, all, r) ==>
              o in KeptOf(scope, all) && Kept(scope, o.key) && Holds(r, o.key)
  {
    CopierListIsWindow(scope, all, r);
    KeptAscends(scope, all);
    WindowAscends(KeptOf(scope, all), r.startAfter, r.stopAt);
  }

  /** A planned object's path is placed in the range that plans it. */
  lemma {:induction false} TargetsArePlaced(p: Plan, scope: Scope, all: seq<Object>, i: nat, o: Object)
    requires Frozen(p, scope, all) && i < |p.ranges| && o in CopierList(scope, all, p.ranges[i])
    ensures PlaceOf(p, Target(o.key, p.src, p.dest)) == InRange(i)
  {
    CopierListFacts(scope, all, p.ranges[i]);
    SourceKeyInverts(o.key, p.src, p.dest, scope.exclude);
    Locate.FindIff(p.ranges, o.key, i);
  }

  lemma {:induction false} TargetsAreDistinct(p: Plan, scope: Scope, all: seq<Object>, i: nat, k: nat, l: nat)
    requires Frozen(p, scope, all) && i < |p.ranges| && k < l < |CopierList(scope, all, p.ranges[i])|
    ensures var objs := CopierList(scope, all, p.ranges[i]);
            Target(objs[k].key, p.src, p.dest) != Target(objs[l].key, p.src, p.dest)
  {
    var objs := CopierList(scope, all, p.ranges[i]);
    CopierListFacts(scope, all, p.ranges[i]);
    LessTotal(objs[k].key, objs[l].key);
    assert objs[k] in objs && objs[l] in objs;
    SourceKeyInverts(objs[k].key, p.src, p.dest, scope.exclude);
    SourceKeyInverts(objs[l].key, p.src, p.dest, scope.exclude);
  }

  lemma {:induction false} PlannedArePlaced(p: Plan, scope: Scope, all: seq<Object>, i: nat)
    requires Frozen(p, scope, all) && i < |p.ranges|
    ensures AllPlaced(Where(p), i, PlannedIn(p, scope, all, i)) && DistinctTargets(PlannedIn(p, scope, all, i))
  {
    var mine := CopierList(scope, all, p.ranges[i]);
    var objs := PlannedIn(p, scope, all, i);
    forall k, l | 0 <= k < l < |objs| ensures objs[k].destPath != objs[l].destPath {
      TargetsAreDistinct(p, scope, all, i, k, l);
    }
    forall k | 0 <= k < |objs| ensures Where(p)(objs[k].destPath) == InRange(i) {
      assert mine[k] in mine;
      TargetsArePlaced(p, scope, all, i, mine[k]);
    }
  }

  lemma {:induction false} SameBytes(p: Plan, objs: seq<Object>, m: nat)
    requires m <= |objs|
    ensures Bytes(ObjectsOf(p, objs), m) == Total(objs[..m])
  {
    if m > 0 {
      SameBytes(p, objs, m - 1);
      assert objs[..m][..m - 1] == objs[..m - 1];
    }
  }

  /** The strays of range `i` make up for what it lacks: as many as its missing
      files, with just the bytes it falls short. */
  ghost predicate MadeUp(p: Plan, i: nat, objs: seq<SourceObject>, files: seq<DestFile>) {
    var dest := DestOf(files, |files|);
    && Extra(Where(p), i, objs, files, |files|) == |MissingOf(dest, objs, |objs|)|
    && ExtraBytes(Where(p), i, objs, files, |files|) == LackingBytes(dest, objs, |objs|)
  }

  /** What pass 1 sees of a frozen source, whatever the destination holds: a range is
      let through exactly when its strays make up, in number and in bytes, for what
      it lacks. */
  lemma {:induction false} SuspectIff(p: Plan, scope: Scope, all: seq<Object>, i: nat, files: seq<DestFile>)
    requires Frozen(p, scope, all) && i < |p.ranges| && DistinctPaths(files)
    ensures !Suspect(p, files, i) <==> MadeUp(p, i, PlannedIn(p, scope, all, i), files)
  {
    var mine := CopierList(scope, all, p.ranges[i]);
    var objs := PlannedIn(p, scope, all, i);
    PlannedArePlaced(p, scope, all, i);
    CountsAreFound(Where(p), i, objs, files, |files|);
    FoundOrLacking(DestOf(files, |files|), objs, |objs|);
    SameBytes(p, mine, |mine|);
    assert mine[..|mine|] == mine;
  }

  /** A range with every planned file in place is suspected only for its strays. */
  lemma {:induction false} WholeIsUnsuspected(p: Plan, scope: Scope, all: seq<Object>, i: nat, files: seq<DestFile>)
    requires Frozen(p, scope, all) && i < |p.ranges| && DistinctPaths(files)
    requires Whole(DestOf(files, |files|), PlannedIn(p, scope, all, i))
    ensures Suspect(p, files, i) <==> Extra(Where(p), i, PlannedIn(p, scope, all, i), files, |files|) > 0
  {
    var objs := PlannedIn(p, scope, all, i);
    SuspectIff(p, scope, all, i, files);
    NothingLacking(DestOf(files, |files|), objs, |objs|);
    if Extra(Where(p), i, objs, files, |files|) == 0 { NoStrayNoBytes(Where(p), i, objs, files, |files|); }
  }

  lemma {:induction false} NoStrayNoBytes(w: Placing, i: nat, objs: seq<SourceObject>, files: seq<DestFile>, n: nat)
    requires n <= |files| && Extra(w, i, objs, files, n) == 0
    ensures ExtraBytes(w, i, objs, files, n) == 0
  {
    if n > 0 { NoStrayNoBytes(w, i, objs, files, n - 1); }
  }

  /** Without an unplanned file in the range, and none larger than planned, pass 1
      misses nothing: the range is suspected exactly when one of its planned files
      is missing or truncated. */
  lemma {:induction false} UnsuspectedIsWhole(p: Plan, scope: Scope, all: seq<Object>, i: nat, files: seq<DestFile>)
    requires Frozen(p, scope, all) && i < |p.ranges| && DistinctPaths(files)
    requires NoUnplanned(p, i, PlannedIn(p, scope, all, i), files)
    requires NoneLarger(DestOf(files, |files|), PlannedIn(p, scope, all, i))
    ensures !Suspect(p, files, i) <==> Whole(DestOf(files, |files|), PlannedIn(p, scope, all, i))
  {
    var objs := PlannedIn(p, scope, all, i);
    SuspectIff(p, scope, all, i, files);
    NoExtra(Where(p), i, objs, files, |files|);
    NothingLacking(DestOf(files, |files|), objs, |objs|);
  }

  /** When a range with a gap escapes: with no planned file at a wrong size, exactly
      when something is missing and the strays are as many as the missing files and
      have their bytes in all. So one missing file is hidden by one unplanned file
      of its size, and by none of another. */
  lemma {:induction false} GapEscapesIff(p: Plan, scope: Scope, all: seq<Object>, i: nat, files: seq<DestFile>)
    requires Frozen(p, scope, all) && i < |p.ranges| && DistinctPaths(files)
    requires forall o :: o in PlannedIn(p, scope, all, i) ==> !Short(DestOf(files, |files|), o)
    ensures var objs, dest := PlannedIn(p, scope, all, i), DestOf(files, |files|);
            var missing := MissingOf(dest, objs, |objs|);
            !Suspect(p, files, i) && !Whole(dest, objs) <==>
            && missing != [] && Extra(Where(p), i, objs, files, |files|) == |missing|
            && ExtraBytes(Where(p), i, objs, files, |files|) == SizesOf(missing)
  {
    var objs, dest := PlannedIn(p, scope, all, i), DestOf(files, |files|);
    SuspectIff(p, scope, all, i, files);
    forall k | 0 <= k < |objs| ensures !Short(dest, objs[k]) { assert objs[k] in objs; }
    LackingAreMissing(dest, objs, |objs|);
    MissingOfIs(dest, objs, |objs|);
  }

  /** The price of counting: a missing file and an unplanned file of its size in
      the same range cancel out. The range is not suspected, and the file is not
      there. */
  lemma {:induction false} MissingAndUnplannedCancel()
    ensures var p := Plan("d", "", [PlannedRange(None, Some("b"), 1, 5)]);
            var files := [DestFile("d/a", 5)];
            !Suspect(p, files, 0) && !Whole(DestOf(files, 1), [SourceObject("b", "d/b", 5)])
            && "d/b" == Target("b", "", "d")
  {
    var p := Plan("d", "", [PlannedRange(None, Some("b"), 1, 5)]);
    var files := [DestFile("d/a", 5)];
    RelativeToTarget("a", "d");
    assert SourceKey("d/a", "d", "") == Some("a") by { assert "d" + "/" + "a" == "d/a"; assert "" + "a" == "a"; }
    assert Holds(p.ranges[0], "a") by { assert Less("a", "b"); }
    Locate.FindIff(p.ranges, "a", 0);
    assert PlaceOf(p, "d/a") == InRange(0);
    assert CountAt(Where(p), files, 1, InRange(0)) == CountAt(Where(p), files, 0, InRange(0)) + 1;
    assert BytesAt(Where(p), files, 1, InRange(0)) == BytesAt(Where(p), files, 0, InRange(0)) + 5;
    var o := SourceObject("b", "d/b", 5);
    assert "d/b"[2] == 'b' && "d/a"[2] == 'a';
    assert o.destPath !in DestOf(files, 1);
    assert !Exact(DestOf(files, 1), [o][0]);
  }
}
