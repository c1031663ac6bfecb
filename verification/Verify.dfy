/** The check of the destination after a copy: counts per range, the second look
    at the ranges that differ, and the report. */
module Verify {
  import opened Keys
  import opened Listing
  import opened RangePartition
  import opened CopyListing
  import Locate

  /** A file of the destination's listing. */
  datatype DestFile = DestFile(path: string, size: nat)

  /** What is checked: both prefixes, and the ranges. */
  datatype Plan = Plan(dest: string, src: string, ranges: seq<PlannedRange>)

  datatype Place = Foreign | Outside | InRange(i: nat)

  /** Where a listed path belongs. A path that only shares the destination's name
      as a string prefix is foreign. */
  function PlaceOf(p: Plan, path: string): Place {
    match SourceKey(path, p.dest, p.src)
    case None => Foreign
    case Some(key) =>
      match Locate.Find(p.ranges, key)
      case None => Outside
      case Some(i) => InRange(i)
  }

  type Placing = string -> Place

  function Where(p: Plan): Placing { path => PlaceOf(p, path) }

  /** Of the first `n` files listed, those at one place: how many, and their bytes. */
  function CountAt(w: Placing, files: seq<DestFile>, n: nat, at: Place): nat
    requires n <= |files|
  {
    if n == 0 then 0 else CountAt(w, files, n - 1, at) + if w(files[n - 1].path) == at then 1 else 0
  }

  function BytesAt(w: Placing, files: seq<DestFile>, n: nat, at: Place): nat
    requires n <= |files|
  {
    if n == 0 then 0 else BytesAt(w, files, n - 1, at) + if w(files[n - 1].path) == at then files[n - 1].size else 0
  }

  function AllBytes(files: seq<DestFile>, n: nat): nat
    requires n <= |files|
  {
    if n == 0 then 0 else AllBytes(files, n - 1) + files[n - 1].size
  }

  /** Pass 1: files and bytes per range as the destination lists them. `seen` is
      what was listed so far. */
  class Tally {
    const p: Plan
    const files: array<nat>
    const bytes: array<nat>
    var outside: nat
    var destFiles: nat
    var destBytes: nat
    ghost var seen: seq<DestFile>

    ghost predicate Valid()
      reads this, files, bytes
    {
      && files != bytes && files.Length == bytes.Length == |p.ranges|
      && (forall i :: 0 <= i < files.Length ==>
            && files[i] == CountAt(Where(p), seen, |seen|, InRange(i))
            && bytes[i] == BytesAt(Where(p), seen, |seen|, InRange(i)))
      && outside == CountAt(Where(p), seen, |seen|, Outside)
      && destFiles + CountAt(Where(p), seen, |seen|, Foreign) == |seen|
      && destBytes + BytesAt(Where(p), seen, |seen|, Foreign) == AllBytes(seen, |seen|)
    }

    constructor (p: Plan)
      ensures Valid() && this.p == p && seen == [] && fresh(files) && fresh(bytes)
    {
      this.p := p;
      files := new nat[|p.ranges|](i => 0);
      bytes := new nat[|p.ranges|](i => 0);
      outside, destFiles, destBytes, seen := 0, 0, 0, [];
    }

    method Observe(path: string, size: nat)
      requires Valid()
      modifies this, files, bytes
      ensures Valid() && seen == old(seen) + [DestFile(path, size)]
    {
      ghost var was, now := seen, seen + [DestFile(path, size)];
      Grows(Where(p), was, DestFile(path, size));
      var key := SourceKey(path, p.dest, p.src);
      seen := now;
      if key.None? { return; }
      destFiles := destFiles + 1;
      destBytes := destBytes + size;
      var found := Locate.Find(p.ranges, key.value);
      if found.None? {
        outside := outside + 1;
      } else {
        var i := found.value;
        files[i] := files[i] + 1;
        bytes[i] := bytes[i] + size;
      }
    }

    /** Ranges whose count or bytes differ from the plan, in order. */
    method Suspects() returns (r: seq<nat>)
      requires Valid()
      ensures forall k :: 0 <= k < |r| ==> r[k] < |p.ranges|
      ensures forall k, l :: 0 <= k < l < |r| ==> r[k] < r[l]
      ensures forall i :: 0 <= i < |p.ranges| ==> (i in r <==> Suspect(p, seen, i))
    {
      r := [];
      for i := 0 to |p.ranges|
        invariant forall k :: 0 <= k < |r| ==> r[k] < i
        invariant forall k, l :: 0 <= k < l < |r| ==> r[k] < r[l]
        invariant forall k :: 0 <= k < i ==> (k in r <==> Suspect(p, seen, k))
      {
        if files[i] != p.ranges[i].files || bytes[i] != p.ranges[i].bytes { r := r + [i]; }
      }
    }
  }

  /** The destination lists another number of files, or of bytes, than planned. */
  predicate Suspect(p: Plan, files: seq<DestFile>, i: nat)
    requires i < |p.ranges|
  {
    || CountAt(Where(p), files, |files|, InRange(i)) != p.ranges[i].files
    || BytesAt(Where(p), files, |files|, InRange(i)) != p.ranges[i].bytes
  }

  lemma {:induction false} SameStart(w: Placing, a: seq<DestFile>, f: DestFile, n: nat, at: Place)
    requires n <= |a|
    ensures CountAt(w, a + [f], n, at) == CountAt(w, a, n, at) && BytesAt(w, a + [f], n, at) == BytesAt(w, a, n, at)
    ensures AllBytes(a + [f], n) == AllBytes(a, n)
  {
    if n > 0 {
      SameStart(w, a, f, n - 1, at);
      assert (a + [f])[n - 1] == a[n - 1];
    }
  }

  lemma {:induction false} Grows(w: Placing, a: seq<DestFile>, f: DestFile)
    ensures forall at :: CountAt(w, a + [f], |a| + 1, at) == CountAt(w, a, |a|, at) + if w(f.path) == at then 1 else 0
    ensures forall at ::
              BytesAt(w, a + [f], |a| + 1, at) == BytesAt(w, a, |a|, at) + if w(f.path) == at then f.size else 0
    ensures AllBytes(a + [f], |a| + 1) == AllBytes(a, |a|) + f.size
  {
    SameStart(w, a, f, |a|, Foreign);
    forall at ensures CountAt(w, a + [f], |a| + 1, at) == CountAt(w, a, |a|, at) + if w(f.path) == at then 1 else 0 {
      SameStart(w, a, f, |a|, at);
    }
    forall at
      ensures BytesAt(w, a + [f], |a| + 1, at) == BytesAt(w, a, |a|, at) + if w(f.path) == at then f.size else 0
    {
      SameStart(w, a, f, |a|, at);
    }
  }

  // ----- the second look at one range -----

  datatype SourceObject = SourceObject(key: string, destPath: string, size: nat)

  /** The destination as `paths-info` answers for it: files with a size. */
  type Destination = map<string, nat>

  predicate Missing(dest: Destination, o: SourceObject) { o.destPath !in dest }

  predicate Exact(dest: Destination, o: SourceObject) { o.destPath in dest && dest[o.destPath] == o.size }

  predicate Short(dest: Destination, o: SourceObject) { o.destPath in dest && dest[o.destPath] != o.size }

  function MissingOf(dest: Destination, objs: seq<SourceObject>, n: nat): seq<SourceObject>
    requires n <= |objs|
  {
    if n == 0 then []
    else MissingOf(dest, objs, n - 1) + if Missing(dest, objs[n - 1]) then [objs[n - 1]] else []
  }

  function ShortOf(dest: Destination, objs: seq<SourceObject>, n: nat): seq<(SourceObject, nat)>
    requires n <= |objs|
  {
    if n == 0 then []
    else
      var o := objs[n - 1];
      ShortOf(dest, objs, n - 1) + if Short(dest, o) then [(o, dest[o.destPath])] else []
  }

  /** Pass 2 for one range, after `objs` of it were looked up. */
  class RangeDiff {
    var present: nat
    var missing: seq<SourceObject>
    var short: seq<(SourceObject, nat)>
    var raced: seq<SourceObject>
    var extra: nat

    ghost predicate Covers(dest: Destination, objs: seq<SourceObject>, n: nat)
      reads this
    {
      && n <= |objs| && missing == MissingOf(dest, objs, n) && short == ShortOf(dest, objs, n)
      && present + |missing| + |short| == n && raced == []
    }

    constructor ()
      ensures present == extra == 0 && missing == [] && short == [] && raced == []
    {
      present, missing, short, raced, extra := 0, [], [], [], 0;
    }

    method Observe(o: SourceObject, found: Destination)
      modifies this
      ensures raced == old(raced) && extra == old(extra)
      ensures missing == old(missing) + (if Missing(found, o) then [o] else [])
      ensures short == old(short) + (if Short(found, o) then [(o, found[o.destPath])] else [])
      ensures present == old(present) + (if Exact(found, o) then 1 else 0)
    {
      if o.destPath !in found {
        missing := missing + [o];
      } else if found[o.destPath] == o.size {
        present := present + 1;
      } else {
        short := short + [(o, found[o.destPath])];
      }
    }

    predicate Failed()
      reads this
    {
      missing != [] || short != []
    }

    /** What pass 1 listed beyond the planned files that are there. */
    method SetExtra(listed: nat)
      modifies `extra
      ensures extra == if listed > present + |short| then listed - present - |short| else 0
    {
      extra := if listed < present + |short| then 0 else listed - (present + |short|);
    }
  }

  function ObjectOf(p: Plan, o: Object): SourceObject { SourceObject(o.key, Target(o.key, p.src, p.dest), o.size) }

  function ObjectsOf(p: Plan, objs: seq<Object>): (r: seq<SourceObject>)
    ensures |r| == |objs| && forall k :: 0 <= k < |objs| ==> r[k] == ObjectOf(p, objs[k])
  {
    seq(|objs|, k requires 0 <= k < |objs| => ObjectOf(p, objs[k]))
  }

  /** The planned objects of a window, as the source lists them now. */
  function RangeObjects(p: Plan, scope: Scope, pages: seq<Page>, r: PlannedRange): seq<SourceObject> {
    ObjectsOf(p, KeptOf(scope, UpTo(Listed(pages), r.stopAt)))
  }

  /** `paths-info` for one page: what the destination holds of the asked paths. */
  function PathsInfo(dest: Destination, objects: seq<SourceObject>): (found: Destination)
    ensures forall o :: o in objects ==>
              && (Missing(found, o) <==> Missing(dest, o)) && (Exact(found, o) <==> Exact(dest, o))
              && (Short(found, o) <==> Short(dest, o))
    ensures forall q :: q in found ==> q in dest && found[q] == dest[q]
  {
    map o | o in objects && o.destPath in dest :: o.destPath := dest[o.destPath]
  }

  /** Looks one page of planned objects up. */
  method LookUp(objects: seq<SourceObject>, dest: Destination, diff: RangeDiff, ghost all: seq<SourceObject>,
                ghost n: nat)
    requires n + |objects| <= |all| && (forall k :: 0 <= k < |objects| ==> objects[k] == all[n + k])
             && diff.Covers(dest, all, n)
    modifies diff
    ensures diff.Covers(dest, all, n + |objects|)
  {
    if objects == [] { return; }
    var found := PathsInfo(dest, objects);
    var k := 0;
    while k < |objects|
      invariant 0 <= k <= |objects| && diff.Covers(dest, all, n + k)
    {
      var o := objects[k];
      assert o in objects && all[n + k] == o;
      diff.Observe(o, found);
      k := k + 1;
    }
  }

  lemma {:induction false} ObjectsSlice(p: Plan, kept: seq<Object>, n: nat, page: seq<Object>)
    requires n + |page| <= |kept| && page == kept[n..n + |page|]
    ensures |ObjectsOf(p, page)| == |page|
    ensures forall k :: 0 <= k < |page| ==> ObjectsOf(p, page)[k] == ObjectsOf(p, kept)[n + k]
  {
  }

  /** The next page of a range: its objects follow the `n` looked up before. */
  lemma {:induction false} NextObjects(p: Plan, scope: Scope, pages: seq<Page>, i: nat, r: PlannedRange, n: nat,
                                       page: seq<Object>, all: seq<SourceObject>)
    requires i < |pages| && Going(pages, i, r.stopAt, scope, n)
             && page == KeptOf(scope, UpTo(Keyed(pages[i]), r.stopAt))
    requires all == RangeObjects(p, scope, pages, r)
    ensures n + |page| <= |all| && forall k :: 0 <= k < |page| ==> ObjectsOf(p, page)[k] == all[n + k]
    ensures if Below(Keyed(pages[i]), r.stopAt)
            then Going(pages, i + 1, r.stopAt, scope, n + |page|)
            else n + |page| == |all|
  {
    NextPage(pages, i, r.stopAt, scope, n, page);
    ObjectsSlice(p, KeptOf(scope, UpTo(Listed(pages), r.stopAt)), n, page);
  }

  /** The planned objects of one page, with their destination paths. */
  method PageObjects(p: Plan, scope: Scope, pages: seq<Page>, i: nat, r: PlannedRange, ghost all: seq<SourceObject>,
                     ghost n: nat)
    returns (objects: seq<SourceObject>, rangeEnd: bool)
    requires i < |pages| && Going(pages, i, r.stopAt, scope, n) && all == RangeObjects(p, scope, pages, r)
    ensures n + |objects| <= |all| && forall k :: 0 <= k < |objects| ==> objects[k] == all[n + k]
    ensures if rangeEnd then n + |objects| == |all| else Going(pages, i + 1, r.stopAt, scope, n + |objects|)
  {
    var objs;
    objs, rangeEnd := PageKeys(pages[i], r.stopAt, scope);
    NextObjects(p, scope, pages, i, r, n, objs, all);
    objects := ObjectsOf(p, objs);
  }

  /** Lists the range on the source again, with the copier's own filter, and
      looks every planned object of it up at the destination. */
  method CheckRange(p: Plan, scope: Scope, pages: seq<Page>, r: PlannedRange, dest: Destination)
    returns (diff: RangeDiff)
    ensures fresh(diff)
    ensures var all := RangeObjects(p, scope, pages, r); diff.Covers(dest, all, |all|)
  {
    diff := new RangeDiff();
    ghost var all := RangeObjects(p, scope, pages, r);
    ghost var n: nat := 0;
    assert Listed(pages[..0]) == [];
    var i: nat := 0;
    while i < |pages|
      invariant i <= |pages| && Going(pages, i, r.stopAt, scope, n)
      invariant diff.Covers(dest, all, n) && fresh(diff)
    {
      var objects, rangeEnd := PageObjects(p, scope, pages, i, r, all, n);
      LookUp(objects, dest, diff, all, n);
      n := n + |objects|;
      if rangeEnd { return; }
      i := i + 1;
    }
    LastPage(pages, r.stopAt, scope, n);
  }

  // ----- raced keys -----

  function Gone(objs: seq<SourceObject>, gone: string -> bool, want: bool): seq<SourceObject> {
    if objs == [] then []
    else Gone(objs[..|objs| - 1], gone, want) + if gone(objs[|objs| - 1].key) == want then [objs[|objs| - 1]] else []
  }

  /** HEADs the first missing keys on the source, within the budget: those that
      are gone are raced, the others stay missing, and so do the unchecked ones. */
  method SplitRaced(diff: RangeDiff, gone: string -> bool, headsLeft: nat) returns (left: nat)
    modifies diff
    ensures var was := old(diff.missing);
            var n := if |was| < headsLeft then |was| else headsLeft;
            && left == headsLeft - n
            && diff.missing == Gone(was[..n], gone, false) + was[n..]
            && diff.raced == old(diff.raced) + Gone(was[..n], gone, true)
    ensures diff.short == old(diff.short) && diff.present == old(diff.present) && diff.extra == old(diff.extra)
  {
    var n := if |diff.missing| < headsLeft then |diff.missing| else headsLeft;
    left := headsLeft - n;
    var unchecked, checked := diff.missing[n..], diff.missing[..n];
    diff.missing := [];
    for k := 0 to |checked|
      invariant diff.missing == Gone(checked[..k], gone, false)
      invariant diff.raced == old(diff.raced) + Gone(checked[..k], gone, true)
      invariant diff.short == old(diff.short) && diff.present == old(diff.present) && diff.extra == old(diff.extra)
    {
      assert checked[..k + 1][..k] == checked[..k];
      if gone(checked[k].key) {
        diff.raced := diff.raced + [checked[k]];
      } else {
        diff.missing := diff.missing + [checked[k]];
      }
    }
    assert checked[..|checked|] == checked;
    diff.missing := diff.missing + unchecked;
  }
}
