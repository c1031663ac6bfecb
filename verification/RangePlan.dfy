/** The planner's cut of the source into ranges: one pass over the listing, a
    range closed when it is full, and the windows its copiers get. */
module RangePlan {
  import opened Wrappers
  import opened Keys
  import opened Listing

  const SMALL_FILE_BYTES: nat := 16 * 1024 * 1024
  const COMMIT_HEAVY_AVG_FILE_BYTES: nat := 4 * 1024 * 1024
  const BIG_FILE_S3_PART_CONCURRENCY: nat := 128

  /** 0 means no limit. */
  datatype Config = Config(limitBytes: U64, rangeBytes: U64, rangeKeys: nat, partConcurrency: nat)

  datatype Tuning = Tuning(parallelFiles: nat, highPerf: bool, commitHeavy: bool, partConcurrency: nat)

  datatype Range = Range(idx: nat, startAfter: Option<string>, stopAt: string, files: nat, bytes: U64, tuning: Tuning)

  predicate Full(c: Config, files: nat, bytes: U64) {
    (c.rangeBytes > 0 && bytes >= c.rangeBytes) || (c.rangeKeys > 0 && files >= c.rangeKeys)
  }

  function SmallFiles(objs: seq<Object>): nat {
    if objs == [] then 0
    else SmallFiles(objs[..|objs| - 1]) + if objs[|objs| - 1].size <= SMALL_FILE_BYTES then 1 else 0
  }

  /** How a range's copier runs: by the majority of its files, and by their
      average size. */
  ghost predicate TunedFor(c: Config, objs: seq<Object>, t: Tuning)
    requires objs != []
  {
    && t.highPerf == (2 * SmallFiles(objs) >= |objs|)
    && t.parallelFiles == (if t.highPerf then 128 else 32)
    && t.commitHeavy == (SatTotal(objs) < (COMMIT_HEAVY_AVG_FILE_BYTES + 1) * |objs|)
    && t.partConcurrency >= c.partConcurrency
    && (t.highPerf ==> t.partConcurrency == c.partConcurrency)
    && (!t.highPerf ==> t.partConcurrency >= BIG_FILE_S3_PART_CONCURRENCY)
    && (t.partConcurrency == c.partConcurrency || t.partConcurrency == BIG_FILE_S3_PART_CONCURRENCY)
  }

  /** How many files the first `n` ranges hold: where the next one starts. */
  ghost function Offset(ranges: seq<Range>, n: nat): nat
    requires n <= |ranges|
  {
    if n == 0 then 0 else Offset(ranges, n - 1) + ranges[n - 1].files
  }

  lemma {:induction false} OffsetPrefix(ranges: seq<Range>, more: seq<Range>, n: nat)
    requires n <= |ranges|
    ensures Offset(ranges + more, n) == Offset(ranges, n)
  {
    if n > 0 { OffsetPrefix(ranges, more, n - 1); }
  }

  /** Range `i` holds the next `files` objects: it ends at the last one's key,
      starts where the range before it ends, and was not full before its last
      object. */
  ghost predicate RangeIs(c: Config, objs: seq<Object>, ranges: seq<Range>, i: nat)
    requires i < |ranges|
  {
    var r, a, b := ranges[i], Offset(ranges, i), Offset(ranges, i + 1);
    && r.idx == i && r.files >= 1 && b <= |objs|
    && r.stopAt == objs[b - 1].key
    && r.startAfter == (if i == 0 then None else Some(ranges[i - 1].stopAt))
    && r.bytes == SatTotal(objs[a..b])
    && !Full(c, r.files - 1, SatTotal(objs[a..b - 1]))
    && TunedFor(c, objs[a..b], r.tuning)
  }

  ghost predicate RangesAre(c: Config, objs: seq<Object>, ranges: seq<Range>) {
    forall i :: 0 <= i < |ranges| ==> RangeIs(c, objs, ranges, i)
  }

  /** All but the last `short` ranges were closed full. */
  ghost predicate ClosedFull(c: Config, ranges: seq<Range>, short: nat) {
    forall i :: 0 <= i < |ranges| - short ==> Full(c, ranges[i].files, ranges[i].bytes)
  }

  /** The ranges cut `objs` into consecutive pieces, each closed by the object
      that filled it; only the last one may be short. */
  ghost predicate PlanOf(c: Config, objs: seq<Object>, ranges: seq<Range>) {
    RangesAre(c, objs, ranges) && Offset(ranges, |ranges|) == |objs| && ClosedFull(c, ranges, 1)
  }

  /** The limit stops the listing at the first object with `limit` bytes kept
      before it. */
  ghost predicate CutAt(limit: nat, objs: seq<Object>, n: nat) {
    && n <= |objs|
    && (forall j :: 0 <= j < n ==> limit == 0 || SatTotal(objs[..j]) < limit)
    && (n < |objs| ==> limit > 0 && SatTotal(objs[..n]) >= limit)
  }

  lemma {:induction false} RangesExtend(c: Config, objs: seq<Object>, o: Object, ranges: seq<Range>)
    requires RangesAre(c, objs, ranges)
    ensures RangesAre(c, objs + [o], ranges)
  {
    forall i | 0 <= i < |ranges| ensures RangeIs(c, objs + [o], ranges, i) {
      assert RangeIs(c, objs, ranges, i);
      var a, b := Offset(ranges, i), Offset(ranges, i + 1);
      assert (objs + [o])[a..b] == objs[a..b] && (objs + [o])[a..b - 1] == objs[a..b - 1];
    }
  }

  lemma {:induction false} RangeStays(c: Config, objs: seq<Object>, ranges: seq<Range>, r: Range, i: nat)
    requires i < |ranges| && RangeIs(c, objs, ranges, i)
    ensures RangeIs(c, objs, ranges + [r], i)
  {
    OffsetPrefix(ranges, [r], i);
    OffsetPrefix(ranges, [r], i + 1);
  }

  lemma {:induction false} RangesAppend(c: Config, objs: seq<Object>, ranges: seq<Range>, r: Range)
    requires RangesAre(c, objs, ranges)
    requires RangeIs(c, objs, ranges + [r], |ranges|)
    ensures RangesAre(c, objs, ranges + [r])
  {
    forall i | 0 <= i < |ranges + [r]| ensures RangeIs(c, objs, ranges + [r], i) {
      if i < |ranges| { RangeStays(c, objs, ranges, r, i); }
    }
  }

  lemma {:induction false} AverageBelow(bytes: nat, files: nat, limit: nat)
    requires files >= 1
    ensures bytes / files <= limit <==> bytes < (limit + 1) * files
  {
    var q := bytes / files;
    assert q * files <= bytes < (q + 1) * files;
    if q <= limit {
      assert (q + 1) * files <= (limit + 1) * files;
    } else {
      assert q * files >= (limit + 1) * files;
    }
  }

  /** What the planner knows of the range it is filling, `objs` from `start` on. */
  ghost predicate CurrentIs(objs: seq<Object>, start: nat, files: nat, bytes: U64, le16: nat) {
    start + files == |objs| && bytes == SatTotal(objs[start..]) && le16 == SmallFiles(objs[start..])
  }

  /** The ranges closed so far and the one being filled, after `objs`. */
  ghost predicate Tracks(c: Config, objs: seq<Object>, ranges: seq<Range>, files: nat, bytes: U64, le16: nat) {
    && RangesAre(c, objs, ranges)
    && CurrentIs(objs, Offset(ranges, |ranges|), files, bytes, le16)
  }

  lemma {:induction false} TracksGrows(c: Config, objs: seq<Object>, ranges: seq<Range>, files: nat, bytes: U64,
                                       le16: nat, o: Object)
    requires Tracks(c, objs, ranges, files, bytes, le16)
    ensures Tracks(c, objs + [o], ranges, files + 1, SatAdd(bytes, o.size),
                   le16 + if o.size <= SMALL_FILE_BYTES then 1 else 0)
    ensures var a := Offset(ranges, |ranges|); a <= |objs| && SatTotal((objs + [o])[a..|objs|]) == bytes
  {
    RangesExtend(c, objs, o, ranges);
    var a := Offset(ranges, |ranges|);
    assert (objs + [o])[a..] == objs[a..] + [o] && (objs + [o])[a..|objs|] == objs[a..];
    assert (objs[a..] + [o])[..|objs[a..]|] == objs[a..];
  }

  lemma {:induction false} NothingYet(c: Config)
    ensures Tracks(c, [], [], 0, 0, 0) && ClosedFull(c, [], 0)
  {
  }

  function Lowest(files: nat): nat { if files == 0 then 1 else files }

  function TuningFor(c: Config, files: nat, bytes: U64, le16: nat): Tuning {
    var small := le16 * 2 >= Lowest(files);
    Tuning(if small then 128 else 32, small, bytes / Lowest(files) <= COMMIT_HEAVY_AVG_FILE_BYTES,
           if small || c.partConcurrency >= BIG_FILE_S3_PART_CONCURRENCY then c.partConcurrency
           else BIG_FILE_S3_PART_CONCURRENCY)
  }

  lemma {:induction false} TuningFits(c: Config, objs: seq<Object>)
    requires objs != []
    ensures TunedFor(c, objs, TuningFor(c, |objs|, SatTotal(objs), SmallFiles(objs)))
  {
    AverageBelow(SatTotal(objs), |objs|, COMMIT_HEAVY_AVG_FILE_BYTES);
  }

  /** The range being filled, closed where the objects end, is the next range. */
  lemma {:induction false} CutIsNext(c: Config, objs: seq<Object>, ranges: seq<Range>, files: nat, bytes: U64,
                                     le16: nat, r: Range)
    requires RangesAre(c, objs, ranges) && files >= 1
    requires CurrentIs(objs, Offset(ranges, |ranges|), files, bytes, le16)
    requires !Full(c, files - 1, SatTotal(objs[Offset(ranges, |ranges|)..|objs| - 1]))
    requires r.idx == |ranges| && r.files == files && r.bytes == bytes && r.tuning == TuningFor(c, files, bytes, le16)
    requires r.stopAt == objs[|objs| - 1].key
    requires r.startAfter == (if ranges == [] then None else Some(ranges[|ranges| - 1].stopAt))
    ensures RangesAre(c, objs, ranges + [r]) && Offset(ranges + [r], |ranges + [r]|) == |objs|
  {
    var a := Offset(ranges, |ranges|);
    OffsetPrefix(ranges, [r], |ranges|);
    assert objs[a..|objs|] == objs[a..];
    TuningFits(c, objs[a..]);
    assert RangeIs(c, objs, ranges + [r], |ranges|);
    RangesAppend(c, objs, ranges, r);
  }

  /** No proper prefix of the objects reaches the limit. */
  ghost predicate NotReached(limit: nat, objs: seq<Object>) {
    forall j :: 0 <= j < |objs| ==> limit == 0 || SatTotal(objs[..j]) < limit
  }

  lemma {:induction false} NotReachedGrows(limit: nat, objs: seq<Object>, o: Object)
    requires NotReached(limit, objs) && (limit == 0 || SatTotal(objs) < limit)
    ensures NotReached(limit, objs + [o]) && SatTotal(objs + [o]) == SatAdd(SatTotal(objs), o.size)
  {
    forall j | 0 <= j < |objs + [o]| ensures limit == 0 || SatTotal((objs + [o])[..j]) < limit {
      assert (objs + [o])[..j] == objs[..j];
      assert objs[..|objs|] == objs;
    }
    assert (objs + [o])[..|objs|] == objs;
  }

  function LastKey(objs: seq<Object>): Option<string> {
    if objs == [] then None else Some(objs[|objs| - 1].key)
  }

  function EntryObject(e: Entry): seq<Object> {
    if e.key.Some? then [Object(e.key.value, SizeOf(e))] else []
  }

  lemma {:induction false} KeptNext(s: Scope, a: seq<Object>, e: Entry)
    ensures KeptOf(s, a + EntryObject(e)) ==
            if e.key.Some? && Kept(s, e.key.value) then KeptOf(s, a) + [Object(e.key.value, SizeOf(e))]
            else KeptOf(s, a)
  {
    var o := EntryObject(e);
    if o == [] {
      assert a + o == a;
    } else {
      assert (a + o)[..|a + o| - 1] == a;
      assert KeptOf(s, a) + [] == KeptOf(s, a);
    }
  }

  lemma {:induction false} KeptPrefix(s: Scope, a: seq<Object>, b: seq<Object>)
    requires a <= b
    ensures KeptOf(s, a) <= KeptOf(s, b)
  {
    assert b == a + b[|a|..];
    KeptAppend(s, a, b[|a|..]);
  }

  /** What one more entry adds to the kept objects; the rest of the page cannot
      take it back. */
  lemma {:induction false} NextEntry(s: Scope, before: seq<Object>, page: Page, j: nat)
    requires j < |page|
    ensures var was, now := KeptOf(s, before + Keyed(page[..j])), KeptOf(s, before + Keyed(page[..j + 1]));
            && now == (if page[j].key.Some? && Kept(s, page[j].key.value)
                       then was + [Object(page[j].key.value, SizeOf(page[j]))] else was)
            && now <= KeptOf(s, before + Keyed(page))
  {
    assert page[..j + 1][..j] == page[..j];
    assert before + Keyed(page[..j + 1]) == before + Keyed(page[..j]) + EntryObject(page[j]);
    KeptNext(s, before + Keyed(page[..j]), page[j]);
    KeyedPrefix(page, j + 1);
    KeptPrefix(s, before + Keyed(page[..j + 1]), before + Keyed(page));
  }

  lemma {:induction false} KeyedPrefix(page: Page, j: nat)
    requires j <= |page|
    ensures Keyed(page[..j]) <= Keyed(page)
  {
    if j < |page| {
      KeyedPrefix(page[..|page| - 1], j);
      assert page[..|page| - 1][..j] == page[..j];
    } else {
      assert page[..j] == page;
    }
  }

  lemma {:induction false} ListedPrefix(pages: seq<Page>, i: nat)
    requires i <= |pages|
    ensures Listed(pages[..i]) <= Listed(pages)
  {
    if i < |pages| {
      ListedPrefix(pages[..|pages| - 1], i);
      assert pages[..|pages| - 1][..i] == pages[..i];
    } else {
      assert pages[..i] == pages;
    }
  }

  lemma {:induction false} ListedUpTo(s: Scope, pages: seq<Page>, i: nat)
    requires i < |pages|
    ensures Listed(pages[..i + 1]) == Listed(pages[..i]) + Keyed(pages[i])
    ensures KeptOf(s, Listed(pages[..i + 1])) <= KeptOf(s, Listed(pages))
  {
    assert pages[..i + 1][..i] == pages[..i];
    ListedPrefix(pages, i + 1);
    KeptPrefix(s, Listed(pages[..i + 1]), Listed(pages));
  }

  lemma {:induction false} CutThere(limit: nat, objs: seq<Object>, kept: seq<Object>)
    requires NotReached(limit, objs) && objs <= kept
    requires objs < kept ==> 0 < limit <= SatTotal(objs)
    ensures CutAt(limit, kept, |objs|)
  {
    assert forall j :: 0 <= j <= |objs| ==> kept[..j] == objs[..j];
    assert objs[..|objs|] == objs;
  }

  /** Fewer objects than the current ones do not fill the range either. */
  lemma {:induction false} NotFullBefore(c: Config, objs: seq<Object>, start: nat, files: nat, bytes: U64, le16: nat)
    requires CurrentIs(objs, start, files, bytes, le16) && files >= 1 && !Full(c, files, bytes)
    ensures !Full(c, files - 1, SatTotal(objs[start..|objs| - 1]))
  {
    assert objs[start..][..files - 1] == objs[start..|objs| - 1];
  }

  /** The listing half of the planner. `done` is every object folded in so far. */
  class Planner {
    const c: Config
    var ranges: seq<Range>
    var rangeIdx: nat
    var curStartAfter: Option<string>
    var curFiles: nat
    var curBytes: U64
    var curLe16: nat
    ghost var done: seq<Object>

    ghost predicate Valid()
      reads this
    {
      && Tracks(c, done, ranges, curFiles, curBytes, curLe16) && rangeIdx == |ranges|
      && curStartAfter == (if ranges == [] then None else Some(ranges[|ranges| - 1].stopAt))
    }

    /** Between two objects: every range so far was closed full, and the one
        being filled is not full. */
    ghost predicate Filling()
      reads this
    {
      Valid() && !Full(c, curFiles, curBytes) && ClosedFull(c, ranges, 0)
    }

    constructor (c: Config)
      ensures this.c == c && Filling() && ranges == [] && done == []
    {
      this.c := c;
      ranges, rangeIdx, curStartAfter, curFiles, curBytes, curLe16, done := [], 0, None, 0, 0, 0, [];
      new;
      NothingYet(c);
    }

    /** Closes the current range at its last object, and opens the next one. */
    method Cut(stopAt: string)
      requires Valid() && curFiles >= 1 && stopAt == done[|done| - 1].key
      requires !Full(c, curFiles - 1, SatTotal(done[Offset(ranges, |ranges|)..|done| - 1]))
      modifies this
      ensures Valid() && done == old(done) && curFiles == curBytes == 0
      ensures |ranges| == |old(ranges)| + 1 && ranges[..|old(ranges)|] == old(ranges)
      ensures ranges[|old(ranges)|].files == old(curFiles) && ranges[|old(ranges)|].bytes == old(curBytes)
    {
      var small := curLe16 * 2 >= Lowest(curFiles);
      var pf := if small then 128 else 32;
      var commitHeavy := curBytes / Lowest(curFiles) <= COMMIT_HEAVY_AVG_FILE_BYTES;
      var concurrency :=
        if small || c.partConcurrency >= BIG_FILE_S3_PART_CONCURRENCY then c.partConcurrency
        else BIG_FILE_S3_PART_CONCURRENCY;
      var r := Range(rangeIdx, curStartAfter, stopAt, curFiles, curBytes, Tuning(pf, small, commitHeavy, concurrency));
      CutIsNext(c, done, ranges, curFiles, curBytes, curLe16, r);
      ranges := ranges + [r];
      rangeIdx := rangeIdx + 1;
      curStartAfter := Some(stopAt);
      curFiles, curBytes, curLe16 := 0, 0, 0;
    }

    /** Counts one listed object in. */
    method Count(key: string, size: nat)
      requires Valid()
      modifies `curFiles, `curBytes, `curLe16, `done
      ensures Valid() && done == old(done) + [Object(key, size)] && curFiles == old(curFiles) + 1
      ensures curBytes == SatAdd(old(curBytes), size)
      ensures Offset(ranges, |ranges|) < |done| && SatTotal(done[Offset(ranges, |ranges|)..|done| - 1]) == old(curBytes)
    {
      TracksGrows(c, done, ranges, curFiles, curBytes, curLe16, Object(key, size));
      curFiles := curFiles + 1;
      curBytes := SatAdd(curBytes, size);
      if size <= SMALL_FILE_BYTES { curLe16 := curLe16 + 1; }
      done := done + [Object(key, size)];
    }

    /** Folds one listed object into the current range, and closes it if it is
        full now. */
    method Add(key: string, size: nat)
      requires Filling()
      modifies this
      ensures Filling() && done == old(done) + [Object(key, size)]
    {
      Count(key, size);
      var byBytes := c.rangeBytes > 0 && curBytes >= c.rangeBytes;
      var byKeys := c.rangeKeys > 0 && curFiles >= c.rangeKeys;
      if byBytes || byKeys {
        Cut(key);
        assert forall i :: 0 <= i < |old(ranges)| ==> ranges[i] == old(ranges)[i];
      }
    }

    /** One page of the listing: its kept objects are folded in, up to the
        limit. */
    method AddPage(page: Page, scope: Scope, keptBytes: U64, lastKey: Option<string>, ghost before: seq<Object>)
      returns (bytes: U64, last: Option<string>, limitHit: bool)
      requires Filling() && done == KeptOf(scope, before) && NotReached(c.limitBytes, done)
      requires keptBytes == SatTotal(done) && lastKey == LastKey(done)
      modifies this
      ensures Filling() && NotReached(c.limitBytes, done) && bytes == SatTotal(done) && last == LastKey(done)
      ensures if limitHit then done < KeptOf(scope, before + Keyed(page)) && 0 < c.limitBytes <= SatTotal(done)
              else done == KeptOf(scope, before + Keyed(page))
    {
      bytes, last, limitHit := keptBytes, lastKey, false;
      assert before + [] == before;
      for j := 0 to |page|
        invariant Filling() && NotReached(c.limitBytes, done) && done == KeptOf(scope, before + Keyed(page[..j]))
        invariant bytes == SatTotal(done) && last == LastKey(done)
      {
        NextEntry(scope, before, page, j);
        if page[j].key.None? { continue; }
        var key := page[j].key.value;
        if !FilterKey(key, scope.prefix, scope.exclude).Keep? { continue; }
        if c.limitBytes > 0 && bytes >= c.limitBytes { return bytes, last, true; }
        var size := SizeOf(page[j]);
        NotReachedGrows(c.limitBytes, done, Object(key, size));
        bytes := SatAdd(bytes, size);
        last := Some(key);
        Add(key, size);
      }
      assert page[..|page|] == page;
    }

    /** Closes the final, partial range. */
    method Close(lastKey: Option<string>)
      requires Filling() && lastKey == LastKey(done)
      modifies this
      ensures done == old(done) && PlanOf(c, done, ranges)
    {
      if curFiles > 0 && lastKey.Some? {
        NotFullBefore(c, done, Offset(ranges, |ranges|), curFiles, curBytes, curLe16);
        Cut(lastKey.value);
        assert forall k :: 0 <= k < |old(ranges)| ==> ranges[k] == old(ranges)[k];
      }
    }

    /** Lists the source once, in any pages, and cuts it. The objects planned
        are the kept ones, in order, up to the limit; the ranges partition
        exactly those. */
    method Run(pages: seq<Page>, scope: Scope) returns (limitHit: bool)
      requires Filling() && ranges == [] && done == []
      modifies this
      ensures var kept := KeptOf(scope, Listed(pages));
              && done <= kept && CutAt(c.limitBytes, kept, |done|) && limitHit == (|done| < |kept|)
      ensures PlanOf(c, done, ranges)
    {
      var keptBytes, lastKey, i := 0, None, 0;
      limitHit := false;
      NotReachedGrows(c.limitBytes, [], Object("", 0));
      while i < |pages| && !limitHit
        invariant i <= |pages| && Filling() && NotReached(c.limitBytes, done)
        invariant keptBytes == SatTotal(done) && lastKey == LastKey(done)
        invariant limitHit ==> done < KeptOf(scope, Listed(pages)) && 0 < c.limitBytes <= SatTotal(done)
        invariant !limitHit ==> done == KeptOf(scope, Listed(pages[..i]))
      {
        ListedUpTo(scope, pages, i);
        keptBytes, lastKey, limitHit := AddPage(pages[i], scope, keptBytes, lastKey, Listed(pages[..i]));
        i := i + 1;
      }
      assert pages[..|pages|] == pages;
      CutThere(c.limitBytes, done, KeptOf(scope, Listed(pages)));
      Close(lastKey);
    }
  }
}
