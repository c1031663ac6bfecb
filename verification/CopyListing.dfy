/** A copier's own listing of its window: page by page, with --skip-existing and
    the byte limit, and the window it may claim to have copied. */
module CopyListing {
  import opened Wrappers
  import opened Text
  import opened Keys
  import opened Listing
  import opened RangePlan
  import opened RangePartition

  // ----- one page -----

  lemma {:induction false} UpToEnds(a: seq<Object>, b: seq<Object>, stop: Option<string>)
    requires UpTo(a, stop) == a && b != [] && Past(b[0].key, stop)
    ensures UpTo(a + b, stop) == a
  {
    UpToAppend(a, b, stop);
  }

  lemma {:induction false} UpToGoesOn(a: seq<Object>, o: Object, stop: Option<string>)
    requires UpTo(a, stop) == a && !Past(o.key, stop)
    ensures UpTo(a + [o], stop) == a + [o]
  {
    UpToAppend(a, [o], stop);
  }

  /** No key past the upper bound yet. */
  ghost predicate Below(objs: seq<Object>, stop: Option<string>) { UpTo(objs, stop) == objs }

  lemma {:induction false} PageKept(scope: Scope, page: Page, j: nat)
    requires j < |page|
    ensures Keyed(page[..j + 1]) == Keyed(page[..j]) + EntryObject(page[j])
    ensures KeptOf(scope, Keyed(page[..j + 1])) == KeptOf(scope, Keyed(page[..j])) +
            if page[j].key.Some? && Kept(scope, page[j].key.value) then EntryObject(page[j]) else []
  {
    assert page[..j + 1][..j] == page[..j];
    KeptNext(scope, Keyed(page[..j]), page[j]);
  }

  lemma {:induction false} PageGoesOn(page: Page, j: nat, stop: Option<string>)
    requires j < |page| && Below(Keyed(page[..j]), stop)
             && Keyed(page[..j + 1]) == Keyed(page[..j]) + EntryObject(page[j])
    requires page[j].key.Some? ==> !Past(page[j].key.value, stop)
    ensures Below(Keyed(page[..j + 1]), stop)
  {
    if page[j].key.Some? {
      UpToGoesOn(Keyed(page[..j]), EntryObject(page[j])[0], stop);
    } else {
      assert Keyed(page[..j + 1]) == Keyed(page[..j]);
    }
  }

  lemma {:induction false} PageEnds(page: Page, j: nat, stop: Option<string>)
    requires j < |page| && Below(Keyed(page[..j]), stop)
             && Keyed(page[..j + 1]) == Keyed(page[..j]) + EntryObject(page[j])
    requires page[j].key.Some? && Past(page[j].key.value, stop)
    ensures UpTo(Keyed(page), stop) == Keyed(page[..j]) != Keyed(page)
  {
    var seen := Keyed(page[..j]);
    KeyedPrefix(page, j + 1);
    var rest := Keyed(page)[|seen|..];
    assert Keyed(page) == seen + rest && rest[0] == EntryObject(page[j])[0];
    UpToEnds(seen, rest, stop);
  }

  /** Filters one page down to the keys to copy, up to the range's upper bound. */
  method PageKeys(page: Page, stop: Option<string>, scope: Scope) returns (objs: seq<Object>, rangeEnd: bool)
    ensures objs == KeptOf(scope, UpTo(Keyed(page), stop))
    ensures rangeEnd <==> !Below(Keyed(page), stop)
  {
    objs := [];
    for j := 0 to |page|
      invariant Below(Keyed(page[..j]), stop) && objs == KeptOf(scope, Keyed(page[..j]))
    {
      PageKept(scope, page, j);
      if page[j].key.None? {
        PageGoesOn(page, j, stop);
        continue;
      }
      var key := page[j].key.value;
      if Past(key, stop) {
        PageEnds(page, j, stop);
        return objs, true;
      }
      PageGoesOn(page, j, stop);
      if FilterKey(key, scope.prefix, scope.exclude).Keep? { objs := objs + [Object(key, SizeOf(page[j]))]; }
    }
    assert page[..|page|] == page;
    rangeEnd := false;
  }

  lemma {:induction false} BelowAppend(a: seq<Object>, b: seq<Object>, rest: seq<Object>, stop: Option<string>)
    requires Below(a, stop)
    ensures Below(b, stop) ==> Below(a + b, stop) && UpTo(a + b + rest, stop) == a + b + UpTo(rest, stop)
    ensures !Below(b, stop) ==> UpTo(a + b + rest, stop) == a + UpTo(b, stop)
  {
    UpToAppend(a, b, stop);
    UpToAppend(a + b, rest, stop);
    UpToIsPrefix(b, stop);
    assert !Below(b, stop) ==> |a + UpTo(b, stop)| < |a + b|;
  }

  /** What page `i` adds to the kept keys of the window; a page with a key past
      the upper bound ends them. */
  lemma {:induction false} PageOfListing(scope: Scope, pages: seq<Page>, i: nat, stop: Option<string>)
    requires i < |pages| && Below(Listed(pages[..i]), stop)
    ensures var was, page := KeptOf(scope, Listed(pages[..i])), KeptOf(scope, UpTo(Keyed(pages[i]), stop));
            var kept := KeptOf(scope, UpTo(Listed(pages), stop));
            && was + page <= kept
            && (!Below(Keyed(pages[i]), stop) ==> was + page == kept)
            && (Below(Keyed(pages[i]), stop) ==>
                  Below(Listed(pages[..i + 1]), stop) && KeptOf(scope, Listed(pages[..i + 1])) == was + page)
  {
    var a, b := Listed(pages[..i]), Keyed(pages[i]);
    assert pages[..i + 1][..i] == pages[..i];
    ListedPrefix(pages, i + 1);
    var rest := Listed(pages)[|a + b|..];
    assert Listed(pages) == a + b + rest;
    BelowAppend(a, b, rest, stop);
    KeptAppend(scope, a, UpTo(b, stop));
    if Below(b, stop) { KeptAppend(scope, a + b, UpTo(rest, stop)); }
  }

  // ----- what is queued -----

  /** Which objects --skip-existing found at the destination, same path and
      same size; none without the flag. */
  type Existing = Object -> bool

  /** The counters of a copier's listing. */
  datatype Tally = Tally(queued: seq<Object>, acc: U64, skipped: nat, skippedBytes: nat, last: Option<string>)

  function Bump(existing: Existing, t: Tally, o: Object): Tally {
    if existing(o) then t.(skipped := t.skipped + 1, skippedBytes := t.skippedBytes + o.size, last := Some(o.key))
    else t.(queued := t.queued + [o], acc := SatAdd(t.acc, o.size), last := Some(o.key))
  }

  /** One pass over the first `n` kept objects. */
  function Pass(existing: Existing, kept: seq<Object>, n: nat): Tally
    requires n <= |kept|
  {
    if n == 0 then Tally([], 0, 0, 0, None) else Bump(existing, Pass(existing, kept, n - 1), kept[n - 1])
  }

  /** Each of the first `n` objects was there already, or found the limit not
      reached by those queued before it. */
  ghost predicate WithinLimit(existing: Existing, limit: nat, kept: seq<Object>, n: nat)
    requires n <= |kept|
  {
    n == 0 ||
    (WithinLimit(existing, limit, kept, n - 1)
     && (existing(kept[n - 1]) || limit == 0 || Pass(existing, kept, n - 1).acc < limit))
  }

  /** One more kept object is queued, or found existing. */
  lemma {:induction false} PassNext(existing: Existing, kept: seq<Object>, n: nat)
    requires n < |kept|
    ensures var was, t, o := Pass(existing, kept, n), Pass(existing, kept, n + 1), kept[n];
            && t.last == Some(o.key)
            && (|t.queued| + t.skipped == |was.queued| + was.skipped + 1)
            && Total(t.queued) + t.skippedBytes == Total(was.queued) + was.skippedBytes + o.size
            && (was.acc == SatTotalOf(was) ==> t.acc == SatTotalOf(t))
  {
    var was := Pass(existing, kept, n);
    assert (was.queued + [kept[n]])[..|was.queued|] == was.queued;
  }

  function SatTotalOf(t: Tally): nat { if Total(t.queued) > U64_MAX then U64_MAX else Total(t.queued) }

  lemma {:induction false} TotalNext(kept: seq<Object>, n: nat)
    requires n < |kept|
    ensures Total(kept[..n + 1]) == Total(kept[..n]) + kept[n].size
  {
    assert kept[..n + 1][..n] == kept[..n];
  }

  lemma {:induction false} PassAddsUp(existing: Existing, kept: seq<Object>, n: nat)
    requires n <= |kept|
    ensures var t := Pass(existing, kept, n);
            && |t.queued| + t.skipped == n && t.acc == SatTotalOf(t)
            && Total(t.queued) + t.skippedBytes == Total(kept[..n])
            && t.last == (if n == 0 then None else Some(kept[n - 1].key))
  {
    if n > 0 {
      PassAddsUp(existing, kept, n - 1);
      PassNext(existing, kept, n - 1);
      TotalNext(kept, n - 1);
    }
  }

  /** The places, among the first `n`, of the objects found at the destination or not. */
  ghost function Places(existing: Existing, kept: seq<Object>, n: nat, there: bool): set<nat>
    requires n <= |kept|
  {
    set j: nat | j < n && existing(kept[j]) == there
  }

  /** The objects that are not at the destination are queued, in order: after as many as
      come before them; the others are counted as existing. */
  ghost predicate InPlace(existing: Existing, kept: seq<Object>, n: nat, t: Tally)
    requires n <= |kept|
  {
    && |t.queued| == |Places(existing, kept, n, false)| && t.skipped == |Places(existing, kept, n, true)|
    && forall i :: 0 <= i < n && !existing(kept[i]) ==>
         var before := |Places(existing, kept, i, false)|;
         before < |t.queued| && t.queued[before] == kept[i]
  }

  /** No object was queued with the limit reached by those before it. */
  ghost predicate Allowed(limit: nat, queued: seq<Object>) {
    forall q :: 0 <= q < |queued| ==> limit == 0 || Total(queued[..q]) < limit
  }

  /** What a listing of the first `n` kept objects comes to. */
  ghost predicate Sorted(existing: Existing, limit: nat, kept: seq<Object>, n: nat, t: Tally)
    requires n <= |kept|
  {
    && InPlace(existing, kept, n, t) && Allowed(limit, t.queued)
    && t.skippedBytes + Total(t.queued) == Total(kept[..n])
    && t.acc == (if Total(t.queued) < 0xFFFF_FFFF_FFFF_FFFF then Total(t.queued) else 0xFFFF_FFFF_FFFF_FFFF)
    && t.last == (if n == 0 then None else Some(kept[n - 1].key))
  }

  lemma {:induction false} PlacesNext(existing: Existing, kept: seq<Object>, n: nat, there: bool)
    requires n < |kept|
    ensures |Places(existing, kept, n + 1, there)|
            == |Places(existing, kept, n, there)| + (if existing(kept[n]) == there then 1 else 0)
  {
    var was, now := Places(existing, kept, n, there), Places(existing, kept, n + 1, there);
    if existing(kept[n]) == there {
      assert now == was + {n} && n !in was;
    } else {
      assert now == was;
    }
  }

  lemma {:induction false} PassPlaces(existing: Existing, kept: seq<Object>, n: nat)
    requires n <= |kept|
    ensures InPlace(existing, kept, n, Pass(existing, kept, n))
  {
    if n == 0 {
      assert Places(existing, kept, 0, false) == {} && Places(existing, kept, 0, true) == {};
    } else {
      PassPlaces(existing, kept, n - 1);
      BumpPlaces(existing, kept, n - 1, Pass(existing, kept, n - 1));
    }
  }

  lemma {:induction false} BumpPlaces(existing: Existing, kept: seq<Object>, n: nat, t: Tally)
    requires n < |kept| && InPlace(existing, kept, n, t)
    ensures InPlace(existing, kept, n + 1, Bump(existing, t, kept[n]))
  {
    var more := Bump(existing, t, kept[n]);
    PlacesNext(existing, kept, n, false);
    PlacesNext(existing, kept, n, true);
    assert t.queued <= more.queued;
    assert !existing(kept[n]) ==> more.queued[|t.queued|] == kept[n];
  }

  lemma {:induction false} PassIsAllowed(existing: Existing, limit: U64, kept: seq<Object>, n: nat)
    requires n <= |kept| && WithinLimit(existing, limit, kept, n)
    ensures Allowed(limit, Pass(existing, kept, n).queued)
  {
    if n > 0 {
      var was, t := Pass(existing, kept, n - 1).queued, Pass(existing, kept, n).queued;
      PassIsAllowed(existing, limit, kept, n - 1);
      PassAddsUp(existing, kept, n - 1);
      forall q | 0 <= q < |t| ensures limit == 0 || Total(t[..q]) < limit {
        assert t[..q] == was[..q];
        assert was[..|was|] == was;
      }
    }
  }

  /** One pass queues what is to be copied, and nothing else. */
  lemma {:induction false} PassSorts(existing: Existing, limit: U64, kept: seq<Object>, n: nat)
    requires n <= |kept| && WithinLimit(existing, limit, kept, n)
    ensures Sorted(existing, limit, kept, n, Pass(existing, kept, n))
  {
    PassPlaces(existing, kept, n);
    PassIsAllowed(existing, limit, kept, n);
    PassAddsUp(existing, kept, n);
  }

  /** How far the listing came: `n` objects are counted, and it stopped before
      one to copy that found the limit reached. */
  ghost predicate Reached(existing: Existing, limit: nat, kept: seq<Object>, n: nat, t: Tally, limitHit: bool) {
    && n <= |kept| && t == Pass(existing, kept, n) && WithinLimit(existing, limit, kept, n)
    && limitHit == (n < |kept|)
    && (limitHit ==> !existing(kept[n]) && 0 < limit <= t.acc)
  }

  /** Queues what is left of a page: the kept objects from `at` on. */
  method QueuePage(page: seq<Object>, existing: Existing, limit: nat, start: Tally, ghost kept: seq<Object>,
                   ghost at: nat)
    returns (t: Tally, limitHit: bool, ghost n: nat)
    requires at + |page| <= |kept| && page == kept[at..at + |page|]
    requires start == Pass(existing, kept, at) && WithinLimit(existing, limit, kept, at)
    ensures at <= n <= at + |page| && t == Pass(existing, kept, n) && WithinLimit(existing, limit, kept, n)
    ensures limitHit == (n < at + |page|)
    ensures limitHit ==> !existing(kept[n]) && 0 < limit <= t.acc
  {
    t, n := start, at;
    for j := 0 to |page|
      invariant n == at + j && t == Pass(existing, kept, n) && WithinLimit(existing, limit, kept, n)
    {
      var o := page[j];
      assert o == kept[n];
      if existing(o) {
        t := t.(skipped := t.skipped + 1, skippedBytes := t.skippedBytes + o.size, last := Some(o.key));
      } else {
        if limit > 0 && t.acc >= limit { return t, true, n; }
        t := t.(queued := t.queued + [o], acc := SatAdd(t.acc, o.size), last := Some(o.key));
      }
      n := n + 1;
    }
    limitHit := false;
  }

  /** The kept keys of the first `i` pages are the first `n`, all below the
      upper bound. */
  ghost predicate Going(pages: seq<Page>, i: nat, stop: Option<string>, scope: Scope, n: nat)
    requires i <= |pages|
  {
    Below(Listed(pages[..i]), stop) && n == |KeptOf(scope, Listed(pages[..i]))|
  }

  /** The next page holds the kept keys from `n` on; they are the last ones if a
      key of it is past the upper bound. */
  lemma {:induction false} NextPage(pages: seq<Page>, i: nat, stop: Option<string>, scope: Scope, n: nat,
                                    page: seq<Object>)
    requires i < |pages| && Going(pages, i, stop, scope, n) && page == KeptOf(scope, UpTo(Keyed(pages[i]), stop))
    ensures var kept := KeptOf(scope, UpTo(Listed(pages), stop));
            && n + |page| <= |kept| && page == kept[n..n + |page|]
            && (if Below(Keyed(pages[i]), stop) then Going(pages, i + 1, stop, scope, n + |page|)
                else n + |page| == |kept|)
  {
    PageOfListing(scope, pages, i, stop);
    var was, kept := KeptOf(scope, Listed(pages[..i])), KeptOf(scope, UpTo(Listed(pages), stop));
    assert was + page == kept[..n + |page|];
    assert (was + page)[n..] == page;
  }

  lemma {:induction false} LastPage(pages: seq<Page>, stop: Option<string>, scope: Scope, n: nat)
    requires Going(pages, |pages|, stop, scope, n)
    ensures n == |KeptOf(scope, UpTo(Listed(pages), stop))|
  {
    assert pages[..|pages|] == pages;
  }

  /** Lists the window page by page and queues what is to be copied. Whatever the
      pages, of the kept keys of the window, up to where it stopped, those already at
      the destination are counted as such, the others are queued in order, and the limit
      stops before the first one to copy that finds it reached. Existing files do not use
      the limit up. */
  method List(pages: seq<Page>, stop: Option<string>, scope: Scope, existing: Existing, limit: U64)
    returns (t: Tally, limitHit: bool, ghost n: nat)
    ensures var kept := KeptOf(scope, UpTo(Listed(pages), stop));
            && n <= |kept| && Sorted(existing, limit, kept, n, t) && limitHit == (n < |kept|)
            && (limitHit ==> !existing(kept[n]) && 0 < limit <= t.acc)
    ensures Reached(existing, limit, KeptOf(scope, UpTo(Listed(pages), stop)), n, t, limitHit)
  {
    ghost var kept := KeptOf(scope, UpTo(Listed(pages), stop));
    t, limitHit, n := Tally([], 0, 0, 0, None), false, 0;
    assert Listed(pages[..0]) == [];
    var i := 0;
    while i < |pages|
      invariant !limitHit && i <= |pages| && Going(pages, i, stop, scope, n)
      invariant n <= |kept| && t == Pass(existing, kept, n) && WithinLimit(existing, limit, kept, n)
    {
      var page, rangeEnd := PageKeys(pages[i], stop, scope);
      NextPage(pages, i, stop, scope, n, page);
      t, limitHit, n := QueuePage(page, existing, limit, t, kept, n);
      if limitHit || rangeEnd { break; }
      i := i + 1;
    }
    if i == |pages| { LastPage(pages, stop, scope, n); }
    PassSorts(existing, limit, kept, n);
  }

  // ----- the copied window -----

  function CopiedWindow(after: Option<string>, stop: Option<string>, limitCut: Option<string>,
                        copied: (nat, nat), existing: (nat, nat)): PlannedRange
  {
    PlannedRange(after, if limitCut.Some? then limitCut else stop, copied.0 + existing.0, copied.1 + existing.1)
  }

  /** The window a copy reports after its listing. */
  function Reported(after: Option<string>, stop: Option<string>, t: Tally, limitHit: bool): PlannedRange {
    CopiedWindow(after, stop, if limitHit then t.last else None, (|t.queued|, t.acc), (t.skipped, t.skippedBytes))
  }

  lemma {:induction false} CutIsIn(key: string, after: Option<string>, stop: Option<string>, cut: string)
    requires stop.Some? ==> AtMost(cut, stop.value)
    ensures InWindow(key, after, Some(cut)) <==> InWindow(key, after, stop) && InWindow(key, None, Some(cut))
  {
    if stop.Some? && Less(key, cut) && cut != stop.value { LessTransitive(key, cut, stop.value); }
  }

  lemma {:induction false} WindowShrinks(objs: seq<Object>, after: Option<string>, stop: Option<string>, cut: string)
    requires stop.Some? ==> AtMost(cut, stop.value)
    ensures Window(Window(objs, after, stop), None, Some(cut)) == Window(objs, after, Some(cut))
  {
    if objs != [] {
      var front, o := objs[..|objs| - 1], objs[|objs| - 1];
      assert objs == front + [o];
      WindowShrinks(front, after, stop, cut);
      CutIsIn(o.key, after, stop, cut);
      WindowOneMore(front, o, after, stop);
      WindowOneMore(front, o, after, Some(cut));
      WindowOneMore(Window(front, after, stop), o, None, Some(cut));
    }
  }

  lemma {:induction false} WindowUpToPlace(objs: seq<Object>, after: Option<string>, stop: Option<string>,
                                           w: seq<Object>, n: nat)
    requires w == Window(objs, after, stop) && 0 < n <= |w| && Ascending(objs)
    ensures Window(objs, after, Some(w[n - 1].key)) == w[..n]
  {
    WindowAscends(objs, after, stop);
    assert w[n - 1] in w;
    WindowShrinks(objs, after, stop, w[n - 1].key);
    WindowBetween(w, 0, n);
  }

  /** The window a single-process copy hands to the destination check is exact:
      listed again from the unchanged source it holds just the objects the copy
      queued or found existing, as many as it says, with the bytes it says.
      That is so also when the limit cut the listing. */
  lemma {:induction false} CopiedWindowIsExact(scope: Scope, all: seq<Object>, pages: seq<Page>, after: Option<string>,
                                               stop: Option<string>, existing: Existing, limit: nat, n: nat, t: Tally,
                                               limitHit: bool)
    requires Ascending(all) && Listed(pages) == Window(all, after, None)
    requires Reached(existing, limit, KeptOf(scope, UpTo(Listed(pages), stop)), n, t, limitHit)
    requires Total(t.queued) <= U64_MAX
    ensures var kept, w := KeptOf(scope, UpTo(Listed(pages), stop)), Reported(after, stop, t, limitHit);
            && n <= |kept| && CopierList(scope, all, w) == kept[..n]
            && w.files == n && w.bytes == Total(kept[..n])
  {
    var kept, w := KeptOf(scope, UpTo(Listed(pages), stop)), Reported(after, stop, t, limitHit);
    PassAddsUp(existing, kept, n);
    SameWindow(scope, all, after, stop, kept, n, w);
  }

  lemma {:induction false} SameWindow(scope: Scope, all: seq<Object>, after: Option<string>, stop: Option<string>,
                                      kept: seq<Object>, n: nat, w: PlannedRange)
    requires Ascending(all) && kept == KeptOf(scope, UpTo(Window(all, after, None), stop)) && n <= |kept|
    requires w.startAfter == after
    requires if n < |kept| then n > 0 && w.stopAt == Some(kept[n - 1].key) else w.stopAt == stop
    ensures CopierList(scope, all, w) == kept[..n]
  {
    CopierListIsWindow(scope, all, PlannedRange(after, stop, 0, 0));
    CopierListIsWindow(scope, all, w);
    KeptAscends(scope, all);
    if n < |kept| { WindowUpToPlace(KeptOf(scope, all), after, stop, kept, n); } else { assert kept[..n] == kept; }
  }
}
