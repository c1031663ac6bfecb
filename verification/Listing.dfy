/** Listings of the source: pages of objects in key order, the window of a
    range, the keys that are kept, and the copier's listing loop. */
module Listing {
  import opened Wrappers
  import opened Text
  import opened Keys

  datatype Object = Object(key: string, size: nat)

  /** A listed entry, as the API types it. */
  datatype Entry = Entry(key: Option<string>, size: Option<int>)

  type Page = seq<Entry>

  /** Which keys are copied: under the prefix, representable, not excluded. */
  datatype Scope = Scope(prefix: string, exclude: Exclude)

  predicate Kept(s: Scope, key: string) { FilterKey(key, s.prefix, s.exclude).Keep? }

  function SizeOf(e: Entry): nat { if e.size.Some? && e.size.value > 0 then e.size.value else 0 }

  /** The objects of a page; entries without a key are passed over. */
  function Keyed(page: Page): seq<Object> {
    if page == [] then []
    else
      var e := page[|page| - 1];
      Keyed(page[..|page| - 1]) + if e.key.Some? then [Object(e.key.value, SizeOf(e))] else []
  }

  /** The entries with a key among the first `j` of a page. */
  ghost function WithKey(page: Page, j: nat): set<nat>
    requires j <= |page|
  {
    set i: nat | i < j && page[i].key.Some?
  }

  lemma {:induction false} WithKeyNext(page: Page, j: nat)
    requires j < |page|
    ensures |WithKey(page, j + 1)| == |WithKey(page, j)| + (if page[j].key.Some? then 1 else 0)
  {
    if page[j].key.Some? {
      assert WithKey(page, j + 1) == WithKey(page, j) + {j} && j !in WithKey(page, j);
    } else {
      assert WithKey(page, j + 1) == WithKey(page, j);
    }
  }

  lemma {:induction false} KeyedCount(page: Page)
    ensures |Keyed(page)| == |WithKey(page, |page|)|
  {
    if page == [] {
      assert WithKey(page, 0) == {};
    } else {
      var n := |page| - 1;
      KeyedCount(page[..n]);
      assert WithKey(page[..n], n) == WithKey(page, n);
      WithKeyNext(page, n);
    }
  }

  /** The objects of a page are its entries that have a key, in order; one without a
      size, or with a negative one, counts as empty. */
  lemma {:induction false} PageIs(page: Page, j: nat)
    requires j < |page| && page[j].key.Some?
    ensures |Keyed(page)| == |WithKey(page, |page|)|
    ensures var n, size := |WithKey(page, j)|, page[j].size;
            && n < |Keyed(page)| && Keyed(page)[n].key == page[j].key.value
            && (if size.Some? && size.value >= 0 then Keyed(page)[n].size == size.value else Keyed(page)[n].size == 0)
  {
    var n := |page| - 1;
    KeyedCount(page);
    KeyedCount(page[..n]);
    assert WithKey(page[..n], n) == WithKey(page, n);
    if j < n {
      PageIs(page[..n], j);
      assert WithKey(page[..n], j) == WithKey(page, j);
    }
  }

  function Listed(pages: seq<Page>): seq<Object> {
    if pages == [] then [] else Listed(pages[..|pages| - 1]) + Keyed(pages[|pages| - 1])
  }

  function KeptOf(s: Scope, objs: seq<Object>): seq<Object> {
    if objs == [] then []
    else
      var o := objs[|objs| - 1];
      KeptOf(s, objs[..|objs| - 1]) + if Kept(s, o.key) then [o] else []
  }

  /** Strictly ascending keys: how S3 lists. */
  ghost predicate Ascending(objs: seq<Object>) {
    forall i, j :: 0 <= i < j < |objs| ==> Less(objs[i].key, objs[j].key)
  }

  /** After the exclusive lower bound, up to the inclusive upper bound. */
  predicate InWindow(key: string, after: Option<string>, stop: Option<string>) {
    (after.None? || Less(after.value, key)) && (stop.None? || AtMost(key, stop.value))
  }

  function Window(objs: seq<Object>, after: Option<string>, stop: Option<string>): seq<Object> {
    if objs == [] then []
    else
      var o := objs[|objs| - 1];
      Window(objs[..|objs| - 1], after, stop) + if InWindow(o.key, after, stop) then [o] else []
  }

  predicate Past(key: string, stop: Option<string>) { stop.Some? && Less(stop.value, key) }

  /** Up to the first key past the upper bound: where a range's listing ends. */
  function UpTo(objs: seq<Object>, stop: Option<string>): seq<Object> {
    if objs == [] || Past(objs[0].key, stop) then [] else [objs[0]] + UpTo(objs[1..], stop)
  }

  function Total(objs: seq<Object>): nat {
    if objs == [] then 0 else Total(objs[..|objs| - 1]) + objs[|objs| - 1].size
  }

  /** Sizes added up one by one in a 64-bit counter that stops at its top. */
  function SatTotal(objs: seq<Object>): U64 {
    if objs == [] then 0 else SatAdd(SatTotal(objs[..|objs| - 1]), objs[|objs| - 1].size)
  }

  lemma {:induction false} SatTotalIs(objs: seq<Object>)
    ensures SatTotal(objs) == if Total(objs) > U64_MAX then U64_MAX else Total(objs)
  {
    if objs != [] { SatTotalIs(objs[..|objs| - 1]); }
  }

  lemma {:induction false} TotalAppend(a: seq<Object>, b: seq<Object>)
    ensures Total(a + b) == Total(a) + Total(b)
  {
    if b == [] {
      assert a + b == a;
    } else {
      TotalAppend(a, b[..|b| - 1]);
      assert (a + b)[..|a + b| - 1] == a + b[..|b| - 1];
    }
  }

  lemma {:induction false} KeptAppend(s: Scope, a: seq<Object>, b: seq<Object>)
    ensures KeptOf(s, a + b) == KeptOf(s, a) + KeptOf(s, b)
  {
    if b == [] {
      assert a + b == a;
    } else {
      KeptAppend(s, a, b[..|b| - 1]);
      assert (a + b)[..|a + b| - 1] == a + b[..|b| - 1];
    }
  }

  lemma {:induction false} UpToAppend(a: seq<Object>, b: seq<Object>, stop: Option<string>)
    ensures UpTo(a, stop) != a ==> UpTo(a + b, stop) == UpTo(a, stop)
    ensures UpTo(a, stop) == a ==> UpTo(a + b, stop) == a + UpTo(b, stop)
  {
    if a == [] {
      assert a + b == b;
    } else {
      assert (a + b)[1..] == a[1..] + b && a == [a[0]] + a[1..];
      UpToAppend(a[1..], b, stop);
    }
  }

  lemma {:induction false} UpToIsPrefix(objs: seq<Object>, stop: Option<string>)
    ensures UpTo(objs, stop) <= objs
    ensures forall i :: 0 <= i < |UpTo(objs, stop)| ==> !Past(objs[i].key, stop)
    ensures |UpTo(objs, stop)| < |objs| ==> Past(objs[|UpTo(objs, stop)|].key, stop)
  {
    if objs != [] && !Past(objs[0].key, stop) {
      UpToIsPrefix(objs[1..], stop);
      assert objs == [objs[0]] + objs[1..];
    }
  }

  // ----- windows of a listing in key order -----

  lemma {:induction false} SliceFront(objs: seq<Object>, a: nat, b: nat)
    requires a <= b < |objs|
    ensures objs[a..b] == objs[..|objs| - 1][a..b]
  {
  }

  lemma {:induction false} SliceLast(objs: seq<Object>, a: nat)
    requires a < |objs|
    ensures objs[a..|objs|] == objs[..|objs| - 1][a..|objs| - 1] + [objs[|objs| - 1]]
  {
  }

  /** When the window holds just the indices [a, b), it is that slice. */
  lemma {:induction false} WindowIsSlice(objs: seq<Object>, after: Option<string>, stop: Option<string>, a: nat, b: nat)
    requires a <= b <= |objs|
    requires forall i :: 0 <= i < |objs| ==> (InWindow(objs[i].key, after, stop) <==> a <= i < b)
    ensures Window(objs, after, stop) == objs[a..b]
  {
    if objs == [] {
    } else if a == b == |objs| {
      WindowIsSlice(objs[..|objs| - 1], after, stop, |objs| - 1, |objs| - 1);
    } else if b == |objs| {
      WindowIsSlice(objs[..|objs| - 1], after, stop, a, |objs| - 1);
      SliceLast(objs, a);
    } else {
      WindowIsSlice(objs[..|objs| - 1], after, stop, a, b);
      SliceFront(objs, a, b);
    }
  }

  /** One more object. */
  lemma {:induction false} WindowOneMore(objs: seq<Object>, o: Object, after: Option<string>, stop: Option<string>)
    ensures Window(objs + [o], after, stop)
            == if InWindow(o.key, after, stop) then Window(objs, after, stop) + [o] else Window(objs, after, stop)
  {
    assert (objs + [o])[..|objs|] == objs && Window(objs, after, stop) + [] == Window(objs, after, stop);
  }

  lemma {:induction false} KeptOneMore(s: Scope, objs: seq<Object>, o: Object)
    ensures KeptOf(s, objs + [o]) == if Kept(s, o.key) then KeptOf(s, objs) + [o] else KeptOf(s, objs)
  {
    assert (objs + [o])[..|objs|] == objs && KeptOf(s, objs) + [] == KeptOf(s, objs);
  }

  lemma {:induction false} WindowKeeps(s: Scope, objs: seq<Object>, after: Option<string>, stop: Option<string>)
    ensures KeptOf(s, Window(objs, after, stop)) == Window(KeptOf(s, objs), after, stop)
  {
    if objs != [] {
      var front, o := objs[..|objs| - 1], objs[|objs| - 1];
      assert objs == front + [o];
      WindowKeeps(s, front, after, stop);
      WindowOneMore(front, o, after, stop);
      KeptOneMore(s, front, o);
      WindowOneMore(KeptOf(s, front), o, after, stop);
      KeptOneMore(s, Window(front, after, stop), o);
    }
  }

  lemma {:induction false} WindowOfWindow(objs: seq<Object>, after: Option<string>, stop: Option<string>)
    ensures Window(Window(objs, after, None), None, stop) == Window(objs, after, stop)
  {
    if objs != [] {
      var front, o := objs[..|objs| - 1], objs[|objs| - 1];
      assert objs == front + [o];
      WindowOfWindow(front, after, stop);
      WindowOneMore(front, o, after, None);
      WindowOneMore(front, o, after, stop);
      WindowOneMore(Window(front, after, None), o, None, stop);
    }
  }

  lemma {:induction false} WindowAscends(objs: seq<Object>, after: Option<string>, stop: Option<string>)
    requires Ascending(objs)
    ensures Ascending(Window(objs, after, stop))
    ensures forall o :: o in Window(objs, after, stop) <==> o in objs && InWindow(o.key, after, stop)
  {
    if objs != [] {
      var n := |objs| - 1;
      assert objs == objs[..n] + [objs[n]];
      WindowAscends(objs[..n], after, stop);
      var w := Window(objs[..n], after, stop);
      forall i | 0 <= i < |w| ensures Less(w[i].key, objs[n].key) {
        assert w[i] in objs[..n];
      }
    }
  }

  lemma {:induction false} KeptAscends(s: Scope, objs: seq<Object>)
    requires Ascending(objs)
    ensures Ascending(KeptOf(s, objs))
    ensures forall o :: o in KeptOf(s, objs) <==> o in objs && Kept(s, o.key)
  {
    if objs != [] {
      var n := |objs| - 1;
      assert objs == objs[..n] + [objs[n]];
      KeptAscends(s, objs[..n]);
      var k := KeptOf(s, objs[..n]);
      forall i | 0 <= i < |k| ensures Less(k[i].key, objs[n].key) {
        assert k[i] in objs[..n];
      }
    }
  }

  lemma {:induction false} StaysPast(objs: seq<Object>, stop: Option<string>, n: nat, i: nat)
    requires Ascending(objs) && n <= i < |objs| && Past(objs[n].key, stop)
    ensures Past(objs[i].key, stop)
  {
    if n < i { LessTransitive(stop.value, objs[n].key, objs[i].key); }
  }

  /** Stopping at the first key past the bound loses nothing of the window. */
  lemma {:induction false} UpToIsWindow(objs: seq<Object>, after: Option<string>, stop: Option<string>)
    requires Ascending(objs)
    ensures UpTo(Window(objs, after, None), stop) == Window(objs, after, stop)
  {
    var w := Window(objs, after, None);
    var n := |UpTo(w, stop)|;
    WindowAscends(objs, after, None);
    UpToIsPrefix(w, stop);
    forall i | 0 <= i < |w| ensures InWindow(w[i].key, None, stop) <==> 0 <= i < n {
      if i >= n { StaysPast(w, stop, n, i); }
      if stop.Some? { LessTotal(w[i].key, stop.value); }
    }
    WindowIsSlice(w, None, stop, 0, n);
    WindowOfWindow(objs, after, stop);
  }

  /** Between two listed keys lies just the slice between their places. */
  lemma {:induction false} WindowBetween(objs: seq<Object>, a: nat, b: nat)
    requires Ascending(objs) && a < b <= |objs|
    ensures var after := if a == 0 then None else Some(objs[a - 1].key);
            && Window(objs, after, Some(objs[b - 1].key)) == objs[a..b]
            && forall i :: 0 <= i < |objs| ==> (InWindow(objs[i].key, after, Some(objs[b - 1].key)) <==> a <= i < b)
  {
    var after := if a == 0 then None else Some(objs[a - 1].key);
    forall i | 0 <= i < |objs| ensures InWindow(objs[i].key, after, Some(objs[b - 1].key)) <==> a <= i < b {
      LessTotal(objs[i].key, objs[b - 1].key);
      if a > 0 { LessTotal(objs[i].key, objs[a - 1].key); }
    }
    WindowIsSlice(objs, after, Some(objs[b - 1].key), a, b);
  }
}
