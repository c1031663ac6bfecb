/** What goes into a file's upload: the ranges it is read in, and the loop that
    refuses to finish a file that was not read whole. */
module Ingest {
  import opened Wrappers
  import opened PartPool
  import opened PartPoolSafety
  import opened PartPoolOrder

  /** Cuts [0, total) into half-open ranges: contiguous from 0 to `total`, none
      empty, all of them `partSize` bytes but the last. */
  method SplitRanges(total: nat, partSize: nat) returns (parts: seq<Part>)
    requires partSize >= 1
    ensures Covers(parts, 0, total) && Unread(parts)
    ensures forall source: Bytes :: |source| == total ==> InBounds(parts, source)
    ensures forall i :: 0 <= i < |parts| ==> 1 <= parts[i].end - parts[i].start <= partSize
    ensures forall i :: 0 <= i < |parts| - 1 ==> parts[i].end - parts[i].start == partSize
    ensures |parts| == (total + partSize - 1) / partSize
  {
    parts := [];
    var start := 0;
    while start < total
      invariant start <= total && Covers(parts, 0, start) && Unread(parts)
      invariant forall i :: 0 <= i < |parts| ==> 1 <= parts[i].end - parts[i].start <= partSize && parts[i].end <= start
      invariant forall i :: 0 <= i < |parts| && (i < |parts| - 1 || start < total) ==>
                parts[i].end - parts[i].start == partSize
      invariant if start < total then start == |parts| * partSize
                else (|parts| - 1) * partSize < total <= |parts| * partSize
    {
      var end := if start + partSize < total then start + partSize else total;
      LinkedAppend(parts, [Part(start, end, Waiting)], 0);
      parts := parts + [Part(start, end, Waiting)];
      start := end;
    }
    Rounded(total, partSize, |parts|);
  }

  lemma {:induction false} OneMore(a: int, b: int, d: nat)
    requires a > b
    ensures a * d >= b * d + d
  {
    var k: nat := a - b - 1;
    assert a * d == b * d + d + k * d;
  }

  lemma {:induction false} NotAbove(a: int, b: int, d: nat)
    requires a * d < b * d + d
    ensures a <= b
  {
    if a > b { OneMore(a, b, d); }
  }

  /** The number of parts is the total over the part size, rounded up. */
  lemma {:induction false} Rounded(total: nat, d: nat, n: nat)
    requires d >= 1 && (n - 1) * d < total <= n * d
    ensures n == (total + d - 1) / d
  {
    var q := (total + d - 1) / d;
    assert q * d <= total + d - 1 < q * d + d;
    assert (n - 1) * d == n * d - d;
    NotAbove(q, n, d);
    NotAbove(n, q, d);
  }

  // ----- the ingest loop -----

  datatype ReadError = S3Error(message: string) | AddError | Truncated(ingested: nat) | FinishError

  /** The stream of one read: chunks, and errors of the read. */
  type Chunks = seq<Result<Bytes, string>>

  /** What reached the cleaner, in order. */
  function Content(chunks: Chunks): Bytes {
    if chunks == [] || chunks[0].Err? then [] else chunks[0].value + Content(chunks[1..])
  }

  lemma {:induction false} ContentAppend(chunks: Chunks, n: nat)
    requires n < |chunks| && chunks[n].Ok? && forall i :: 0 <= i < n ==> chunks[i].Ok?
    ensures Content(chunks[..n + 1]) == Content(chunks[..n]) + chunks[n].value
  {
    if n == 0 {
      assert chunks[..1][1..] == [] && chunks[..0] == [];
    } else {
      ContentAppend(chunks[1..], n - 1);
      assert chunks[1..][..n] == chunks[..n + 1][1..] && chunks[1..][..n - 1] == chunks[..n][1..];
    }
  }

  /** The state a file's bytes are chunked into. */
  class Cleaner {
    var data: Bytes

    constructor ()
      ensures data == []
    {
      data := [];
    }

    method AddData(buf: Bytes)
      modifies this
      ensures data == old(data) + buf
    {
      data := data + buf;
    }
  }

  /** Feeds a read to the cleaner, chunk by chunk. `refuses` and `finishes` are
      the cleaner's own failures. The file is finished exactly when nothing
      failed and the bytes ingested are as many as the object has; then they
      are the chunks' bytes, in order. `credited` sums up what was reported as
      ingested. */
  method UploadStream(chunks: Chunks, expected: nat, refuses: nat -> bool, finishes: bool)
    returns (r: Result<Bytes, ReadError>, credited: nat)
    ensures r.Ok? <==> finishes && |Content(chunks)| == expected
                       && forall i :: 0 <= i < |chunks| ==> chunks[i].Ok? && !refuses(i)
    ensures r.Ok? ==> r.value == Content(chunks) && credited == expected
    ensures r.Err? && r.error.Truncated? ==> r.error.ingested == |Content(chunks)| == credited != expected
  {
    var cleaner := new Cleaner();
    var total, i := 0, 0;
    credited := 0;
    while i < |chunks|
      invariant i <= |chunks| && total == credited == |cleaner.data| && cleaner.data == Content(chunks[..i])
      invariant forall j :: 0 <= j < i ==> chunks[j].Ok? && !refuses(j)
    {
      if chunks[i].Err? { return Err(S3Error(chunks[i].error)), credited; }
      if refuses(i) { return Err(AddError), credited; }
      ContentAppend(chunks, i);
      cleaner.AddData(chunks[i].value);
      total := total + |chunks[i].value|;
      credited := credited + |chunks[i].value|;
      i := i + 1;
    }
    assert chunks[..i] == chunks;
    if total != expected { return Err(Truncated(total)), credited; }
    if !finishes { return Err(FinishError), credited; }
    r := Ok(cleaner.data);
  }

  /** A file read through the pool is finished only as the whole object: in any
      schedule, when the bytes its consumer got, in whatever chunks, number as
      many as the object has, they are the object. Reader death, a failed GET
      or a dropped stream can only leave fewer. */
  lemma {:induction false} OnlyWholeObjectsFinish(s: State, steps: seq<Step>, f: nat, chunks: Chunks)
    requires Init(s) && Split(s) && Valid(s, steps) && f < |Run(s, steps).files|
    requires Content(chunks) == Run(s, steps).files[f].delivered
    ensures var x := Run(s, steps).files[f];
            && |Content(chunks)| <= |x.source|
            && (|Content(chunks)| == |x.source| <==> Content(chunks) == x.source)
            && (x.task.clean && x.consumer.Ended? ==> Content(chunks) == x.source)
  {
    DeliveredIsAPrefix(s, steps, f);
  }
}
