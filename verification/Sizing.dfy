/** Copier memory sizing: how many files and how many part slots fit the
    memory limit, in the saturating 64-bit arithmetic of the original. */
module Sizing {
  import opened PartPool
  import opened Wrappers

  const BUDGET_PERCENT: nat := 60
  const MAX_XORB_BYTES: nat := 64 * 1024 * 1024
  const BASE_RESERVE_BYTES: nat := 1024 * 1024 * 1024
  const XORB_WINDOW_BYTES: nat := 2 * MAX_XORB_BYTES

  function Min(a: U64, b: U64): U64 { if a <= b then a else b }
  function Max(a: U64, b: U64): U64 { if a <= b then b else a }

  datatype Budget = Budget(limitBytes: U64, budgetBytes: U64)

  datatype Fit = Fit(
    memory: Option<Budget>,
    requestedParallelFiles: U64,
    parallelFiles: U64,
    partConcurrency: U64,
    partPool: U64,
    partPoolUnlimited: U64,
    requestedWorstCaseBytes: U64,
    worstCaseBytes: U64)
  {
    /** False only when one file at full part concurrency is above the budget. */
    predicate Fits() {
      partPool >= PartsPerFile(partConcurrency) &&
      (memory.Some? ==> worstCaseBytes <= memory.value.budgetBytes)
    }
  }

  /** Share of the limit for parts and xorb windows. */
  function BudgetBytes(limit: U64, maxXorbUploads: U64): U64 {
    var reserve := SatAdd(SatMul(maxXorbUploads, MAX_XORB_BYTES), BASE_RESERVE_BYTES);
    Min(limit / 100 * BUDGET_PERCENT, SatSub(limit, reserve))
  }

  function Windows(pf: U64): U64 { SatMul(pf, XORB_WINDOW_BYTES) }

  /** Slots left for parts once `pf` xorb windows are reserved. */
  function Room(budget: U64, partSize: U64, pf: U64): U64 {
    SatSub(budget, Windows(pf)) / Max(partSize, 1)
  }

  predicate Allows(budget: U64, partSize: U64, oneFile: nat, pf: U64) {
    Windows(pf) <= budget && Room(budget, partSize, pf) >= oneFile
  }

  /** The first of `pf`, `pf - 1`, ..., 1 that the budget allows. */
  function Search(budget: U64, partSize: U64, oneFile: nat, pf: U64): Option<U64> {
    if pf == 0 then None
    else if Allows(budget, partSize, oneFile, pf) then Some(pf)
    else Search(budget, partSize, oneFile, pf - 1)
  }

  function Clamp(x: U64, lo: U64, hi: U64): U64
    requires lo <= hi
  {
    if x < lo then lo else if x > hi then hi else x
  }

  /** The chosen (parallel files, part pool). */
  function Choose(memory: Option<Budget>, requested: U64, oneFile: U64, partSize: U64): (U64, U64) {
    match memory
    case None => (requested, SatMul(requested, oneFile))
    case Some(m) =>
      match Search(m.budgetBytes, partSize, oneFile, requested)
      case Some(pf) => (pf, Min(Room(m.budgetBytes, partSize, pf), SatMul(pf, oneFile)))
      case None => (1, Clamp(Room(m.budgetBytes, partSize, 1), Min(oneFile, 1), oneFile))
  }

  /** Where `parts_per_file` does not overflow a usize. */
  predicate Sized(concurrency: nat) { concurrency + MAX_READ_AHEAD_CHUNKS + 2 <= U64_MAX }

  function FitTo(limit: Option<U64>, maxXorbUploads: U64, parallelFiles: U64, partConcurrency: nat, partSize: U64): Fit
    requires Sized(partConcurrency)
  {
    var requested, c := Max(parallelFiles, 1), if partConcurrency == 0 then 1 else partConcurrency;
    var oneFile := PartsPerFile(c);
    var memory := if limit.None? then None else Some(Budget(limit.value, BudgetBytes(limit.value, maxXorbUploads)));
    var (pf, pool) := Choose(memory, requested, oneFile, partSize);
    Fit(memory, requested, pf, c, pool, SatMul(pf, oneFile),
        SatAdd(Windows(requested), SatMul(SatMul(requested, oneFile), partSize)),
        SatAdd(Windows(pf), SatMul(pool, partSize)))
  }

  // ----- the search -----

  lemma {:induction false} MulMono(a: nat, b: nat, k: nat)
    requires a <= b
    ensures a * k <= b * k
  {
  }

  lemma {:induction false} DivMono(a: nat, b: nat, d: nat)
    requires a <= b && d >= 1
    ensures a / d <= b / d
  {
    var p, q := a / d, b / d;
    assert p * d <= a && b < (q + 1) * d;
    if p > q {
      MulMono(q + 1, p, d);
      assert false;
    }
  }

  /** Fewer files and more budget only make room. */
  lemma {:induction false} AllowsMono(budget: U64, more: U64, partSize: U64, oneFile: nat, pf: U64, fewer: U64)
    requires budget <= more && fewer <= pf && Allows(budget, partSize, oneFile, pf)
    ensures Allows(more, partSize, oneFile, fewer)
  {
    MulMono(fewer, pf, XORB_WINDOW_BYTES);
    DivMono(SatSub(budget, Windows(pf)), SatSub(more, Windows(fewer)), Max(partSize, 1));
  }

  /** The search finds the largest value the budget allows, if there is one. */
  lemma {:induction false} SearchIsLargest(budget: U64, partSize: U64, oneFile: nat, pf: U64)
    ensures match Search(budget, partSize, oneFile, pf)
            case Some(best) =>
              1 <= best <= pf && forall k: U64 :: 1 <= k <= pf ==> (Allows(budget, partSize, oneFile, k) <==> k <= best)
            case None => forall k: U64 :: 1 <= k <= pf ==> !Allows(budget, partSize, oneFile, k)
  {
    if pf != 0 {
      if Allows(budget, partSize, oneFile, pf) {
        forall k: U64 | 1 <= k <= pf ensures Allows(budget, partSize, oneFile, k) {
          AllowsMono(budget, budget, partSize, oneFile, pf, k);
        }
      } else {
        SearchIsLargest(budget, partSize, oneFile, pf - 1);
      }
    }
  }

  lemma {:induction false} BudgetMono(limit: U64, more: U64, uploads: U64)
    requires limit <= more
    ensures BudgetBytes(limit, uploads) <= BudgetBytes(more, uploads)
  {
    DivMono(limit, more, 100);
  }

  /** A budget never reaches the top of the 64-bit range, so nothing that is
      compared with it has saturated. */
  lemma {:induction false} BudgetBelowMax(limit: U64, uploads: U64)
    ensures BudgetBytes(limit, uploads) < U64_MAX
  {
  }

  // ----- in bytes -----

  /** The limit affords so many bytes: they are at most 60% of it, in whole percents, and
      leave room for 64 MiB per upload in flight and 1 GiB. */
  predicate Affords(limit: U64, uploads: U64, bytes: nat) {
    bytes == 0 || (bytes <= limit / 100 * 60 && bytes + uploads * 67108864 + 1073741824 <= limit)
  }

  lemma {:induction false} BudgetIs(limit: U64, uploads: U64, bytes: nat)
    ensures bytes <= BudgetBytes(limit, uploads) <==> Affords(limit, uploads, bytes)
  {
    var reserve := SatAdd(SatMul(uploads, 67108864), 1073741824);
    assert reserve == if uploads * 67108864 + 1073741824 > U64_MAX then U64_MAX else uploads * 67108864 + 1073741824;
  }

  /** The limit affords `k` files: 128 MiB for the xorbs of each one, and the slots of one
      file at full part concurrency. */
  predicate Enough(limit: U64, uploads: U64, partSize: U64, oneFile: nat, k: nat) {
    Affords(limit, uploads, k * 134217728 + oneFile * (if partSize == 0 then 1 else partSize))
  }

  lemma {:induction false} AllowsIs(b: U64, partSize: U64, oneFile: nat, k: U64, slots: nat)
    requires b < U64_MAX && slots == oneFile * (if partSize == 0 then 1 else partSize)
    ensures Allows(b, partSize, oneFile, k) <==> k * 134217728 + slots <= b
  {
    DivIff(SatSub(b, Windows(k)), Max(partSize, 1), oneFile);
  }

  lemma {:induction false} AllowsIff(limit: U64, uploads: U64, partSize: U64, oneFile: nat, k: U64)
    ensures Allows(BudgetBytes(limit, uploads), partSize, oneFile, k) <==> Enough(limit, uploads, partSize, oneFile, k)
  {
    var d := if partSize == 0 then 1 else partSize;
    BudgetBelowMax(limit, uploads);
    AllowsIs(BudgetBytes(limit, uploads), partSize, oneFile, k, oneFile * d);
    BudgetIs(limit, uploads, k * 134217728 + oneFile * d);
  }

  // ----- what `fit` promises -----

  /** Optimality: with a limit, `parallel_files` is the largest of
      1..=requested that the limit affords; if there is none it is 1. It never exceeds
      the request. */
  lemma {:induction false} FitIsOptimal(limit: U64, uploads: U64, pf: U64, c: nat, partSize: U64)
    requires Sized(c)
    ensures var s := FitTo(Some(limit), uploads, pf, c, partSize);
            var oneFile := PartsPerFile(s.partConcurrency);
            && 1 <= s.parallelFiles <= s.requestedParallelFiles == (if pf == 0 then 1 else pf)
            && (forall k: U64 :: s.parallelFiles < k <= s.requestedParallelFiles ==>
                  !Enough(limit, uploads, partSize, oneFile, k))
            && ((exists k: U64 ::
                   1 <= k <= s.requestedParallelFiles && Enough(limit, uploads, partSize, oneFile, k)) ==>
                  forall k: U64 :: 1 <= k <= s.parallelFiles ==> Enough(limit, uploads, partSize, oneFile, k))
  {
    var s, b := FitTo(Some(limit), uploads, pf, c, partSize), BudgetBytes(limit, uploads);
    var oneFile := PartsPerFile(s.partConcurrency);
    SearchIsLargest(b, partSize, oneFile, s.requestedParallelFiles);
    forall k: U64 ensures Allows(b, partSize, oneFile, k) <==> Enough(limit, uploads, partSize, oneFile, k) {
      AllowsIff(limit, uploads, partSize, oneFile, k);
    }
  }

  /** Without a limit the request stands, with a slot for every part the files
      could ever hold at once, as far as 64 bits can count them. */
  lemma {:induction false} NoLimitKeepsTheRequest(uploads: U64, pf: U64, c: nat, partSize: U64, q: U64)
    requires Sized(c)
    ensures var s := FitTo(None, uploads, pf, c, partSize);
            && s.parallelFiles == s.requestedParallelFiles == Max(pf, 1)
            && s.partConcurrency == (if c == 0 then 1 else c)
            && s.Fits() && (q <= s.parallelFiles * PartsPerFile(s.partConcurrency) ==> q <= s.partPool)
  {
    var s := FitTo(None, uploads, pf, c, partSize);
    MulMono(1, s.parallelFiles, PartsPerFile(s.partConcurrency));
  }

  /** What is reported beside the choice: the worst case of the request is the one a copier
      without a limit has, and never below the one chosen; the slots without a limit are
      those the chosen files could hold. */
  lemma {:induction false} RequestIsReported(limit: U64, uploads: U64, pf: U64, c: nat, partSize: U64, q: U64)
    requires Sized(c)
    ensures var s, free := FitTo(Some(limit), uploads, pf, c, partSize), FitTo(None, uploads, pf, c, partSize);
            && s.worstCaseBytes <= s.requestedWorstCaseBytes == free.worstCaseBytes == free.requestedWorstCaseBytes
            && s.partPool <= s.partPoolUnlimited
            && (q <= s.partPoolUnlimited <==> q <= s.parallelFiles * PartsPerFile(s.partConcurrency))
  {
    var s := FitTo(Some(limit), uploads, pf, c, partSize);
    var oneFile := PartsPerFile(s.partConcurrency);
    SearchIsLargest(BudgetBytes(limit, uploads), partSize, oneFile, s.requestedParallelFiles);
    MulMono(s.parallelFiles, s.requestedParallelFiles, XORB_WINDOW_BYTES);
    MulMono(s.parallelFiles, s.requestedParallelFiles, oneFile);
    SatMulMono(s.partPool, SatMul(s.requestedParallelFiles, oneFile), partSize);
  }

  lemma {:induction false} SatMulMono(a: nat, b: nat, k: nat)
    requires a <= b
    ensures SatMul(a, k) <= SatMul(b, k)
  {
    MulMono(a, b, k);
  }

  lemma {:induction false} ClampedAt(x: U64, hi: U64, q: U64)
    requires 2 <= q <= hi
    ensures q <= Clamp(x, 1, hi) <==> q <= x
  {
  }

  /** The slots the smallest settings take. */
  lemma {:induction false} SmallestPool(b: U64, partSize: U64, oneFile: U64, q: U64)
    requires 2 <= q <= oneFile && b < U64_MAX
    ensures q <= Clamp(Room(b, partSize, 1), Min(oneFile, 1), oneFile) <==> Allows(b, partSize, q, 1)
  {
    ClampedAt(Room(b, partSize, 1), oneFile, q);
    if Windows(1) > b { assert Room(b, partSize, 1) == 0; }
  }

  /** When no number of files fits, one file runs, with a slot at least if it
      reads in parts, and with each further one that the limit affords. */
  lemma {:induction false} ElseOneFileRuns(limit: U64, uploads: U64, pf: U64, c: nat, partSize: U64, q: U64)
    requires Sized(c) && !FitTo(Some(limit), uploads, pf, c, partSize).Fits()
    ensures var s := FitTo(Some(limit), uploads, pf, c, partSize);
            && s.parallelFiles == 1 && (s.partConcurrency > 1 ==> 1 <= s.partPool <= PartsPerFile(s.partConcurrency))
            && (2 <= q <= PartsPerFile(s.partConcurrency) ==>
                  (q <= s.partPool <==> Enough(limit, uploads, partSize, q, 1)))
  {
    var s, b := FitTo(Some(limit), uploads, pf, c, partSize), BudgetBytes(limit, uploads);
    var oneFile := PartsPerFile(s.partConcurrency);
    BudgetBelowMax(limit, uploads);
    ChoiceFits(b, partSize, oneFile, s.requestedParallelFiles);
    if 2 <= q <= oneFile {
      SmallestPool(b, partSize, oneFile, q);
      AllowsIff(limit, uploads, partSize, q, 1);
    }
  }

  /** The choice's worst case is exact and inside the budget. */
  lemma {:induction false} PoolFitsRoom(budget: U64, partSize: U64, pf: U64, pool: U64)
    requires Windows(pf) <= budget < U64_MAX && pool <= Room(budget, partSize, pf)
    ensures pf * XORB_WINDOW_BYTES + pool * partSize <= budget
    ensures SatAdd(Windows(pf), SatMul(pool, partSize)) == pf * XORB_WINDOW_BYTES + pool * partSize
  {
    var left := SatSub(budget, Windows(pf));
    var d := Max(partSize, 1);
    QuotientFits(left, d);
    MulMono(pool, left / d, d);
    MulMono(partSize, d, pool);
  }

  lemma {:induction false} QuotientFits(a: nat, d: nat)
    requires d >= 1
    ensures a / d * d <= a
  {
  }

  /** With settings that fit, the pool is as large as it can be: it takes every
      slot the files could ever hold and the budget has room for. */
  lemma {:induction false} PoolIsLargest(limit: U64, uploads: U64, pf: U64, c: nat, partSize: U64, q: U64)
    requires Sized(c) && partSize >= 1
    requires var s := FitTo(Some(limit), uploads, pf, c, partSize);
             s.Fits() && q <= s.parallelFiles * PartsPerFile(s.partConcurrency)
    ensures var s := FitTo(Some(limit), uploads, pf, c, partSize);
            q <= s.partPool <==> Affords(limit, uploads, s.parallelFiles * 134217728 + q * partSize)
  {
    var s, b := FitTo(Some(limit), uploads, pf, c, partSize), BudgetBytes(limit, uploads);
    FitsIff(limit, uploads, pf, c, partSize);
    FitIsOptimal(limit, uploads, pf, c, partSize);
    AllowsIff(limit, uploads, partSize, PartsPerFile(s.partConcurrency), s.parallelFiles);
    AllowsIff(limit, uploads, partSize, q, s.parallelFiles);
    assert Allows(b, partSize, PartsPerFile(s.partConcurrency), s.parallelFiles);
  }

  lemma {:induction false} FoundFits(budget: U64, partSize: U64, oneFile: U64, best: U64)
    requires budget < U64_MAX && best >= 1 && Allows(budget, partSize, oneFile, best)
    ensures var pool := Min(Room(budget, partSize, best), SatMul(best, oneFile));
            pool >= oneFile && SatAdd(Windows(best), SatMul(pool, partSize)) <= budget
  {
    PoolFitsRoom(budget, partSize, best, Min(Room(budget, partSize, best), SatMul(best, oneFile)));
    MulMono(1, best, oneFile);
  }

  lemma {:induction false} SmallestDoesNotFit(budget: U64, partSize: U64, oneFile: U64)
    requires oneFile != 1 && !Allows(budget, partSize, oneFile, 1) // no file needs exactly one slot
    ensures var pool := Clamp(Room(budget, partSize, 1), Min(oneFile, 1), oneFile);
            pool < oneFile || SatAdd(Windows(1), SatMul(pool, partSize)) > budget
  {
  }

  /** A found value fits; the smallest settings, taken for want of one, do not. */
  lemma {:induction false} ChoiceFits(budget: U64, partSize: U64, oneFile: U64, requested: U64)
    requires budget < U64_MAX && requested >= 1 && oneFile != 1
    ensures var (pf, pool) := Choose(Some(Budget(0, budget)), requested, oneFile, partSize);
            (pool >= oneFile && SatAdd(Windows(pf), SatMul(pool, partSize)) <= budget)
            <==> Search(budget, partSize, oneFile, requested).Some?
  {
    SearchIsLargest(budget, partSize, oneFile, requested);
    match Search(budget, partSize, oneFile, requested)
    case Some(best) =>
      assert Allows(budget, partSize, oneFile, best);
      FoundFits(budget, partSize, oneFile, best);
    case None =>
      SmallestDoesNotFit(budget, partSize, oneFile);
  }

  /** `fits()` says, exactly, whether some number of files fits the budget. */
  lemma {:induction false} FitsIff(limit: U64, uploads: U64, pf: U64, c: nat, partSize: U64)
    requires Sized(c)
    ensures var s := FitTo(Some(limit), uploads, pf, c, partSize);
            var oneFile := PartsPerFile(s.partConcurrency);
            s.Fits() <==>
              exists k: U64 :: 1 <= k <= s.requestedParallelFiles && Enough(limit, uploads, partSize, oneFile, k)
  {
    var s, b := FitTo(Some(limit), uploads, pf, c, partSize), BudgetBytes(limit, uploads);
    var oneFile := PartsPerFile(s.partConcurrency);
    BudgetBelowMax(limit, uploads);
    ChoiceFits(b, partSize, oneFile, s.requestedParallelFiles);
    SearchIsLargest(b, partSize, oneFile, s.requestedParallelFiles);
    assert s.Fits() <==> Search(b, partSize, oneFile, s.requestedParallelFiles).Some?;
    forall k: U64 ensures Allows(b, partSize, oneFile, k) <==> Enough(limit, uploads, partSize, oneFile, k) {
      AllowsIff(limit, uploads, partSize, oneFile, k);
    }
    if best :| Search(b, partSize, oneFile, s.requestedParallelFiles) == Some(best) {
      assert Allows(b, partSize, oneFile, best);
    }
  }

  /** A higher limit never lowers `parallel_files`. */
  lemma {:induction false} FitIsMonotone(limit: U64, more: U64, uploads: U64, pf: U64, c: nat, partSize: U64)
    requires Sized(c) && limit <= more
    ensures FitTo(Some(limit), uploads, pf, c, partSize).parallelFiles
            <= FitTo(Some(more), uploads, pf, c, partSize).parallelFiles
  {
    var s, t := FitTo(Some(limit), uploads, pf, c, partSize), FitTo(Some(more), uploads, pf, c, partSize);
    var b, b' := BudgetBytes(limit, uploads), BudgetBytes(more, uploads);
    var oneFile := PartsPerFile(s.partConcurrency);
    BudgetMono(limit, more, uploads);
    SearchIsLargest(b, partSize, oneFile, s.requestedParallelFiles);
    SearchIsLargest(b', partSize, oneFile, s.requestedParallelFiles);
    if Search(b, partSize, oneFile, s.requestedParallelFiles).Some? {
      AllowsMono(b, b', partSize, oneFile, s.parallelFiles, s.parallelFiles);
    }
  }

  /** What a copier whose sizing fits can hold: the xorb windows of its files
      and the slots of its pool stay within the worst case it reports, that is
      within the budget, that is within 60% of the limit and clear of the
      reserve. The sums are exact, nothing saturated. */
  lemma {:induction false} WorstCaseIsBudgeted(limit: U64, uploads: U64, pf: U64, c: nat, partSize: U64, files: nat,
                                               slots: nat)
    requires Sized(c)
    requires var s := FitTo(Some(limit), uploads, pf, c, partSize);
             s.Fits() && files <= s.parallelFiles && slots <= s.partPool
    ensures var s := FitTo(Some(limit), uploads, pf, c, partSize);
            && files * 134217728 + slots * partSize <= s.worstCaseBytes
            && s.worstCaseBytes <= BudgetBytes(limit, uploads) && Affords(limit, uploads, s.worstCaseBytes)
            && 100 * s.worstCaseBytes <= 60 * limit
  {
    var s, b := FitTo(Some(limit), uploads, pf, c, partSize), BudgetBytes(limit, uploads);
    BudgetBelowMax(limit, uploads);
    BudgetIs(limit, uploads, s.worstCaseBytes);
    MulMono(files, s.parallelFiles, XORB_WINDOW_BYTES);
    MulMono(slots, s.partPool, partSize);
  }
}
