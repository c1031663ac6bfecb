/** The memory a copier can hold, over whole runs: its sizing, its pipeline and
    its part pool together. */
module MemoryBound {
  import opened Wrappers
  import Sizing
  import Pool = PartPool
  import PartPoolCounts
  import PartPoolSafety
  import PartPoolResults
  import Pipeline
  import PipelineResults

  /** Most permits a semaphore of the runtime can hold. */
  const MAX_PERMITS: nat := U64_MAX / 8

  /** The pool a copier opens for a sizing. */
  function PoolSize(s: Sizing.Fit): nat {
    if s.partPool < MAX_PERMITS then s.partPool else MAX_PERMITS
  }

  /** Some moment of a copier's pipeline, set up from a sizing: each file in
      flight keeps one xorb window. */
  ghost predicate LineMoment(s: Sizing.Fit, c: Pipeline.Config, objects: seq<nat>, line: Pipeline.State) {
    && c.parallel == s.parallelFiles && c.chunk >= 1
    && PipelineResults.Reachable(c, objects, line) && !line.driver.Aborted?
  }

  /** How its files are read: each with a single GET, which takes no slot, or in
      parts, by a schedule of the part pool. */
  datatype Reading = SingleGets | InParts(start: Pool.State, steps: seq<Pool.Step>)

  /** The reading a copier does, set up from the same sizing. */
  ghost predicate ReadsBy(s: Sizing.Fit, r: Reading) {
    match r
    case SingleGets => s.partConcurrency <= 1
    case InParts(start, steps) =>
      && start.c == s.partConcurrency >= 2 && start.size == PoolSize(s)
      && PartPoolSafety.Init(start) && Pool.Valid(start, steps)
  }

  /** Each slot out of the pool is one part in memory. */
  ghost function SlotsOut(s: Sizing.Fit, r: Reading): nat
    requires ReadsBy(s, r)
  {
    match r
    case SingleGets => 0
    case InParts(start, steps) => PartPoolCounts.Total(PartPoolCounts.SlotsOut, Pool.Run(start, steps).files)
  }

  /** The slots of one file. */
  ghost function SlotsOf(s: Sizing.Fit, r: Reading, f: nat): nat
    requires ReadsBy(s, r)
  {
    match r
    case SingleGets => 0
    case InParts(start, steps) =>
      if f < |Pool.Run(start, steps).files| then PartPoolCounts.Out(Pool.Run(start, steps).files[f]) else 0
  }

  lemma {:induction false} LineIsBounded(s: Sizing.Fit, c: Pipeline.Config, objects: seq<nat>, line: Pipeline.State)
    requires LineMoment(s, c, objects, line) && s.parallelFiles >= 1
    ensures |line.inflight| <= s.parallelFiles
  {
    PipelineResults.Shape(c, objects, line);
  }

  lemma {:induction false} PoolIsBounded(s: Sizing.Fit, r: Reading, f: nat)
    requires ReadsBy(s, r) && s.partConcurrency >= 1
    ensures SlotsOut(s, r) <= s.partPool && SlotsOf(s, r, f) <= Pool.PartsPerFile(s.partConcurrency)
  {
    match r
    case SingleGets =>
    case InParts(start, steps) =>
      PartPoolResults.SlotsAreBounded(start, steps, f);
  }

  /** In every reachable state of pipeline and pool, whatever the interleaving and
      however the files are read: the xorb windows of the files in flight and the
      parts in memory stay within the worst case the sizing reported, that within the
      budget, and that within 60% of the limit; and no file holds more than one
      file's part of the pool. */
  lemma {:induction false} MemoryStaysInBudget(limit: U64, uploads: U64, pf: U64, pc: nat, partSize: U64,
                            c: Pipeline.Config, objects: seq<nat>, line: Pipeline.State, r: Reading, f: nat)
    requires Sizing.Sized(pc)
    requires var s := Sizing.FitTo(Some(limit), uploads, pf, pc, partSize);
             s.Fits() && LineMoment(s, c, objects, line) && ReadsBy(s, r)
    ensures var s := Sizing.FitTo(Some(limit), uploads, pf, pc, partSize);
            && |line.inflight| * 134217728 + SlotsOut(s, r) * partSize <= s.worstCaseBytes
            && Sizing.Affords(limit, uploads, s.worstCaseBytes) && 100 * s.worstCaseBytes <= 60 * limit
            && SlotsOf(s, r, f) <= Pool.PartsPerFile(s.partConcurrency)
  {
    var s := Sizing.FitTo(Some(limit), uploads, pf, pc, partSize);
    Sizing.FitIsOptimal(limit, uploads, pf, pc, partSize);
    LineIsBounded(s, c, objects, line);
    PoolIsBounded(s, r, f);
    Sizing.WorstCaseIsBudgeted(limit, uploads, pf, pc, partSize, |line.inflight|, SlotsOut(s, r));
  }

  // ----- the assumptions can be met -----

  /** Two files at a time with eight GETs each of 16 MiB fit on 16 GiB. */
  lemma {:induction false} SomeSettingsFit()
    ensures var s := Sizing.FitTo(Some(17179869184), 64, 2, 8, 16777216);
            s.Fits() && s.parallelFiles == 2 && s.partPool == 36
  {
    assert Sizing.BudgetBytes(17179869184, 64) == 10307921460;
    assert Sizing.Room(10307921460, 16777216, 2) == 598;
    assert Sizing.Allows(10307921460, 16777216, 18, 2);
  }

  /** So do two files read with single GETs. */
  lemma {:induction false} SomeSingleGetsFit()
    ensures var s := Sizing.FitTo(Some(17179869184), 64, 2, 1, 16777216);
            s.Fits() && s.parallelFiles == 2 && s.partPool == 0 && s.partConcurrency == 1
  {
    assert Sizing.BudgetBytes(17179869184, 64) == 10307921460;
    assert Sizing.Room(10307921460, 16777216, 2) == 598;
    assert Sizing.Allows(10307921460, 16777216, 0, 2);
  }

  const LINE := Pipeline.Config(2, 1, 0)
  const ONE_UPLOAD: seq<Pipeline.Step> := [Pipeline.Receive, Pipeline.Open(true)]

  /** An object of 5 bytes is in flight. */
  lemma {:induction false} OneInFlight() returns (line: Pipeline.State)
    ensures PipelineResults.Reachable(LINE, [5], line) && line.driver.Selecting? && |line.inflight| == 1
  {
    var start := Pipeline.Start([5]);
    var taken := Pipeline.Apply(LINE, start, ONE_UPLOAD[0]);
    assert taken == start.(incoming := [], driver := Pipeline.Opening(5));
    line := Pipeline.Apply(LINE, taken, ONE_UPLOAD[1]);
    assert ONE_UPLOAD[1..] == [ONE_UPLOAD[1]] && ONE_UPLOAD[1..][1..] == [];
    assert line.inflight == {0};
    assert Pipeline.Valid(LINE, start, ONE_UPLOAD) && Pipeline.Run(LINE, start, ONE_UPLOAD) == line;
  }

  const PART := Pool.Part(0, 5, Pool.Waiting)
  const TO_READ :=
    Pool.File("bytes", Pool.Task(false, false, false, false), Pool.Acquire(Pool.Closed, false, false, false),
              Pool.Account(0, 0, 0), Pool.Pipe([PART], [], [], []), Pool.Asking, [])

  function PoolStart(size: nat): Pool.State { Pool.State(size, 8, size, 0, 0, [], [TO_READ]) }

  function PoolAfter(size: nat, gate: Pool.Gate): Pool.State {
    var x := TO_READ.(task := Pool.Task(true, true, true, false), acq := Pool.Acquire(gate, false, false, false));
    var free := if gate.Granted? && size > 0 then size - 1 else size;
    Pool.State(size, 8, free, 1, 1, if gate.Queued? then [0] else [], [x])
  }

  /** The file registers, passes the gate, and a slot is set aside for it. */
  lemma {:induction false} OneSlotOut(size: nat) returns (steps: seq<Pool.Step>)
    requires size >= 1
    ensures PartPoolSafety.Init(PoolStart(size)) && Pool.Valid(PoolStart(size), steps)
    ensures PartPoolCounts.Total(PartPoolCounts.SlotsOut, Pool.Run(PoolStart(size), steps).files) == 1
  {
    var s0 := PoolStart(size);
    steps := [];
    steps := Next(s0, steps, Pool.OfRead(Pool.Register), s0, PoolAfter(size, Pool.Closed));
    steps := Next(s0, steps, Pool.OfGate(Pool.Create), PoolAfter(size, Pool.Closed), PoolAfter(size, Pool.Created));
    steps := Next(s0, steps, Pool.OfGate(Pool.Listen), PoolAfter(size, Pool.Created), PoolAfter(size, Pool.Listening));
    steps := PastGate(size, steps);
    PartPoolSafety.RunOneMore(s0, steps, Pool.Grant);
    steps := steps + [Pool.Grant];
    assert Pool.Run(s0, steps) == PoolAfter(size, Pool.Granted);
    OneOut(size);
  }

  lemma {:induction false} PastGate(size: nat, steps: seq<Pool.Step>) returns (more: seq<Pool.Step>)
    requires size >= 1 && Pool.Valid(PoolStart(size), steps)
    requires Pool.Run(PoolStart(size), steps) == PoolAfter(size, Pool.Listening)
    ensures Pool.Valid(PoolStart(size), more) && Pool.Run(PoolStart(size), more) == PoolAfter(size, Pool.Queued)
  {
    var s0, seen := PoolStart(size), PoolAfter(size, Pool.Compared(0));
    more := Next(s0, steps, Pool.OfGate(Pool.Compare), PoolAfter(size, Pool.Listening), seen);
    more := Next(s0, more, Pool.OfGate(Pool.Decide(false)), seen, PoolAfter(size, Pool.Queued));
  }

  lemma {:induction false} OneOut(size: nat)
    ensures PartPoolCounts.Total(PartPoolCounts.SlotsOut, PoolAfter(size, Pool.Granted).files) == 1
  {
    var files := PoolAfter(size, Pool.Granted).files;
    assert files[1..] == [] && files[0].acq.gate == Pool.Granted;
  }

  lemma {:induction false} Next(s0: Pool.State, steps: seq<Pool.Step>, a: Pool.Action, s: Pool.State, t: Pool.State)
    returns (more: seq<Pool.Step>)
    requires Pool.Valid(s0, steps) && Pool.Run(s0, steps) == s && Pool.Enabled(s, Pool.Act(0, a))
    requires t == Pool.After(s, 0, a)
    ensures Pool.Valid(s0, more) && Pool.Run(s0, more) == t
  {
    more := steps + [Pool.Act(0, a)];
    PartPoolSafety.RunOneMore(s0, steps, Pool.Act(0, a));
  }

  /** A copier at work that meets every assumption of the theorem, with a file in
      flight and a part in memory. */
  lemma {:induction false} SomeCopierRuns()
    ensures exists c, objects, line, r ::
              var s := Sizing.FitTo(Some(17179869184), 64, 2, 8, 16777216);
              s.Fits() && LineMoment(s, c, objects, line) && ReadsBy(s, r) && |line.inflight| == SlotsOut(s, r) == 1
    ensures exists c, objects, line, r ::
              var s := Sizing.FitTo(Some(17179869184), 64, 2, 1, 16777216);
              s.Fits() && LineMoment(s, c, objects, line) && ReadsBy(s, r) && |line.inflight| == 1
  {
    SomeSettingsFit();
    SomeSingleGetsFit();
    var line := OneInFlight();
    var steps := OneSlotOut(36);
    var s := Sizing.FitTo(Some(17179869184), 64, 2, 8, 16777216);
    var t := Sizing.FitTo(Some(17179869184), 64, 2, 1, 16777216);
    var r := InParts(PoolStart(36), steps);
    assert LineMoment(s, LINE, [5], line) && ReadsBy(s, r) && SlotsOut(s, r) == 1;
    assert LineMoment(t, LINE, [5], line) && ReadsBy(t, SingleGets);
  }
}
