/** What the part pool promises over whole schedules: bounds, wake-ups, fair
    shares, and complete delivery when nothing fails. */
module PartPoolResults {
  import opened PartPool
  import opened PartPoolCounts
  import opened PartPoolSafety
  import opened PartPoolOrder
  import opened PartPoolLiveness

  // ----- bounds -----

  lemma {:induction false} FileBound(c: nat, x: File)
    requires FileInv(c, x)
    ensures Out(x) <= c + ReadAheadDepth(c) + 2
  {
    CountAtMost(Slotted, x.pipe.queue);
    CountAtMost(Slotted, x.pipe.hand);
    CountAtMost(Slotted, x.pipe.window);
  }

  /** In every schedule the slots out of the semaphore never exceed the pool, and
      one file never holds more than its GETs, its channel, one part in the reader's
      hand and one with the consumer. */
  lemma {:induction false} SlotsAreBounded(s: State, steps: seq<Step>, f: nat)
    requires Init(s) && s.c >= 2 && Valid(s, steps)
    ensures var t := Run(s, steps);
            && t.permits + Total(SlotsOut, t.files) == s.size
            && |t.files| == |s.files| && (f < |s.files| ==> Out(t.files[f]) <= PartsPerFile(s.c))
    ensures PartsPerFile(s.c) == if s.c <= 32 then 2 * s.c + 2 else s.c + 34
  {
    InitInv(s);
    RunKeeps(s, steps);
    RunKeepsConfig(s, steps);
    var t := Run(s, steps);
    if f < |s.files| {
      assert FileInv(t.c, t.files[f]);
      FileBound(t.c, t.files[f]);
    }
  }

  lemma {:induction false} RunKeepsConfig(s: State, steps: seq<Step>)
    requires Valid(s, steps)
    ensures var t := Run(s, steps); t.size == s.size && t.c == s.c && |t.files| == |s.files|
    decreases |steps|
  {
    if steps != [] { RunKeepsConfig(Apply(s, steps[0]), steps[1..]); }
  }

  // ----- wake-ups -----

  /** A wake-up of the file is ready, or about to be sent. */
  predicate Waking(s: State, x: File) { x.acq.own || x.acq.share || x.acct.lowering > 0 || s.notifying > 0 }

  /** The file holds a slot, and the pool could not give each reading file one more than
      it holds. */
  predicate AtShare(s: State, x: File) {
    s.readers >= 1 && x.acct.held >= 1 && (x.acct.held + 1) * s.readers > s.size
  }

  lemma {:induction false} AwakeOrFull(s: State, f: nat)
    requires Inv(s) && f < |s.files| && s.files[f].acq.gate.Parked?
    ensures Waking(s, s.files[f]) || AtShare(s, s.files[f])
  {
    assert FileInv(s.c, s.files[f]) && Awake(s, s.files[f]);
    PartOfTotal(Readers, s.files, f);
    ShareIs(s.size, s.readers, s.files[f].acct.held + 1);
  }

  /** In every interleaving of the counter updates, the two notifications and
      the registrations: a parked file has a future that is ready, or a notification of
      its own slot or of a change of `readers` is about to be sent; or else it holds a
      slot, and the pool could not give each reading file one more than it holds. */
  lemma {:induction false} NoLostWakeUp(s: State, steps: seq<Step>, f: nat)
    requires Init(s) && Valid(s, steps) && f < |Run(s, steps).files|
    requires Run(s, steps).files[f].acq.gate.Parked?
    ensures Waking(Run(s, steps), Run(s, steps).files[f]) || AtShare(Run(s, steps), Run(s, steps).files[f])
  {
    InitInv(s);
    RunKeeps(s, steps);
    AwakeOrFull(Run(s, steps), f);
  }

  // ----- fair shares -----

  function PastGate(x: File): nat { One(x.acq.gate.Queued? || x.acq.gate.Granted?) }

  /** Every file reading in parts could hold, for each reading file, what it holds
      itself and the slot it is past the gate for; or that is one slot at most. */
  ghost predicate Fair(s: State) {
    forall f :: 0 <= f < |s.files| && s.files[f].task.reader ==> FairFile(s, s.files[f])
  }

  predicate FairFile(s: State, x: File) {
    var n := x.acct.held + PastGate(x);
    n <= 1 || n * s.readers <= s.size
  }

  lemma {:induction false} FairIs(s: State, f: nat)
    requires Inv(s) && f < |s.files| && s.files[f].task.reader
    ensures FairFile(s, s.files[f]) <==> s.files[f].acct.held + PastGate(s.files[f]) <= Share(s)
  {
    PartOfTotal(Readers, s.files, f);
    ShareIs(s.size, s.readers, s.files[f].acct.held + PastGate(s.files[f]));
  }

  ghost predicate Steady(step: Step) { !(step.Act? && Registers(step.action)) }

  lemma {:induction false} ActStaysFair(c: nat, share: nat, x: File, a: Action, y: File)
    requires Ready(c, x, a) && FileInv(c, x) && y == Moved(c, share, x, a) && !Registers(a)
    requires x.task.reader ==> x.acct.held + PastGate(x) <= share
    ensures y.task.reader ==> y.acct.held + PastGate(y) <= share
  {
    match a
    case OfGate(g) =>
    case OfRead(r) => ReadAccount(c, x, r, y);
    case OfDrop(d) => DropAccount(c, x, d, y);
  }

  lemma {:induction false} StepStaysFair(s: State, step: Step)
    requires Inv(s) && Enabled(s, step) && Fair(s) && Steady(step)
    ensures Fair(Apply(s, step)) && Apply(s, step).readers == s.readers
  {
    var t := Apply(s, step);
    StepKeeps(s, step);
    forall f | 0 <= f < |t.files| && t.files[f].task.reader ensures FairFile(t, t.files[f]) {
      FairIs(t, f);
      if s.files[f].task.reader { FairIs(s, f); }
      FileStaysFair(s, step, f);
    }
  }

  lemma {:induction false} FileStaysFair(s: State, step: Step, f: nat)
    requires Inv(s) && Enabled(s, step) && Steady(step) && f < |s.files|
    requires var x := s.files[f]; x.task.reader ==> x.acct.held + PastGate(x) <= Share(s)
    ensures var y := Apply(s, step).files[f]; y.task.reader ==> y.acct.held + PastGate(y) <= Share(s)
  {
    assert FileInv(s.c, s.files[f]);
    match step
    case NotifyReaders => assert Apply(s, step).files[f] == Notified(s.files[f]);
    case Grant => assert s.waiters[0] in s.waiters;
    case Act(g, a) =>
      if g == f { ActStaysFair(s.c, Share(s), s.files[f], a, Apply(s, step).files[f]); }
  }

  /** With a fixed set of reading files, no schedule takes one of them above
      its share. */
  lemma {:induction false} SharesAreKept(s: State, steps: seq<Step>)
    requires Inv(s) && Valid(s, steps) && Fair(s)
    requires forall i :: 0 <= i < |steps| ==> Steady(steps[i])
    ensures Fair(Run(s, steps)) && Run(s, steps).readers == s.readers
    decreases |steps|
  {
    if steps != [] {
      StepKeeps(s, steps[0]);
      StepStaysFair(s, steps[0]);
      assert forall i :: 0 <= i < |steps[1..]| ==> steps[1..][i] == steps[i + 1];
      SharesAreKept(Apply(s, steps[0]), steps[1..]);
    }
  }

  /** What a file could still take before it reaches its share. */
  function Slack(share: nat, x: File): nat {
    var used := x.acct.held + PastGate(x);
    if x.task.reader && used < share then share - used else 0
  }

  /** The slots and the place in line of a file fit into its share. */
  predicate InShare(share: nat, x: File) {
    if x.task.reader then Out(x) + One(x.acq.gate.Queued?) <= x.acct.held + PastGate(x) <= share
    else Out(x) + One(x.acq.gate.Queued?) == 0
  }

  lemma {:induction false} OneShare(share: nat, x: File, readers: nat)
    requires InShare(share, x)
    ensures Out(x) + One(x.acq.gate.Queued?) + Slack(share, x) <= share * One(x.task.reader)
    ensures share * (One(x.task.reader) + readers) == share * One(x.task.reader) + share * readers
  {
  }

  lemma {:induction false} SharesAddUp(files: seq<File>, share: nat, f: nat)
    requires f <= |files| && forall i :: 0 <= i < |files| ==> InShare(share, files[i])
    ensures Total(SlotsOut, files) + Total(Line, files) + (if f < |files| then Slack(share, files[f]) else 0)
            <= share * Total(Readers, files)
  {
    if files != [] {
      var x, rest := files[0], files[1..];
      OneShare(share, x, Total(Readers, rest));
      SharesAddUp(rest, share, if f == 0 then |rest| else f - 1);
    }
  }

  /** When the reading files hold all the slots in use, each within its share,
      and are not more than the slots, the semaphore never makes anyone wait: there is
      a free slot for each file in line, and for each that a file may still take. */
  lemma {:induction false} BelowShareFindsASlot(s: State, f: nat, more: nat)
    requires Inv(s) && Fair(s) && 1 <= s.readers <= s.size
    requires forall i :: 0 <= i < |s.files| && !s.files[i].task.reader ==>
      Out(s.files[i]) == 0 && !s.files[i].acq.gate.Queued?
    requires f < |s.files| && s.files[f].task.reader
    requires more == 0 || (s.files[f].acct.held + PastGate(s.files[f]) + more) * s.readers <= s.size
    ensures s.permits >= |s.waiters| + more
  {
    forall i | 0 <= i < |s.files| ensures InShare(Share(s), s.files[i]) {
      assert FileInv(s.c, s.files[i]);
      if s.files[i].task.reader { FairIs(s, i); }
    }
    SharesAddUp(s.files, Share(s), f);
    assert 1 * s.readers == s.readers;
    ShareIs(s.size, s.readers, 1);
    ShareIs(s.size, s.readers, Share(s));
    ShareIs(s.size, s.readers, s.files[f].acct.held + PastGate(s.files[f]) + more);
    assert Share(s) == 1 ==> Share(s) * s.readers == s.readers;
  }

  // ----- what a reader waits for -----

  /** What the reader task does itself. */
  predicate OfReader(a: Action) {
    a.OfGate? || (a.OfRead? && (a.r.Take? || a.r.Yield? || a.r.Send? || a.r.EndRead?))
  }

  ghost predicate ReaderIdles(c: nat, x: File) {
    x.task.started && x.task.running && forall a :: OfReader(a) ==> !Ready(c, x, a)
  }

  /** The oldest GET is under way. */
  predicate AwaitsGet(p: Pipe) { p.window != [] && p.window[0].answer.Waiting? }

  lemma {:induction false} IdleAtGate(c: nat, x: File)
    requires FileInv(c, x) && ReaderIdles(c, x) && x.pipe.hand == [] && !x.acq.gate.Closed?
    ensures x.acq.gate.Queued? || (x.acq.gate.Parked? && !x.acq.own && !x.acq.share)
  {
    var a := match x.acq.gate
      case Created => OfGate(Listen)
      case Listening => OfGate(Compare)
      case Compared(_) => OfGate(Decide(false))
      case Granted => OfRead(Take)
      case _ => OfGate(Wake(x.acq.own, false));
    assert OfReader(a) && !Ready(c, x, a);
  }

  lemma {:induction false} IdleWithoutAcquire(c: nat, x: File)
    requires c >= 1 && FileInv(c, x) && ReaderIdles(c, x) && x.pipe.hand == [] && x.acq.gate.Closed?
    ensures AwaitsGet(x.pipe) && (x.pipe.todo == [] || |x.pipe.window| == c)
  {
    assert OfReader(OfGate(Create)) && !Ready(c, x, OfGate(Create));
    assert OfReader(OfRead(Yield)) && !Ready(c, x, OfRead(Yield));
    assert OfReader(OfRead(EndRead)) && !Ready(c, x, OfRead(EndRead));
  }

  /** In every schedule, a reader that cannot go on by itself has a part in hand that the
      consumer's full queue, of as many parts as it may have GETs but at most 32, has no
      room for; or it waits for a slot, in line or for a wake-up; or all the GETs it may
      have, or all that are left, are started and the oldest is not answered. */
  lemma {:induction false} ReaderIsNeverIdle(s: State, steps: seq<Step>, f: nat)
    requires Init(s) && Valid(s, steps) && f < |Run(s, steps).files|
    requires ReaderIdles(s.c, Run(s, steps).files[f])
    ensures var x := Run(s, steps).files[f];
            var p := x.pipe;
            if p.hand != [] then x.consumer.Dropped? || |p.queue| == (if s.c <= 32 then s.c else 32)
            else if x.acq.gate.Closed? then AwaitsGet(p) && (p.todo == [] || |p.window| == s.c)
            else x.acq.gate.Queued? || (x.acq.gate.Parked? && !x.acq.own && !x.acq.share)
  {
    InitInv(s);
    RunKeeps(s, steps);
    RunKeepsConfig(s, steps);
    var x := Run(s, steps).files[f];
    assert FileInv(s.c, x);
    if x.pipe.hand != [] {
      assert OfReader(OfRead(Send)) && !Ready(s.c, x, OfRead(Send));
    } else if x.acq.gate.Closed? {
      IdleWithoutAcquire(s.c, x);
    } else {
      IdleAtGate(s.c, x);
    }
  }

  // ----- nothing fails -----

  ghost predicate NoBroken(ps: seq<Part>) { forall i :: 0 <= i < |ps| ==> !ps[i].answer.Broken? }
  ghost predicate AllFetched(ps: seq<Part>) { forall i :: 0 <= i < |ps| ==> ps[i].answer.Fetched? }

  ghost predicate Unharmed(x: File) {
    && (x.task.started ==> x.task.running || x.task.clean)
    && !x.consumer.Failed? && !x.consumer.Dropped?
    && NoBroken(x.pipe.window) && AllFetched(x.pipe.hand) && AllFetched(x.pipe.queue)
  }

  lemma {:induction false} ReadUnharmed(c: nat, x: File, r: ReadAction, y: File)
    requires ReadReady(c, x, r) && FileInv(c, x) && Unharmed(x) && y == ReadMoved(c, x, r) && (r.Get? ==> r.ok)
    ensures Unharmed(y)
  {
    var p, q := x.pipe, y.pipe;
    match r
    case Take => assert p.todo[0].answer.Waiting? && q.hand == p.hand && q.queue == p.queue;
    case Get(k, ok) => assert q.hand == p.hand && q.queue == p.queue;
    case Yield => assert q.hand == [p.window[0]] && p.window[0].answer.Fetched? && q.queue == p.queue;
    case Send => assert q.window == p.window;
    case Recv => assert p.queue[0].answer.Fetched? && q.window == p.window && q.hand == p.hand;
    case _ => assert q == p;
  }

  lemma {:induction false} DropUnharmed(x: File, d: DropAction, y: File)
    requires DropReady(x, d) && Unharmed(x) && y == DropMoved(x, d) && !d.Die? && !d.DropStream?
    ensures Unharmed(y)
  {
  }

  lemma {:induction false} ActUnharmed(c: nat, share: nat, x: File, a: Action, y: File)
    requires Ready(c, x, a) && FileInv(c, x) && Unharmed(x) && y == Moved(c, share, x, a)
    requires a != OfDrop(Die) && a != OfDrop(DropStream)
    requires a.OfRead? && a.r.Get? ==> a.r.ok
    ensures Unharmed(y)
  {
    match a
    case OfGate(g) => assert y.pipe == x.pipe && y.task == x.task && y.consumer == x.consumer;
    case OfRead(r) => ReadUnharmed(c, x, r, y);
    case OfDrop(d) => DropUnharmed(x, d, y);
  }

  ghost predicate AllUnharmed(s: State) { forall f :: 0 <= f < |s.files| ==> Unharmed(s.files[f]) }

  ghost predicate NoFaults(s: State, steps: seq<Step>)
    requires Valid(s, steps)
    decreases |steps|
  {
    steps == [] || (!Fault(s, steps[0]) && NoFaults(Apply(s, steps[0]), steps[1..]))
  }

  lemma {:induction false} StepUnharmed(s: State, step: Step)
    requires Inv(s) && AllUnharmed(s) && CanStep(s, step)
    ensures AllUnharmed(Apply(s, step))
  {
    match step
    case NotifyReaders =>
      forall f | 0 <= f < |s.files| ensures Unharmed(Apply(s, step).files[f]) { assert Unharmed(s.files[f]); }
    case Grant => assert Unharmed(s.files[s.waiters[0]]);
    case Act(f, a) =>
      assert FileInv(s.c, s.files[f]) && Unharmed(s.files[f]);
      ActUnharmed(s.c, Share(s), s.files[f], a, Apply(s, step).files[f]);
  }

  lemma {:induction false} RunUnharmed(s: State, steps: seq<Step>)
    requires Inv(s) && AllUnharmed(s) && Valid(s, steps) && NoFaults(s, steps)
    ensures AllUnharmed(Run(s, steps))
    decreases |steps|
  {
    if steps != [] {
      StepKeeps(s, steps[0]);
      StepUnharmed(s, steps[0]);
      RunUnharmed(Apply(s, steps[0]), steps[1..]);
    }
  }

  /** A schedule without faults that has nothing left to do has handed over
      every object whole, for any number of files and any pool of at least one
      slot. */
  lemma {:induction false} EveryObjectIsDelivered(s: State, steps: seq<Step>, f: nat)
    requires Init(s) && Split(s) && Valid(s, steps) && NoFaults(s, steps) && f < |s.files|
    requires !exists step :: CanStep(Run(s, steps), step)
    ensures var t := Run(s, steps); |t.files| == |s.files| && t.files[f].delivered == t.files[f].source
  {
    InitInv(s);
    forall i | 0 <= i < |s.files| ensures Unharmed(s.files[i]) { assert Untouched(s.files[i]); }
    RunUnharmed(s, steps);
    RunKeepsConfig(s, steps);
    NoSlotIsLost(s, steps);
    DeliveredIsAPrefix(s, steps, f);
    var x := Run(s, steps).files[f];
    assert Done(x) && Unharmed(x);
  }
}
