/** Files that share the pool cannot block each other, no schedule goes on for
    ever, and a pool whose files have ended has all its slots back. */
module PartPoolLiveness {
  import opened PartPool
  import opened PartPoolCounts
  import opened PartPoolSafety
  import opened PartPoolOrder

  /** Nothing of this file is left to do. */
  predicate Done(x: File) {
    && x.task.started && !x.task.running && !x.task.reader && x.acq.gate.Closed?
    && (x.consumer.Ended? || x.consumer.Dropped?)
    && x.pipe.window == x.pipe.hand == x.pipe.queue == []
    && x.acct.freeing == x.acct.lowering == 0
  }

  /** A step that only bad luck takes: a reader task that dies while its
      consumer listens, a consumer that gives up without a failed part, a GET
      that fails. */
  predicate Fault(s: State, step: Step)
    requires Enabled(s, step)
  {
    step.Act? &&
    var x := s.files[step.f];
    match step.action
    case OfDrop(Die) => !x.consumer.Dropped?
    case OfDrop(DropStream) => !x.consumer.Failed?
    case OfRead(Get(_, ok)) => !ok
    case _ => false
  }

  ghost predicate CanStep(s: State, step: Step) { Enabled(s, step) && !Fault(s, step) }

  // ----- no deadlock -----

  /** The only two places where a file can wait for the others. */
  predicate Waits(x: File) {
    && Polling(x) && x.consumer.Asking? && x.pipe.window == x.pipe.queue == []
    && x.acct.freeing == x.acct.lowering == 0
    && (x.acq.gate.Queued? || (x.acq.gate.Parked? && !x.acq.own && !x.acq.share))
  }

  /** What a reader task with an empty pipe does next. */
  lemma {:induction false} ReaderMoves(c: nat, x: File) returns (a: Action)
    requires c >= 1 && FileInv(c, x) && DataInv(x) && x.task.started && x.task.running && x.consumer.Asking?
    requires x.pipe.queue == [] && x.acct.freeing == x.acct.lowering == 0 && !Waits(x)
    ensures Ready(c, x, a) && !a.OfDrop? && (a.OfRead? && a.r.Get? ==> a.r.ok)
  {
    var p := x.pipe;
    if p.hand != [] {
      a := OfRead(Send);
    } else if p.window != [] {
      a := OfRead(if p.window[0].answer.Waiting? then Get(0, true) else Yield);
    } else if p.todo == [] {
      a := OfRead(EndRead);
    } else {
      match x.acq.gate
      case Closed => a := OfGate(Create);
      case Created => a := OfGate(Listen);
      case Listening => a := OfGate(Compare);
      case Compared(_) => a := OfGate(Decide(false));
      case Parked => a := OfGate(Wake(x.acq.own, false));
      case Queued => assert false;
      case Granted => a := OfRead(Take);
    }
  }

  /** What a file whose reader task is gone still has to do. */
  lemma {:induction false} LeftoverMoves(c: nat, x: File) returns (a: Action)
    requires FileInv(c, x) && x.task.started && !x.task.running && !Done(x)
    requires x.acct.freeing == x.acct.lowering == 0
    ensures Ready(c, x, a) && !(a.OfRead? && a.r.Get?)
    ensures a == OfDrop(DropStream) ==> x.consumer.Failed?
    ensures a != OfDrop(Die) && (a == OfDrop(DropReader) ==> x.task.reader)
  {
    if x.pipe.hand != [] {
      a := OfDrop(DropHand);
    } else if x.pipe.window != [] {
      a := OfDrop(DropGet(0));
    } else if !x.acq.gate.Closed? {
      a := OfDrop(DropAcquire);
    } else if x.task.reader {
      a := OfDrop(DropReader);
    } else {
      match x.consumer
      case Asking => a := OfRead(if x.pipe.queue == [] then Eof else Recv);
      case Working => a := OfRead(Ask);
      case Failed => a := OfDrop(DropStream);
      case Ended => assert false;
      case Dropped => a := OfDrop(DropQueued);
    }
  }

  lemma {:induction false} FileMoves(s: State, f: nat) returns (step: Step)
    requires Inv(s) && AllData(s) && f < |s.files| && !Done(s.files[f]) && !Waits(s.files[f])
    ensures CanStep(s, step)
  {
    var x := s.files[f];
    assert FileInv(s.c, x) && DataInv(x);
    if x.task.reader { ReadersCover(s.files, f); }
    var a: Action;
    if !x.task.started {
      a := OfRead(Register);
    } else if x.acct.freeing > 0 {
      a := OfDrop(Lower);
    } else if x.acct.lowering > 0 {
      a := OfDrop(NotifyOwn);
    } else if !x.task.running {
      a := LeftoverMoves(s.c, x);
    } else if x.consumer.Working? {
      a := OfRead(Ask);
    } else if x.consumer.Failed? {
      a := OfDrop(DropStream);
    } else if x.consumer.Dropped? {
      a := OfDrop(Die);
    } else if x.pipe.queue != [] {
      a := OfRead(Recv);
    } else {
      a := ReaderMoves(s.c, x);
    }
    step := Act(f, a);
  }

  lemma {:induction false} ReadersCover(files: seq<File>, f: nat)
    requires f < |files| && files[f].task.reader
    ensures Total(Readers, files) >= 1
  {
    if f > 0 { ReadersCover(files[1..], f - 1); }
  }

  /** When every file that is not done waits, no slot is out: the head of the
      semaphore queue can take one, since a file without slots is never parked
      for good. */
  lemma {:induction false} AllWaiting(s: State, f: nat)
    requires Inv(s) && s.notifying == 0 && f < |s.files| && !Done(s.files[f])
    requires forall i :: 0 <= i < |s.files| ==> Done(s.files[i]) || Waits(s.files[i])
    ensures CanStep(s, Grant)
  {
    forall i | 0 <= i < |s.files| ensures Weight(SlotsOut, s.files[i]) == 0 {
      assert s.files[i].pipe.hand == s.files[i].pipe.window == s.files[i].pipe.queue == [];
    }
    NothingTaken(SlotsOut, s.files);
    assert FileInv(s.c, s.files[f]) && Awake(s, s.files[f]) && Weight(SlotsOut, s.files[f]) == 0;
    assert f in s.waiters && s.waiters[0] in s.waiters;
  }

  /** Deadlock freedom: as long as some file is not done, some step that is not
      a fault is enabled. The pool may be as small as one slot. */
  lemma {:induction false} SomeStepIsEnabled(s: State) returns (step: Step)
    requires Inv(s) && AllData(s) && exists f :: 0 <= f < |s.files| && !Done(s.files[f])
    ensures CanStep(s, step)
  {
    var f :| 0 <= f < |s.files| && !Done(s.files[f]);
    if i :| 0 <= i < |s.files| && !Done(s.files[i]) && !Waits(s.files[i]) {
      step := FileMoves(s, i);
    } else if s.notifying > 0 {
      step := NotifyReaders;
    } else {
      AllWaiting(s, f);
      step := Grant;
    }
  }

  // ----- termination -----

  lemma {:induction false} GateLowers(c: nat, share: nat, x: File, g: GateAction, y: File)
    requires GateReady(c, x, g) && FileInv(c, x) && y == x.(acq := GateMoved(share, x.acq, x.acct.held, g))
    ensures FileWork(y) < FileWork(x)
  {
  }

  lemma {:induction false} ReadLowers(c: nat, x: File, r: ReadAction, y: File)
    requires ReadReady(c, x, r) && FileInv(c, x) && y == ReadMoved(c, x, r) && !r.Register?
    ensures FileWork(y) < FileWork(x)
  {
    var p := x.pipe;
    match r
    case Take => CountAppend(InFlight, p.window, [p.todo[0]]); CountOne(InFlight, p.todo[0]);
    case Get(k, ok) => CountUpdate(InFlight, p.window, k, Answered(x.source, p.window[k], ok));
    case _ =>
  }

  lemma {:induction false} DropLowers(c: nat, x: File, d: DropAction, y: File)
    requires DropReady(x, d) && FileInv(c, x) && y == DropMoved(x, d) && !d.DropReader?
    ensures FileWork(y) < FileWork(x)
  {
    match d
    case DropGet(k) =>
      CountSplit(InFlight, x.pipe.window, k);
      CountAppend(InFlight, x.pipe.window[..k], x.pipe.window[k + 1..]);
    case _ =>
  }

  ghost predicate Registers(a: Action) { a == OfRead(Register) || a == OfDrop(DropReader) }

  lemma {:induction false} RegistryLowers(c: nat, share: nat, x: File, a: Action, y: File)
    requires Ready(c, x, a) && FileInv(c, x) && y == Moved(c, share, x, a)
    ensures RegistryWork(y) + 2 * One(Registers(a)) == RegistryWork(x)
  {
    match a
    case OfGate(g) =>
    case OfRead(r) =>
    case OfDrop(d) =>
  }

  lemma {:induction false} FileLowers(c: nat, share: nat, x: File, a: Action, y: File)
    requires Ready(c, x, a) && FileInv(c, x) && y == Moved(c, share, x, a) && !Registers(a)
    ensures FileWork(y) < FileWork(x)
  {
    match a
    case OfGate(g) => GateLowers(c, share, x, g, y);
    case OfRead(r) => ReadLowers(c, x, r, y);
    case OfDrop(d) => DropLowers(c, x, d, y);
  }

  /** The measure of a schedule, most significant part first. */
  function RegistryLeft(s: State): nat { Total(Registry, s.files) + s.notifying }
  function WorkLeft(s: State): nat { Total(Work, s.files) }

  ghost predicate Lowers(s: State, t: State) {
    RegistryLeft(t) < RegistryLeft(s) || (RegistryLeft(t) == RegistryLeft(s) && WorkLeft(t) < WorkLeft(s))
  }

  lemma {:induction false} ActLowers(s: State, f: nat, a: Action)
    requires Inv(s) && Enabled(s, Act(f, a))
    ensures Lowers(s, After(s, f, a))
  {
    var x, y := s.files[f], After(s, f, a).files[f];
    assert FileInv(s.c, x);
    TotalUpdate(Registry, s.files, f, y);
    TotalUpdate(Work, s.files, f, y);
    RegistryLowers(s.c, Share(s), x, a, y);
    if !Registers(a) { FileLowers(s.c, Share(s), x, a, y); }
  }

  lemma {:induction false} GrantedWorksLess(x: File)
    requires x.acq.gate.Queued?
    ensures var y := x.(acq := x.acq.(gate := Granted)); FileWork(y) < FileWork(x) && RegistryWork(y) == RegistryWork(x)
  {
  }

  lemma {:induction false} GrantLowers(s: State)
    requires Inv(s) && Enabled(s, Grant)
    ensures Lowers(s, Apply(s, Grant))
  {
    var f := s.waiters[0];
    var y := Apply(s, Grant).files[f];
    assert f in s.waiters;
    GrantedWorksLess(s.files[f]);
    TotalUpdate(Registry, s.files, f, y);
    TotalUpdate(Work, s.files, f, y);
  }

  /** Every step, a fault or not, lowers the measure. */
  lemma {:induction false} StepLowers(s: State, step: Step)
    requires Inv(s) && Enabled(s, step)
    ensures Lowers(s, Apply(s, step))
  {
    match step
    case NotifyReaders => NotifiedTotals(Registry, s.files, Apply(s, step).files);
    case Grant => GrantLowers(s);
    case Act(f, a) => ActLowers(s, f, a);
  }

  /** An endless schedule: state `i + 1` comes from state `i` by its step. */
  ghost predicate Endless(at: nat -> State, via: nat -> Step) {
    forall i: nat :: Enabled(at(i), via(i)) && at(i + 1) == Apply(at(i), via(i))
  }

  lemma {:induction false} NoEndlessFrom(at: nat -> State, via: nat -> Step, i: nat)
    requires Inv(at(i))
    ensures !Endless(at, via)
    decreases RegistryLeft(at(i)), WorkLeft(at(i))
  {
    if Endless(at, via) {
      assert Enabled(at(i), via(i)) && at(i + 1) == Apply(at(i), via(i));
      StepKeeps(at(i), via(i));
      StepLowers(at(i), via(i));
      NoEndlessFrom(at, via, i + 1);
    }
  }

  /** Termination: no interleaving of the files goes on for ever. */
  lemma {:induction false} EveryScheduleEnds(at: nat -> State, via: nat -> Step)
    requires Init(at(0))
    ensures !Endless(at, via)
  {
    InitInv(at(0));
    NoEndlessFrom(at, via, 0);
  }

  // ----- the end of a schedule -----

  ghost predicate AllDone(s: State) { forall f :: 0 <= f < |s.files| ==> Done(s.files[f]) }

  /** A schedule in which no step that is not a fault is left has ended every
      file, and every slot is free again. */
  lemma {:induction false} NoSlotIsLost(s: State, steps: seq<Step>)
    requires Init(s) && Split(s) && Valid(s, steps)
    ensures var t := Run(s, steps);
            && ((exists step :: CanStep(t, step)) || AllDone(t))
            && (AllDone(t) ==> t.permits == t.size && t.readers == 0)
  {
    InitInv(s);
    InitData(s);
    RunKeeps(s, steps);
    RunKeepsData(s, steps);
    var t := Run(s, steps);
    if AllDone(t) {
      forall f | 0 <= f < |t.files| ensures Weight(SlotsOut, t.files[f]) == 0 && Weight(Readers, t.files[f]) == 0 {
        assert Done(t.files[f]);
      }
      NothingTaken(SlotsOut, t.files);
      NothingTaken(Readers, t.files);
    } else {
      var step := SomeStepIsEnabled(t);
      assert CanStep(t, step);
    }
  }
}
