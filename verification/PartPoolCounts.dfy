/** Counting parts, and summing over files, in a pool state. */
module PartPoolCounts {
  import opened PartPool

  datatype Mark = Slotted | InFlight

  predicate Has(m: Mark, p: Part) {
    match m
    case Slotted => HasSlot(p)
    case InFlight => p.answer.Waiting?
  }

  function Count(m: Mark, ps: seq<Part>): nat {
    if ps == [] then 0 else One(Has(m, ps[0])) + Count(m, ps[1..])
  }

  lemma {:induction false} CountAppend(m: Mark, a: seq<Part>, b: seq<Part>)
    ensures Count(m, a + b) == Count(m, a) + Count(m, b)
  {
    if a == [] {
      assert a + b == b;
    } else {
      assert (a + b)[1..] == a[1..] + b;
      CountAppend(m, a[1..], b);
    }
  }

  lemma {:induction false} CountSplit(m: Mark, ps: seq<Part>, k: nat)
    requires k < |ps|
    ensures Count(m, ps) == Count(m, ps[..k]) + One(Has(m, ps[k])) + Count(m, ps[k + 1..])
  {
    assert ps == ps[..k] + ([ps[k]] + ps[k + 1..]);
    CountAppend(m, ps[..k], [ps[k]] + ps[k + 1..]);
    assert ([ps[k]] + ps[k + 1..])[1..] == ps[k + 1..];
  }

  lemma {:induction false} CountUpdate(m: Mark, ps: seq<Part>, k: nat, p: Part)
    requires k < |ps|
    ensures Count(m, ps[k := p]) + One(Has(m, ps[k])) == Count(m, ps) + One(Has(m, p))
  {
    CountSplit(m, ps, k);
    CountSplit(m, ps[k := p], k);
    assert ps[k := p][..k] == ps[..k] && ps[k := p][k + 1..] == ps[k + 1..];
  }

  lemma {:induction false} CountOne(m: Mark, p: Part)
    ensures Count(m, [p]) == One(Has(m, p))
  {
    assert [p][1..] == [];
  }

  lemma {:induction false} CountAtMost(m: Mark, ps: seq<Part>)
    ensures Count(m, ps) <= |ps|
  {
    if ps != [] { CountAtMost(m, ps[1..]); }
  }

  /** Slots a file holds: its parts in the GETs, in the reader's hand and in
      the queue, and the part the consumer works on. */
  function Slots(x: File): nat {
    Count(Slotted, x.pipe.queue) + Count(Slotted, x.pipe.hand) + Count(Slotted, x.pipe.window)
    + One(x.consumer.Working?)
  }

  /** Slots taken out of the semaphore for a file: also the one set aside for
      an `acquire` that was not polled yet. */
  function Out(x: File): nat { Slots(x) + One(x.acq.gate.Granted?) }

  /** The actions of a file's PoolReader still to come, by weight. */
  function RegistryWork(x: File): nat {
    if !x.task.started then 4 else if x.task.reader then 2 else 0
  }

  function GateWork(running: bool, g: Gate): nat {
    if !running then (if g.Closed? then 0 else if g.Granted? then 1 else 2)
    else match g
      case Closed => 6
      case Created => 5
      case Listening => 4
      case Compared(_) => 3
      case Parked => 2
      case Queued => 2
      case Granted => 1
  }

  function SignalWork(q: Acquire): nat { 5 * One(q.own) + 5 * One(q.share) + 5 * One(q.stored) }

  function PipeWork(p: Pipe): nat {
    25 * |p.todo| + 11 * |p.window| + 8 * Count(InFlight, p.window) + 10 * |p.hand| + 9 * |p.queue|
  }

  function ConsumerWork(k: Consumer): nat {
    match k
    case Asking => 2
    case Working => 10
    case Failed => 1
    case _ => 0
  }

  /** Every other action still to come: an upper bound, by weight. */
  function FileWork(x: File): nat {
    PipeWork(x.pipe) + ConsumerWork(x.consumer) + 7 * x.acct.freeing + 6 * x.acct.lowering
    + SignalWork(x.acq) + GateWork(x.task.running, x.acq.gate) + One(x.task.running)
  }

  datatype Sum = SlotsOut | Readers | Line | Registry | Work

  function Weight(t: Sum, x: File): nat {
    match t
    case SlotsOut => Out(x)
    case Readers => One(x.task.reader)
    case Line => One(x.acq.gate.Queued?)
    case Registry => RegistryWork(x)
    case Work => FileWork(x)
  }

  function Total(t: Sum, files: seq<File>): nat {
    if files == [] then 0 else Weight(t, files[0]) + Total(t, files[1..])
  }

  lemma {:induction false} TotalUpdate(t: Sum, files: seq<File>, f: nat, y: File)
    requires f < |files|
    ensures Total(t, files[f := y]) + Weight(t, files[f]) == Total(t, files) + Weight(t, y)
  {
    if f > 0 {
      TotalUpdate(t, files[1..], f - 1, y);
      assert files[f := y][1..] == files[1..][f - 1 := y];
    } else {
      assert files[f := y][1..] == files[1..];
    }
  }

  lemma {:induction false} NothingTaken(t: Sum, files: seq<File>)
    requires forall f :: 0 <= f < |files| ==> Weight(t, files[f]) == 0
    ensures Total(t, files) == 0
  {
    if files != [] {
      assert Weight(t, files[0]) == 0;
      NothingTaken(t, files[1..]);
    }
  }

  lemma {:induction false} PartOfTotal(t: Sum, files: seq<File>, f: nat)
    requires f < |files|
    ensures Weight(t, files[f]) <= Total(t, files)
  {
    if f > 0 { PartOfTotal(t, files[1..], f - 1); }
  }

  /** A wake-up for everyone moves no slot, reader or place in line. */
  lemma {:induction false} NotifiedTotals(t: Sum, files: seq<File>, after: seq<File>)
    requires |files| == |after| && forall i :: 0 <= i < |files| ==> after[i] == Notified(files[i])
    requires !t.Work?
    ensures Total(t, after) == Total(t, files)
  {
    if files != [] {
      assert after[0] == Notified(files[0]);
      NotifiedTotals(t, files[1..], after[1..]);
    }
  }
}
