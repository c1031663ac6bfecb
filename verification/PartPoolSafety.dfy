/** What every step of the part pool keeps: slot accounting, the share gate's
    wake-ups, and the order and content of the bytes handed over. */
module PartPoolSafety {
  import opened Sequences
  import opened PartPool
  import opened PartPoolCounts

  ghost predicate Unread(ps: seq<Part>) { forall i :: 0 <= i < |ps| ==> ps[i].answer.Waiting? }
  ghost predicate Answered?(ps: seq<Part>) { forall i :: 0 <= i < |ps| ==> !ps[i].answer.Waiting? }

  ghost predicate PipeShape(c: nat, p: Pipe, gate: Gate) {
    && |p.window| <= c && |p.hand| <= 1 && |p.queue| <= ReadAheadDepth(c)
    && Unread(p.todo) && Answered?(p.queue) && Answered?(p.hand)
    && (!gate.Closed? ==> |p.window| < c && p.todo != [])
  }

  ghost predicate Untouched(x: File) {
    && x.task == Task(false, false, false, false) && x.acq == Acquire(Closed, false, false, false)
    && x.acct == Account(0, 0, 0) && x.pipe.window == x.pipe.hand == x.pipe.queue == []
    && x.consumer.Asking? && x.delivered == []
  }

  ghost predicate TaskShape(x: File) {
    && (!x.task.started ==> Untouched(x))
    && (x.task.running ==> x.task.reader && !x.task.clean)
    && (!x.acq.gate.Closed? ==> x.task.reader)
    && (x.consumer.Ended? ==> !x.task.running && x.pipe.queue == [])
  }

  /** The wake-up flags of a running `acquire`, and what they may miss: `held`
      can only have gone down since it was loaded, and then a notification is
      ready or still to come. */
  ghost predicate Listens(q: Acquire, n: Account) {
    && (q.gate.Closed? || q.gate.Queued? || q.gate.Granted? ==> !q.own && !q.share)
    && (q.gate.Created? ==> !q.own)
    && (q.gate.Compared? ==> n.held <= q.gate.seen && (n.held < q.gate.seen ==> q.own || n.lowering > 0))
  }

  ghost predicate FileInv(c: nat, x: File) {
    && PipeShape(c, x.pipe, x.acq.gate) && TaskShape(x) && Listens(x.acq, x.acct)
    && x.acct.held == Slots(x) + x.acct.freeing
  }

  /** No lost wake-up: a file parked below its fair share has a wake-up ready,
      or one of the calls that send it is still to come. */
  ghost predicate Awake(s: State, x: File) {
    x.acq.gate.Parked? && x.acct.held < Share(s) ==>
      x.acq.own || x.acq.share || x.acct.lowering > 0 || s.notifying > 0
  }

  // ----- one file, one action -----

  /** What an action does to the file's slots. */
  ghost predicate Accounted(x: File, y: File, taken: bool) {
    && Slots(y) + One(y.acct.freeing > x.acct.freeing) == Slots(x) + One(taken)
    && y.acct.held + One(y.acct.freeing > x.acct.freeing) + x.acct.freeing == x.acct.held + One(taken) + y.acct.freeing
  }

  lemma {:induction false} GateStep(c: nat, share: nat, x: File, g: GateAction, y: File)
    requires GateReady(c, x, g) && FileInv(c, x) && y == x.(acq := GateMoved(share, x.acq, x.acct.held, g))
    ensures FileInv(c, y)
  {
  }

  lemma {:induction false} ReadAccount(c: nat, x: File, r: ReadAction, y: File)
    requires ReadReady(c, x, r) && FileInv(c, x) && y == ReadMoved(c, x, r)
    ensures Accounted(x, y, r.Take?)
  {
    var p := x.pipe;
    match r
    case Take => CountAppend(Slotted, p.window, [p.todo[0]]); CountOne(Slotted, p.todo[0]);
    case Get(k, ok) => CountUpdate(Slotted, p.window, k, Answered(x.source, p.window[k], ok));
    case Yield => CountOne(Slotted, p.window[0]);
    case Send => CountAppend(Slotted, p.queue, p.hand);
    case _ =>
  }

  lemma {:induction false} ReadStep(c: nat, x: File, r: ReadAction, y: File)
    requires ReadReady(c, x, r) && FileInv(c, x) && y == ReadMoved(c, x, r)
    ensures FileInv(c, y)
  {
    ReadAccount(c, x, r, y);
  }

  lemma {:induction false} DropAccount(c: nat, x: File, d: DropAction, y: File)
    requires DropReady(x, d) && FileInv(c, x) && y == DropMoved(x, d)
    ensures Accounted(x, y, false)
  {
    match d
    case DropGet(k) =>
      CountSplit(Slotted, x.pipe.window, k);
      CountAppend(Slotted, x.pipe.window[..k], x.pipe.window[k + 1..]);
    case _ =>
  }

  lemma {:induction false} DropStep(c: nat, x: File, d: DropAction, y: File)
    requires DropReady(x, d) && FileInv(c, x) && y == DropMoved(x, d)
    ensures FileInv(c, y)
  {
    DropAccount(c, x, d, y);
  }

  // ----- all files -----

  ghost predicate WaitLine(s: State) {
    && NoDup(s.waiters)
    && (forall f :: f in s.waiters ==> f < |s.files| && s.files[f].acq.gate.Queued?)
    && (forall f :: 0 <= f < |s.files| && s.files[f].acq.gate.Queued? ==> f in s.waiters)
    && |s.waiters| == Total(Line, s.files)
  }

  /** Every reachable state of the pool. */
  ghost predicate Inv(s: State) {
    && s.size >= 1 && s.c >= 1
    && (forall f :: 0 <= f < |s.files| ==> FileInv(s.c, s.files[f]) && Awake(s, s.files[f]))
    && s.permits + Total(SlotsOut, s.files) == s.size
    && s.readers == Total(Readers, s.files)
    && WaitLine(s)
  }

  lemma {:induction false} ActKeepsFile(c: nat, share: nat, x: File, a: Action, y: File)
    requires Ready(c, x, a) && FileInv(c, x) && y == Moved(c, share, x, a)
    ensures FileInv(c, y)
  {
    match a
    case OfGate(g) => GateStep(c, share, x, g, y);
    case OfRead(r) => ReadStep(c, x, r, y);
    case OfDrop(d) => DropStep(c, x, d, y);
  }

  lemma {:induction false} ActKeepsPermits(s: State, f: nat, a: Action, x: File, y: File)
    requires Enabled(s, Act(f, a)) && x == s.files[f] && FileInv(s.c, x) && y == Moved(s.c, Share(s), x, a)
    ensures PermitsAfter(s, x, y, a) + Out(y) == s.permits + Out(x)
  {
    match a
    case OfGate(g) => assert y.pipe == x.pipe && y.consumer == x.consumer;
    case OfRead(r) =>
      ReadAccount(s.c, x, r, y);
      assert !r.Take? ==> y.acq == x.acq;
    case OfDrop(d) =>
      DropAccount(s.c, x, d, y);
      assert !d.DropAcquire? ==> y.acq.gate == x.acq.gate;
  }

  /** Which actions move a file in or out of the semaphore queue, or change
      what its gate waits for. */
  lemma {:induction false} ActMovesGate(c: nat, share: nat, x: File, a: Action, y: File)
    requires Ready(c, x, a) && FileInv(c, x) && y == Moved(c, share, x, a)
    ensures y.acq.gate.Queued? && !x.acq.gate.Queued? ==> a.OfGate?
    ensures x.acq.gate.Queued? && !y.acq.gate.Queued? ==> a == OfDrop(DropAcquire)
    ensures a.OfGate? ==> !x.acq.gate.Queued?
    ensures a == OfDrop(DropAcquire) ==> y.acq.gate.Closed?
    ensures One(y.task.reader) + One(a == OfDrop(DropReader)) == One(x.task.reader) + One(a == OfRead(Register))
    ensures y.acq.gate.Parked? && y.acct.held < share && y.acct.lowering == 0 ==>
              y.acq.own || y.acq.share || (x.acq.gate.Parked? && x.acct.held <= y.acct.held)
  {
    match a
    case OfGate(g) =>
    case OfRead(r) =>
    case OfDrop(d) =>
  }

  /** The semaphore queue after an action of file `f`. */
  lemma {:induction false} ActMovesLine(s: State, f: nat, a: Action, y: File)
    requires Enabled(s, Act(f, a)) && WaitLine(s) && FileInv(s.c, s.files[f])
             && y == Moved(s.c, Share(s), s.files[f], a)
    ensures var w := WaitersAfter(s, f, y, a);
            && NoDup(w) && (f in w <==> y.acq.gate.Queued?) && (forall g :: g != f ==> (g in w <==> g in s.waiters))
            && |w| + One(s.files[f].acq.gate.Queued?) == |s.waiters| + One(y.acq.gate.Queued?)
  {
    ActMovesGate(s.c, Share(s), s.files[f], a, y);
    if a == OfDrop(DropAcquire) { WithoutKeepsNoDup(s.waiters, f); }
  }

  lemma {:induction false} ActKeepsLine(s: State, f: nat, a: Action, t: State)
    requires Enabled(s, Act(f, a)) && WaitLine(s) && FileInv(s.c, s.files[f]) && t == After(s, f, a)
    ensures WaitLine(t)
  {
    ActMovesLine(s, f, a, t.files[f]);
    TotalUpdate(Line, s.files, f, t.files[f]);
    assert forall i :: 0 <= i < |t.files| && i != f ==> t.files[i] == s.files[i];
  }

  lemma {:induction false} ActKeepsAwake(s: State, f: nat, a: Action, t: State, i: nat)
    requires Enabled(s, Act(f, a)) && Inv(s) && t == After(s, f, a) && i < |t.files|
    ensures Awake(t, t.files[i])
  {
    assert Awake(s, s.files[i]);
    if i == f { ActMovesGate(s.c, Share(s), s.files[f], a, t.files[f]); }
  }

  lemma {:induction false} ActKeeps(s: State, f: nat, a: Action)
    requires Enabled(s, Act(f, a)) && Inv(s)
    ensures Inv(After(s, f, a))
  {
    var t := After(s, f, a);
    ActKeepsFile(s.c, Share(s), s.files[f], a, t.files[f]);
    ActKeepsPermits(s, f, a, s.files[f], t.files[f]);
    ActMovesGate(s.c, Share(s), s.files[f], a, t.files[f]);
    TotalUpdate(SlotsOut, s.files, f, t.files[f]);
    TotalUpdate(Readers, s.files, f, t.files[f]);
    ActKeepsLine(s, f, a, t);
    forall i | 0 <= i < |t.files| ensures FileInv(t.c, t.files[i]) && Awake(t, t.files[i]) {
      ActKeepsAwake(s, f, a, t, i);
    }
  }

  lemma {:induction false} NotifiedKeepsFile(c: nat, x: File)
    requires FileInv(c, x)
    ensures FileInv(c, Notified(x)) && Notified(x).acq.gate == x.acq.gate
    ensures Notified(x).acq.gate.Parked? ==> Notified(x).acq.share
  {
  }

  lemma {:induction false} NotifyKeepsLine(s: State, t: State)
    requires Enabled(s, NotifyReaders) && WaitLine(s) && t == Apply(s, NotifyReaders)
    ensures WaitLine(t)
  {
    NotifiedTotals(Line, s.files, t.files);
    assert forall f :: 0 <= f < |t.files| ==> t.files[f].acq.gate == s.files[f].acq.gate;
  }

  lemma {:induction false} NotifyKeeps(s: State)
    requires Enabled(s, NotifyReaders) && Inv(s)
    ensures Inv(Apply(s, NotifyReaders))
  {
    var t := Apply(s, NotifyReaders);
    NotifiedTotals(SlotsOut, s.files, t.files);
    NotifiedTotals(Readers, s.files, t.files);
    NotifyKeepsLine(s, t);
    forall i | 0 <= i < |t.files| ensures FileInv(t.c, t.files[i]) && Awake(t, t.files[i]) {
      NotifiedKeepsFile(s.c, s.files[i]);
    }
  }

  lemma {:induction false} GrantKeepsLine(s: State, t: State)
    requires Enabled(s, Grant) && WaitLine(s) && t == Apply(s, Grant)
    ensures WaitLine(t) && s.files[s.waiters[0]].acq.gate.Queued?
  {
    var f := s.waiters[0];
    assert s.waiters == [f] + t.waiters;
    assert f in s.waiters;
    forall g | g in t.waiters ensures g != f && g in s.waiters {
      var j :| 0 <= j < |t.waiters| && t.waiters[j] == g;
      assert s.waiters[j + 1] == g;
    }
    TotalUpdate(Line, s.files, f, t.files[f]);
  }

  lemma {:induction false} GrantKeeps(s: State)
    requires Enabled(s, Grant) && Inv(s)
    ensures Inv(Apply(s, Grant))
  {
    var t := Apply(s, Grant);
    var f := s.waiters[0];
    GrantKeepsLine(s, t);
    TotalUpdate(SlotsOut, s.files, f, t.files[f]);
    TotalUpdate(Readers, s.files, f, t.files[f]);
    assert Slots(t.files[f]) == Slots(s.files[f]);
    assert FileInv(s.c, s.files[f]);
    assert FileInv(s.c, t.files[f]) && Awake(t, t.files[f]);
    forall i | 0 <= i < |t.files| && i != f ensures FileInv(t.c, t.files[i]) && Awake(t, t.files[i]) {
      assert t.files[i] == s.files[i] && Awake(s, s.files[i]);
    }
  }

  lemma {:induction false} StepKeeps(s: State, step: Step)
    requires Enabled(s, step) && Inv(s)
    ensures Inv(Apply(s, step))
  {
    match step
    case NotifyReaders => NotifyKeeps(s);
    case Grant => GrantKeeps(s);
    case Act(f, a) => ActKeeps(s, f, a);
  }

  /** A pool with all its slots free, and files that have not begun to read. */
  ghost predicate Init(s: State) {
    && s.size >= 1 && s.c >= 1 && s.permits == s.size && s.readers == s.notifying == 0 && s.waiters == []
    && forall f :: 0 <= f < |s.files| ==> Untouched(s.files[f]) && Unread(s.files[f].pipe.todo)
  }

  lemma {:induction false} InitInv(s: State)
    requires Init(s)
    ensures Inv(s)
  {
    forall f | 0 <= f < |s.files| ensures FileInv(s.c, s.files[f]) && Awake(s, s.files[f]) {
      assert Untouched(s.files[f]);
    }
    NothingTaken(SlotsOut, s.files);
    NothingTaken(Readers, s.files);
    NothingTaken(Line, s.files);
  }

  /** Every schedule from the start only meets states that satisfy `Inv`. */
  lemma {:induction false} RunKeeps(s: State, steps: seq<Step>)
    requires Inv(s) && Valid(s, steps)
    ensures Inv(Run(s, steps))
    decreases |steps|
  {
    if steps != [] {
      StepKeeps(s, steps[0]);
      RunKeeps(Apply(s, steps[0]), steps[1..]);
    }
  }

  lemma {:induction false} RunOneMore(s: State, steps: seq<Step>, step: Step)
    requires Valid(s, steps) && Enabled(Run(s, steps), step)
    ensures Valid(s, steps + [step]) && Run(s, steps + [step]) == Apply(Run(s, steps), step)
    decreases |steps|
  {
    if steps == [] {
      assert [step][1..] == [] && [] + [step] == [step];
    } else {
      RunOneMore(Apply(s, steps[0]), steps[1..], step);
      assert (steps + [step])[1..] == steps[1..] + [step];
    }
  }
}
