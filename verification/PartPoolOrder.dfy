/** The reader hands over the object's bytes in offset order, whatever order
    the GETs end in and whoever dies on the way. */
module PartPoolOrder {
  import opened PartPool
  import opened PartPoolSafety

  /** Each part starts where the one before ends, from offset `at`. */
  ghost predicate Linked(ps: seq<Part>, at: nat) {
    ps == [] || (ps[0].start == at <= ps[0].end && Linked(ps[1..], ps[0].end))
  }

  /** Where the parts end. */
  ghost function Reach(ps: seq<Part>, at: nat): nat {
    if ps == [] then at else Reach(ps[1..], ps[0].end)
  }

  ghost predicate Covers(ps: seq<Part>, at: nat, end: nat) { Linked(ps, at) && Reach(ps, at) == end }

  lemma {:induction false} LinkedAppend(a: seq<Part>, b: seq<Part>, at: nat)
    ensures Linked(a + b, at) <==> Linked(a, at) && Linked(b, Reach(a, at))
    ensures Reach(a + b, at) == Reach(b, Reach(a, at))
  {
    if a == [] {
      assert a + b == b;
    } else {
      assert (a + b)[1..] == a[1..] + b;
      LinkedAppend(a[1..], b, a[0].end);
    }
  }

  /** The answer of a GET moves no boundary. */
  lemma {:induction false} LinkedAnswer(ps: seq<Part>, k: nat, p: Part, at: nat)
    requires k < |ps| && p.start == ps[k].start && p.end == ps[k].end
    ensures Linked(ps[k := p], at) == Linked(ps, at) && Reach(ps[k := p], at) == Reach(ps, at)
  {
    if k > 0 {
      assert ps[k := p][1..] == ps[1..][k - 1 := p];
      LinkedAnswer(ps[1..], k - 1, p, ps[0].end);
    } else {
      assert ps[k := p][1..] == ps[1..];
    }
  }

  /** Everything of the object that was not handed over, in order. */
  function Ahead(p: Pipe): seq<Part> { p.queue + p.hand + p.window + p.todo }

  ghost predicate InBounds(ps: seq<Part>, source: Bytes) { forall i :: 0 <= i < |ps| ==> Within(ps[i], source) }

  /** A fetched part carries exactly its range. */
  ghost predicate True(ps: seq<Part>, source: Bytes) {
    forall i :: 0 <= i < |ps| && ps[i].answer.Fetched? ==>
      Within(ps[i], source) && ps[i].answer.data == source[ps[i].start..ps[i].end]
  }

  ghost predicate Attended(x: File) { x.consumer.Asking? || x.consumer.Working? }

  ghost predicate Content(x: File) {
    && InBounds(x.pipe.todo, x.source) && InBounds(x.pipe.window, x.source)
    && True(x.pipe.window, x.source) && True(x.pipe.hand, x.source) && True(x.pipe.queue, x.source)
    && |x.delivered| <= |x.source| && x.delivered == x.source[..|x.delivered|]
  }

  ghost predicate InOrder(x: File) {
    && (Attended(x) && (x.task.running || !x.task.started) ==> Covers(Ahead(x.pipe), |x.delivered|, |x.source|))
    && (Attended(x) ==> Linked(x.pipe.queue, |x.delivered|))
    && (x.task.clean && (Attended(x) || x.consumer.Ended?) ==> Covers(x.pipe.queue, |x.delivered|, |x.source|))
  }

  ghost predicate DataInv(x: File) { Content(x) && InOrder(x) }

  lemma {:induction false} ReadContent(c: nat, x: File, r: ReadAction, y: File)
    requires ReadReady(c, x, r) && Unread(x.pipe.todo) && DataInv(x) && y == ReadMoved(c, x, r)
    ensures Content(y)
  {
    match r
    case Recv =>
      assert x.pipe.queue[0].answer.Fetched? ==> y.delivered == x.source[..x.pipe.queue[0].end];
    case _ =>
  }

  lemma {:induction false} GetOrder(c: nat, x: File, k: nat, ok: bool, y: File)
    requires ReadReady(c, x, Get(k, ok)) && InOrder(x) && y == ReadMoved(c, x, Get(k, ok))
    ensures InOrder(y)
  {
    var p, q := x.pipe, y.pipe;
    var i := |p.queue| + |p.hand| + k;
    assert Ahead(q) == Ahead(p)[i := q.window[k]];
    LinkedAnswer(Ahead(p), i, q.window[k], |x.delivered|);
  }

  lemma {:induction false} SendOrder(c: nat, x: File, y: File)
    requires ReadReady(c, x, Send) && TaskShape(x) && InOrder(x) && y == ReadMoved(c, x, Send)
    ensures InOrder(y)
  {
    var p, q := x.pipe, y.pipe;
    assert Ahead(q) == Ahead(p) == q.queue + (q.window + q.todo);
    LinkedAppend(q.queue, q.window + q.todo, |x.delivered|);
  }

  lemma {:induction false} RecvOrder(c: nat, x: File, y: File)
    requires ReadReady(c, x, Recv) && DataInv(x) && y == ReadMoved(c, x, Recv)
    ensures InOrder(y)
  {
    assert Ahead(x.pipe) == [x.pipe.queue[0]] + Ahead(y.pipe);
    assert Ahead(y.pipe) == Ahead(x.pipe)[1..];
  }

  lemma {:induction false} ReadOrder(c: nat, x: File, r: ReadAction, y: File)
    requires ReadReady(c, x, r) && FileInv(c, x) && DataInv(x) && y == ReadMoved(c, x, r)
    ensures InOrder(y)
  {
    match r
    case Take => assert Ahead(y.pipe) == Ahead(x.pipe);
    case Get(k, ok) => GetOrder(c, x, k, ok, y);
    case Yield => assert Ahead(y.pipe) == Ahead(x.pipe);
    case Send => SendOrder(c, x, y);
    case EndRead => assert Ahead(x.pipe) == x.pipe.queue;
    case Recv => RecvOrder(c, x, y);
    case _ => assert y.pipe == x.pipe;
  }

  lemma {:induction false} DropContent(x: File, d: DropAction, y: File)
    requires DropReady(x, d) && DataInv(x) && y == DropMoved(x, d)
    ensures Content(y)
  {
  }

  lemma {:induction false} DropOrder(c: nat, x: File, d: DropAction, y: File)
    requires DropReady(x, d) && FileInv(c, x) && DataInv(x) && y == DropMoved(x, d)
    ensures InOrder(y)
  {
    match d
    case Die => LinkedAppend(x.pipe.queue, x.pipe.hand + x.pipe.window + x.pipe.todo, |x.delivered|);
    case _ =>
  }

  lemma {:induction false} ActKeepsData(c: nat, share: nat, x: File, a: Action)
    requires Ready(c, x, a) && FileInv(c, x) && DataInv(x)
    ensures DataInv(Moved(c, share, x, a))
  {
    var y := Moved(c, share, x, a);
    match a
    case OfGate(g) => assert y.pipe == x.pipe && y.task == x.task;
    case OfRead(r) => ReadContent(c, x, r, y); ReadOrder(c, x, r, y);
    case OfDrop(d) => DropContent(x, d, y); DropOrder(c, x, d, y);
  }

  ghost predicate AllData(s: State) { forall f :: 0 <= f < |s.files| ==> DataInv(s.files[f]) }

  lemma {:induction false} StepKeepsData(s: State, step: Step)
    requires Enabled(s, step) && Inv(s) && AllData(s)
    ensures AllData(Apply(s, step))
  {
    match step
    case NotifyReaders =>
      forall f | 0 <= f < |s.files| ensures DataInv(Apply(s, step).files[f]) { assert DataInv(s.files[f]); }
    case Grant => assert DataInv(s.files[s.waiters[0]]);
    case Act(f, a) => assert FileInv(s.c, s.files[f]); ActKeepsData(s.c, Share(s), s.files[f], a);
  }

  /** The ranges of every file cover its object, in order. */
  ghost predicate Split(s: State) {
    forall f :: 0 <= f < |s.files| ==>
      InBounds(s.files[f].pipe.todo, s.files[f].source) && Covers(s.files[f].pipe.todo, 0, |s.files[f].source|)
  }

  lemma {:induction false} InitData(s: State)
    requires Init(s) && Split(s)
    ensures AllData(s)
  {
    forall f | 0 <= f < |s.files| ensures DataInv(s.files[f]) {
      assert Untouched(s.files[f]);
      assert Ahead(s.files[f].pipe) == s.files[f].pipe.todo;
    }
  }

  lemma {:induction false} RunKeepsData(s: State, steps: seq<Step>)
    requires Inv(s) && AllData(s) && Valid(s, steps)
    ensures AllData(Run(s, steps))
    decreases |steps|
  {
    if steps != [] {
      StepKeeps(s, steps[0]);
      StepKeepsData(s, steps[0]);
      RunKeepsData(Apply(s, steps[0]), steps[1..]);
    }
  }

  /** Reader refinement: in every schedule, with GETs ending in any order, GETs
      failing, reader tasks dying and consumers giving up at any point, what a
      file's consumer got is the object's bytes from the start on. So an
      end-of-stream at the full length is the object, and any other is short. */
  lemma {:induction false} DeliveredIsAPrefix(s: State, steps: seq<Step>, f: nat)
    requires Init(s) && Split(s) && Valid(s, steps) && f < |Run(s, steps).files|
    ensures var x := Run(s, steps).files[f];
            && |x.delivered| <= |x.source| && x.delivered == x.source[..|x.delivered|]
            && (|x.delivered| == |x.source| ==> x.delivered == x.source)
            && (x.consumer.Ended? && x.task.clean ==> x.delivered == x.source)
  {
    InitInv(s);
    InitData(s);
    RunKeeps(s, steps);
    RunKeepsData(s, steps);
    var x := Run(s, steps).files[f];
    assert DataInv(x) && FileInv(Run(s, steps).c, x);
  }
}
