/** The part pool and the ordered part reader, as a step system.

    Any number of files read in parts at the same time. Each one runs a reader
    task (share gate, semaphore, up to `c` ranged GETs, ordered hand-over) and a
    consumer; all of them share one semaphore. Every step below is one
    atomic action of the original: an atomic counter update, a `Notify` call,
    a semaphore grant, one poll result. Steps of different files interleave in
    any order. */
module PartPool {
  import opened Sequences

  type Bytes = seq<char>

  /** A ranged GET's answer. */
  datatype Answer = Waiting | Fetched(data: Bytes) | Broken

  /** The bytes [start, end) of one object. */
  datatype Part = Part(start: nat, end: nat, answer: Answer)

  /** Where a file's `acquire` call stands. `Closed`: no call is running. */
  datatype Gate =
    | Closed
    | Created             // both wake-up futures exist; `readers_changed` reaches us from here on
    | Listening           // `released` is enabled too
    | Compared(seen: nat) // `held` is loaded, the fair share is not yet
    | Parked              // at or above the share: waiting for a wake-up
    | Queued              // past the gate, in the semaphore queue
    | Granted             // the semaphore set a permit aside for us

  datatype Consumer = Asking | Working | Failed | Ended | Dropped

  /** The reader task. `reader`: its PoolReader is alive; `clean`: it ended
      after its last part. */
  datatype Task = Task(started: bool, reader: bool, running: bool, clean: bool)

  /** The running `acquire`: which of its wake-up futures is ready (`released`:
      own, `readers_changed`: share), and whether `released` holds a stored
      notification. */
  datatype Acquire = Acquire(gate: Gate, own: bool, share: bool, stored: bool)

  /** The counter the gate compares, slots given back to the semaphore with
      `held` not lowered yet, and lowered ones with `released` not notified yet. */
  datatype Account = Account(held: nat, freeing: nat, lowering: nat)

  /** Ranges without a slot, GETs started and not yielded (in part order), the
      part the reader waits to queue (at most one), the channel to the consumer. */
  datatype Pipe = Pipe(todo: seq<Part>, window: seq<Part>, hand: seq<Part>, queue: seq<Part>)

  datatype File = File(
    source: Bytes,
    task: Task,
    acq: Acquire,
    acct: Account,
    pipe: Pipe,
    consumer: Consumer,
    delivered: Bytes)     // what the consumer got so far

  datatype State = State(
    size: nat,            // slots in the pool
    c: nat,               // part concurrency
    permits: nat,         // free slots
    readers: nat,         // the counter behind the fair share
    notifying: nat,       // changes of `readers` whose notify_waiters is still to come
    waiters: seq<nat>,    // the semaphore queue, first come first served
    files: seq<File>)

  /** The share gate of `acquire`. `forward`: a wake-up future that was notified
      is dropped unused, so its notification is stored again. */
  datatype GateAction =
    | Create | Listen       // the two wake-up futures
    | Compare               // load `held`
    | Decide(forward: bool) // load `readers` and compare
    | Wake(byOwn: bool, forward: bool)

  /** The reader task and the consumer. */
  datatype ReadAction =
    | Register              // pool.reader(): readers += 1
    | Take                  // the permit is polled: held += 1, the GET starts
    | Get(k: nat, ok: bool) // the k-th GET of the window ends
    | Yield | Send          // the oldest part leaves the GETs, then enters the queue
    | EndRead               // the reader task ends after the last part
    | Ask | Recv | Eof      // the consumer

  /** Early ends, what they free, and the second half of a slot's drop. */
  datatype DropAction =
    | Die                   // the reader task ends early: abort, or a panic
    | DropStream            // the consumer gives up: a failed part, or a stall abort
    | DropQueued | DropHand | DropGet(k: nat) | DropAcquire | DropReader
    | Lower | NotifyOwn     // held -= 1, then released.notify_one()

  datatype Action = OfGate(g: GateAction) | OfRead(r: ReadAction) | OfDrop(d: DropAction)

  datatype Step = NotifyReaders | Grant | Act(f: nat, action: Action)

  const MAX_READ_AHEAD_CHUNKS := 32

  /** Depth of the channel between reader and consumer. */
  function ReadAheadDepth(c: nat): (d: nat)
    ensures 1 <= d <= MAX_READ_AHEAD_CHUNKS && d <= c + 1
  {
    if c < 1 then 1 else if c > MAX_READ_AHEAD_CHUNKS then MAX_READ_AHEAD_CHUNKS else c
  }

  /** Most slots one file can hold at once. */
  function PartsPerFile(c: nat): nat {
    if c <= 1 then 0 else c + ReadAheadDepth(c) + 2
  }

  function FairShare(size: nat, readers: nat): nat {
    var share := size / (if readers == 0 then 1 else readers);
    if share == 0 then 1 else share
  }

  lemma {:induction false} DivIff(a: nat, b: nat, q: nat)
    requires b >= 1
    ensures q <= a / b <==> q * b <= a
  {
    var p := a / b;
    assert p * b <= a < (p + 1) * b;
    if q <= p { assert q * b <= p * b; } else { assert (p + 1) * b <= q * b; }
  }

  /** A file may hold `n` slots exactly when `n` slots for each reading file are in the
      pool; one slot it may always hold. */
  lemma {:induction false} ShareIs(size: nat, readers: nat, n: nat)
    ensures n <= FairShare(size, readers) <==> n <= 1 || n * (if readers == 0 then 1 else readers) <= size
  {
    DivIff(size, if readers == 0 then 1 else readers, n);
  }

  /** The reader task polls its stream only while it is not blocked in `send`. */
  predicate Polling(x: File) {
    x.task.started && x.task.running && x.pipe.hand == []
  }

  /** A `notify_waiters` on `readers_changed` reaches this file. */
  predicate Subscribed(g: Gate) {
    g.Created? || g.Listening? || g.Compared? || g.Parked?
  }

  predicate GateReady(c: nat, x: File, g: GateAction) {
    Polling(x) &&
    match g
    case Create => x.acq.gate.Closed? && x.pipe.todo != [] && |x.pipe.window| < c
    case Listen => x.acq.gate.Created?
    case Compare => x.acq.gate.Listening?
    case Decide(_) => x.acq.gate.Compared?
    case Wake(byOwn, _) => x.acq.gate.Parked? && (if byOwn then x.acq.own else x.acq.share)
  }

  predicate ReadReady(c: nat, x: File, r: ReadAction) {
    var p := x.pipe;
    match r
    case Register => !x.task.started
    case Take => Polling(x) && x.acq.gate.Granted? && p.todo != []
    case Get(k, _) => Polling(x) && k < |p.window| && p.window[k].answer.Waiting? && Within(p.window[k], x.source)
    case Yield => Polling(x) && p.window != [] && !p.window[0].answer.Waiting?
    case Send => x.task.running && p.hand != [] && !x.consumer.Dropped? && |p.queue| < ReadAheadDepth(c)
    case EndRead => Polling(x) && p.todo == [] && p.window == [] && x.acq.gate.Closed?
    case Ask => x.consumer.Working?
    case Recv => x.consumer.Asking? && p.queue != []
    case Eof => x.task.started && x.consumer.Asking? && p.queue == [] && !x.task.running
  }

  predicate DropReady(x: File, d: DropAction) {
    var t, p := x.task, x.pipe;
    match d
    case Die => t.running
    case DropStream => t.started && (x.consumer.Asking? || x.consumer.Working? || x.consumer.Failed?)
    case DropQueued => x.consumer.Dropped? && p.queue != []
    case DropHand => !t.running && p.hand != []
    case DropGet(k) => !t.running && k < |p.window|
    case DropAcquire => !t.running && !x.acq.gate.Closed?
    case DropReader => t.reader && !t.running && x.acq.gate.Closed?
    case Lower => x.acct.freeing > 0 && x.acct.held > 0
    case NotifyOwn => x.acct.lowering > 0
  }

  predicate Ready(c: nat, x: File, a: Action) {
    match a
    case OfGate(g) => GateReady(c, x, g)
    case OfRead(r) => ReadReady(c, x, r)
    case OfDrop(d) => DropReady(x, d)
  }

  predicate Enabled(s: State, step: Step) {
    match step
    case NotifyReaders => s.notifying > 0
    case Grant => s.waiters != [] && s.waiters[0] < |s.files| && s.permits > 0
    case Act(f, a) => f < |s.files| && Ready(s.c, s.files[f], a) && (a == OfDrop(DropReader) ==> s.readers > 0)
  }

  predicate Within(p: Part, source: Bytes) {
    p.start <= p.end <= |source|
  }

  /** A GET's outcome: exactly its range of the object, or an error. */
  function Answered(source: Bytes, p: Part, ok: bool): Part
    requires Within(p, source)
  {
    p.(answer := if ok then Fetched(source[p.start..p.end]) else Broken)
  }

  /** A part holds its slot until it is used up; a failed GET has none. */
  predicate HasSlot(p: Part) { !p.answer.Broken? }

  function One(b: bool): nat { if b then 1 else 0 }

  /** One slot went back to the semaphore (if `b`). */
  function Freed(n: Account, b: bool): Account { n.(freeing := n.freeing + One(b)) }

  function Shut(q: Acquire, gate: Gate, forward: bool): Acquire {
    Acquire(gate, false, false, q.stored || (forward && q.own))
  }

  /** The acquire after an action of its gate; `share` is the fair share now. */
  function GateMoved(share: nat, q: Acquire, held: nat, g: GateAction): Acquire {
    match g
    case Create => Acquire(Created, false, false, q.stored)
    case Listen => Acquire(Listening, q.stored, q.share, false)
    case Compare => q.(gate := Compared(held))
    case Decide(forward) =>
      if q.gate.Compared? && q.gate.seen < share then Shut(q, Queued, forward) else q.(gate := Parked)
    case Wake(byOwn, forward) => Shut(q, Closed, forward && !byOwn)
  }

  function ReadMoved(c: nat, x: File, r: ReadAction): File
    requires ReadReady(c, x, r)
  {
    var p := x.pipe;
    match r
    case Register => x.(task := Task(true, true, true, false))
    case Take => x.(acq := x.acq.(gate := Closed), acct := x.acct.(held := x.acct.held + 1),
      pipe := p.(todo := p.todo[1..], window := p.window + [p.todo[0]]))
    case Get(k, ok) => x.(pipe := p.(window := p.window[k := Answered(x.source, p.window[k], ok)]),
      acct := Freed(x.acct, !ok))
    case Yield => x.(pipe := p.(hand := [p.window[0]], window := p.window[1..]))
    case Send => x.(pipe := p.(queue := p.queue + p.hand, hand := []))
    case EndRead => x.(task := x.task.(running := false, clean := true))
    case Ask => x.(consumer := Asking, acct := Freed(x.acct, true))
    case Recv =>
      var a, y := p.queue[0].answer, x.(pipe := p.(queue := p.queue[1..]));
      if a.Fetched? then y.(consumer := Working, delivered := x.delivered + a.data) else y.(consumer := Failed)
    case Eof => x.(consumer := Ended)
  }

  /** `notify_one`: to the waiting `acquire` if there is one, else stored. */
  function Woken(q: Acquire): Acquire {
    if !q.own && (q.gate.Listening? || q.gate.Compared? || q.gate.Parked?) then q.(own := true)
    else q.(stored := true)
  }

  function DropMoved(x: File, d: DropAction): File
    requires DropReady(x, d)
  {
    var n, p := x.acct, x.pipe;
    match d
    case Die => x.(task := x.task.(running := false))
    case DropStream => x.(consumer := Dropped, acct := Freed(n, x.consumer.Working?))
    case DropQueued => x.(pipe := p.(queue := p.queue[1..]), acct := Freed(n, HasSlot(p.queue[0])))
    case DropHand => x.(pipe := p.(hand := p.hand[1..]), acct := Freed(n, HasSlot(p.hand[0])))
    case DropGet(k) =>
      x.(pipe := p.(window := p.window[..k] + p.window[k + 1..]), acct := Freed(n, HasSlot(p.window[k])))
    case DropAcquire => x.(acq := Shut(x.acq, Closed, false))
    case DropReader => x.(task := x.task.(reader := false))
    case Lower => x.(acct := Account(n.held - 1, n.freeing - 1, n.lowering + 1))
    case NotifyOwn => x.(acct := n.(lowering := n.lowering - 1), acq := Woken(x.acq))
  }

  function Moved(c: nat, share: nat, x: File, a: Action): File
    requires Ready(c, x, a)
  {
    match a
    case OfGate(g) => x.(acq := GateMoved(share, x.acq, x.acct.held, g))
    case OfRead(r) => ReadMoved(c, x, r)
    case OfDrop(d) => DropMoved(x, d)
  }

  /** Permits in the semaphore after an action: a freed slot, or a permit set
      aside for an `acquire` that is dropped, comes back. */
  function PermitsAfter(s: State, x: File, y: File, a: Action): nat {
    s.permits + One(y.acct.freeing > x.acct.freeing) + One(a == OfDrop(DropAcquire) && x.acq.gate.Granted?)
  }

  function ReadersAfter(s: State, a: Action): nat {
    if a == OfRead(Register) then s.readers + 1
    else if a == OfDrop(DropReader) && s.readers > 0 then s.readers - 1
    else s.readers
  }

  function WaitersAfter(s: State, f: nat, y: File, a: Action): seq<nat> {
    if a.OfGate? && y.acq.gate.Queued? then s.waiters + [f]
    else if a == OfDrop(DropAcquire) then Without(s.waiters, f)
    else s.waiters
  }

  function Notified(x: File): File {
    if Subscribed(x.acq.gate) then x.(acq := x.acq.(share := true)) else x
  }

  function Share(s: State): nat { FairShare(s.size, s.readers) }

  function After(s: State, f: nat, a: Action): State
    requires Enabled(s, Act(f, a))
  {
    var x := s.files[f];
    var y := Moved(s.c, Share(s), x, a);
    s.(files := s.files[f := y],
    permits := PermitsAfter(s, x, y, a),
    readers := ReadersAfter(s, a),
    notifying := s.notifying + One(a == OfRead(Register) || a == OfDrop(DropReader)),
    waiters := WaitersAfter(s, f, y, a))
  }

  function Apply(s: State, step: Step): State
    requires Enabled(s, step)
  {
    match step
    case NotifyReaders =>
      s.(notifying := s.notifying - 1, files := seq(|s.files|, i requires 0 <= i < |s.files| => Notified(s.files[i])))
    case Grant =>
      var f := s.waiters[0];
      s.(permits := s.permits - 1, waiters := s.waiters[1..],
        files := s.files[f := s.files[f].(acq := s.files[f].acq.(gate := Granted))])
    case Act(f, a) => After(s, f, a)
  }

  /** A schedule is a sequence of steps, each enabled when its turn comes. */
  ghost predicate Valid(s: State, steps: seq<Step>)
    decreases |steps|
  {
    steps == [] || (Enabled(s, steps[0]) && Valid(Apply(s, steps[0]), steps[1..]))
  }

  ghost function Run(s: State, steps: seq<Step>): State
    requires Valid(s, steps)
    decreases |steps|
  {
    if steps == [] then s else Run(Apply(s, steps[0]), steps[1..])
  }
}
